/** The Chainlink transmissions feed that prices Maple's shares: a header and a ring of answers. */
module FeedRing {
  import opened Wrappers
  import opened MachineInts
  import opened Arithmetic
  import opened CheckedRatio
  import opened Solvency
  import opened Bytes

  datatype MapleError =
    | InvalidAmount
    | InvalidMint
    | InvalidOwner
    | ProtocolCpiFailed
    | MathOverflow
    | InvalidProtocolProgram
    | InvalidTokenAccount
    | InvalidPriceFeed
    | InvalidPriceAnswer
    | AccountNotInitialized
    | AccountInUse

  const FEED_VERSION_OFFSET := 8
  const FEED_SUPPORTED_VERSION := 2
  const FEED_DECIMALS_OFFSET := 138
  const FEED_LIVE_LENGTH_OFFSET := 148
  const FEED_LIVE_CURSOR_OFFSET := 152
  const FEED_TRANSMISSIONS_OFFSET := 200
  const FEED_TRANSMISSION_SIZE := 48
  const FEED_TRANSMISSION_ANSWER_OFFSET := 16

  /** One behind the write cursor, wrapping; the 32-bit sum is checked. */
  function LatestIndex(cursor: u32, length: u32): Result<u32, MapleError>
    requires 0 < length
  {
    var sum :- CheckedAdd32(cursor, length).OkOr(MathOverflow);
    Ok((sum - 1) % length)
  }

  function ReadFeedAnswer(data: seq<u8>): Result<(u128, u8), MapleError> {
    if |data| < FEED_TRANSMISSIONS_OFFSET + FEED_TRANSMISSION_SIZE then Err(InvalidPriceFeed)
    else if data[FEED_VERSION_OFFSET] != FEED_SUPPORTED_VERSION then Err(InvalidPriceFeed)
    else
      var length :- ReadU32(data, FEED_LIVE_LENGTH_OFFSET).OkOr(InvalidPriceFeed);
      var cursor :- ReadU32(data, FEED_LIVE_CURSOR_OFFSET).OkOr(InvalidPriceFeed);
      if length == 0 then Err(InvalidPriceFeed)
      else
        var latest :- LatestIndex(cursor, length);
        var offset := FEED_TRANSMISSIONS_OFFSET + latest * FEED_TRANSMISSION_SIZE + FEED_TRANSMISSION_ANSWER_OFFSET;
        var bits :- ReadU128(data, offset).OkOr(InvalidPriceFeed);
        if Signed128(bits) <= 0 then Err(InvalidPriceAnswer) else Ok((bits, data[FEED_DECIMALS_OFFSET]))
  }

  /** A transmission as the store program writes it; only the answer matters here. */
  datatype Transmission = Transmission(stamp: seq<u8>, answer: int, rest: seq<u8>) {
    ghost predicate WellFormed() {
      |stamp| == 16 && |rest| == 16 && -TWO_127 <= answer < TWO_127
    }
  }

  /** The header bytes that the adapter does not look at. */
  datatype Gaps = Gaps(discriminator: seq<u8>, toDecimals: seq<u8>, toLength: seq<u8>, toRing: seq<u8>)

  datatype Feed = Feed(decimals: u8, ring: seq<Transmission>, cursor: nat) {
    /** What the account layout can hold. */
    ghost predicate Encodable() {
      |ring| < TWO_32 && cursor < TWO_32 && forall t | t in ring :: t.WellFormed()
    }

    /** What the store program keeps: a ring with the cursor inside it. */
    ghost predicate WellFormed() {
      Encodable() && cursor < |ring|
    }

    /** The store program overwrites the slot at the cursor and advances it round the ring. */
    ghost function Write(t: Transmission): Feed
      requires WellFormed()
    {
      this.(ring := ring[cursor := t], cursor := if cursor + 1 == |ring| then 0 else cursor + 1)
    }

    ghost function Writes(ts: seq<Transmission>): (f: Feed)
      requires WellFormed() && forall t | t in ts :: t.WellFormed()
      ensures f.WellFormed() && f.decimals == decimals && |f.ring| == |ring|
      decreases |ts|
    {
      if ts == [] then this else Writes(ts[..|ts| - 1]).Write(ts[|ts| - 1])
    }
  }

  ghost function EncodeTransmission(t: Transmission): (s: seq<u8>)
    requires t.WellFormed()
    ensures |s| == FEED_TRANSMISSION_SIZE
  {
    t.stamp + LeBytes128(Bits128(t.answer)) + t.rest
  }

  ghost function EncodeRing(ring: seq<Transmission>): (s: seq<u8>)
    requires forall t | t in ring :: t.WellFormed()
    ensures |s| == |ring| * FEED_TRANSMISSION_SIZE
  {
    if ring == [] then [] else EncodeRing(ring[..|ring| - 1]) + EncodeTransmission(ring[|ring| - 1])
  }

  ghost predicate GapsFit(gaps: Gaps) {
    |gaps.discriminator| == 8 && |gaps.toDecimals| == 129 && |gaps.toLength| == 9 && |gaps.toRing| == 44
  }

  ghost function EncodeHeader(feed: Feed, gaps: Gaps): (s: seq<u8>)
    requires feed.Encodable() && GapsFit(gaps)
    ensures |s| == FEED_TRANSMISSIONS_OFFSET
  {
    gaps.discriminator + [FEED_SUPPORTED_VERSION] + gaps.toDecimals + [feed.decimals] + gaps.toLength
    + LeBytes32(|feed.ring|) + LeBytes32(feed.cursor) + gaps.toRing
  }

  ghost function EncodeFeed(feed: Feed, gaps: Gaps, tail: seq<u8>): (s: seq<u8>)
    requires feed.Encodable() && GapsFit(gaps)
    ensures |s| == FEED_TRANSMISSIONS_OFFSET + |feed.ring| * FEED_TRANSMISSION_SIZE + |tail|
  {
    EncodeHeader(feed, gaps) + EncodeRing(feed.ring) + tail
  }

  lemma HeaderReads(feed: Feed, gaps: Gaps, data: seq<u8>)
    requires feed.Encodable() && GapsFit(gaps) && EncodeHeader(feed, gaps) <= data
    ensures data[FEED_VERSION_OFFSET] == FEED_SUPPORTED_VERSION && data[FEED_DECIMALS_OFFSET] == feed.decimals
    ensures ReadU32(data, FEED_LIVE_LENGTH_OFFSET) == Some(|feed.ring|)
    ensures ReadU32(data, FEED_LIVE_CURSOR_OFFSET) == Some(feed.cursor)
  {
    hide LeBytes32, LeValue, Pow256;
    var p2 := gaps.discriminator + [FEED_SUPPORTED_VERSION];
    var p3 := p2 + gaps.toDecimals;
    var p4 := p3 + [feed.decimals];
    var p5 := p4 + gaps.toLength;
    var p6 := p5 + LeBytes32(|feed.ring|);
    var p7 := p6 + LeBytes32(feed.cursor);
    AppendedField(p7, gaps.toRing, data);
    AppendedField(p6, LeBytes32(feed.cursor), data);
    AppendedField(p5, LeBytes32(|feed.ring|), data);
    AppendedField(p4, gaps.toLength, data);
    AppendedField(p3, [feed.decimals], data);
    AppendedField(p2, gaps.toDecimals, data);
    AppendedField(gaps.discriminator, [FEED_SUPPORTED_VERSION], data);
  }

  lemma {:induction false} RingSlot(before: seq<u8>, ring: seq<Transmission>, data: seq<u8>, i: nat)
    requires (forall t | t in ring :: t.WellFormed()) && i < |ring| && before + EncodeRing(ring) <= data
    ensures Slice(data, |before| + i * FEED_TRANSMISSION_SIZE, FEED_TRANSMISSION_SIZE) ==
            Some(EncodeTransmission(ring[i]))
    decreases |ring|
  {
    hide EncodeTransmission, Slice;
    var last := |ring| - 1;
    assert before + EncodeRing(ring) == (before + EncodeRing(ring[..last])) + EncodeTransmission(ring[last]);
    AppendedField(before + EncodeRing(ring[..last]), EncodeTransmission(ring[last]), data);
    if i == last {
    } else {
      RingSlot(before, ring[..last], data, i);
    }
  }

  lemma AnswerInSlot(t: Transmission, data: seq<u8>, offset: nat)
    requires t.WellFormed() && Slice(data, offset, FEED_TRANSMISSION_SIZE) == Some(EncodeTransmission(t))
    ensures ReadU128(data, offset + FEED_TRANSMISSION_ANSWER_OFFSET) == Some(Bits128(t.answer))
  {
    hide LeBytes128, LeValue, Pow256;
    var answer := LeBytes128(Bits128(t.answer));
    var slot := data[offset..offset + FEED_TRANSMISSION_SIZE];
    assert slot == t.stamp + (answer + t.rest);
    assert slot[16..] == answer + t.rest;
    assert slot[16..32] == (answer + t.rest)[..16] == answer;
    assert data[offset + 16..offset + 32] == slot[16..32];
  }

  /** Which transmission the adapter takes its answer from: one behind the cursor, round the ring. */
  ghost function Selected(feed: Feed): (t: Transmission)
    requires feed.Encodable() && feed.ring != []
    ensures t.WellFormed()
  {
    feed.ring[Behind(feed.cursor, |feed.ring|)]
  }

  function Behind(cursor: nat, length: nat): (i: nat)
    requires 0 < length
    ensures i < length
    ensures cursor < length ==> i == if cursor == 0 then length - 1 else cursor - 1
  {
    BehindWithin(cursor, length);
    (cursor + length - 1) % length
  }

  lemma BehindWithin(cursor: nat, length: nat)
    requires 0 < length
    ensures 0 <= (cursor + length - 1) % length < length
    ensures cursor < length ==>
              (cursor + length - 1) % length == if cursor == 0 then length - 1 else cursor - 1
  {
    DivIdentity(cursor + length - 1, length);
    if cursor == 0 {
      ModWithin(length - 1, length);
    } else if cursor < length {
      ModWithin(cursor - 1, length);
    }
  }

  /** What reading any encoded feed gives: every ring length, cursor, header gaps and tail. */
  lemma ReadsSelected(feed: Feed, gaps: Gaps, tail: seq<u8>)
    requires feed.Encodable() && GapsFit(gaps)
    ensures ReadFeedAnswer(EncodeFeed(feed, gaps, tail)) ==
            if feed.ring == [] then Err(InvalidPriceFeed)
            else if TWO_32 <= feed.cursor + |feed.ring| then Err(MathOverflow)
            else if Selected(feed).answer <= 0 then Err(InvalidPriceAnswer)
            else Ok((Selected(feed).answer, feed.decimals))
  {
    hide EncodeHeader, EncodeRing, EncodeTransmission, Slice, ReadU128, ReadU32;
    var data := EncodeFeed(feed, gaps, tail);
    HeaderReads(feed, gaps, data);
    if feed.ring != [] {
      var latest := Behind(feed.cursor, |feed.ring|);
      RingSlot(EncodeHeader(feed, gaps), feed.ring, data, latest);
      AnswerInSlot(feed.ring[latest], data, FEED_TRANSMISSIONS_OFFSET + latest * FEED_TRANSMISSION_SIZE);
    }
  }

  /** Where the selected answer ends in the encoding. */
  function AnswerEnd(cursor: nat, length: nat): nat
    requires 0 < length
  {
    FEED_TRANSMISSIONS_OFFSET + Behind(cursor, length) * FEED_TRANSMISSION_SIZE + FEED_TRANSMISSION_ANSWER_OFFSET + 16
  }

  /** What reading a feed cut anywhere gives: before the selected answer ends the whole feed is invalid. */
  lemma CutFeedOutcome(feed: Feed, gaps: Gaps, tail: seq<u8>, cut: nat)
    requires feed.Encodable() && GapsFit(gaps) && cut <= |EncodeFeed(feed, gaps, tail)|
    ensures ReadFeedAnswer(EncodeFeed(feed, gaps, tail)[..cut]) ==
            if cut < FEED_TRANSMISSIONS_OFFSET + FEED_TRANSMISSION_SIZE || feed.ring == [] then Err(InvalidPriceFeed)
            else if TWO_32 <= feed.cursor + |feed.ring| then Err(MathOverflow)
            else if cut < AnswerEnd(feed.cursor, |feed.ring|) then Err(InvalidPriceFeed)
            else ReadFeedAnswer(EncodeFeed(feed, gaps, tail))
  {
    hide EncodeHeader, EncodeRing, EncodeTransmission, Slice, ReadU128, ReadU32;
    var full := EncodeFeed(feed, gaps, tail);
    var data := full[..cut];
    if FEED_TRANSMISSIONS_OFFSET + FEED_TRANSMISSION_SIZE <= cut {
      HeaderReads(feed, gaps, full);
      HeaderReads(feed, gaps, data);
      if feed.ring != [] {
        AnswerCut(data, full, AnswerEnd(feed.cursor, |feed.ring|) - 16);
      }
    }
  }

  lemma AnswerCut(data: seq<u8>, full: seq<u8>, offset: nat)
    requires data <= full
    ensures ReadU128(data, offset) == if offset + 16 <= |data| then ReadU128(full, offset) else None
  {
    if offset + 16 <= |data| {
      SlicePrefix(data, full, offset, 16);
    }
  }

  lemma SelectedIsLastWritten(feed: Feed, ts: seq<Transmission>)
    requires feed.WellFormed() && ts != [] && forall t | t in ts :: t.WellFormed()
    ensures Selected(feed.Writes(ts)) == ts[|ts| - 1]
  {}

  /** After any run of writes the adapter answers with the last of them, if it is positive. */
  lemma LastAnswerRead(feed: Feed, ts: seq<Transmission>, gaps: Gaps, tail: seq<u8>)
    requires feed.WellFormed() && GapsFit(gaps) && ts != [] && forall t | t in ts :: t.WellFormed()
    ensures var now := feed.Writes(ts);
            ReadFeedAnswer(EncodeFeed(now, gaps, tail)) ==
            if TWO_32 <= now.cursor + |now.ring| then Err(MathOverflow)
            else if ts[|ts| - 1].answer <= 0 then Err(InvalidPriceAnswer)
            else Ok((ts[|ts| - 1].answer, feed.decimals))
  {
    ReadsSelected(feed.Writes(ts), gaps, tail);
    SelectedIsLastWritten(feed, ts);
  }

  /** The 32-bit sum only overflows for rings far above what a 10 MiB account can hold. */
  lemma NoOverflowInRealAccounts(feed: Feed, gaps: Gaps, tail: seq<u8>)
    requires feed.WellFormed() && GapsFit(gaps) && |EncodeFeed(feed, gaps, tail)| <= 10 * 1024 * 1024
    ensures ReadFeedAnswer(EncodeFeed(feed, gaps, tail)) != Err(MathOverflow)
  {
    ReadsSelected(feed, gaps, tail);
  }

  /** A ring of just over `2^31` answers, the last of which is refused as an overflow. */
  lemma RingSumOverflows(t: Transmission, gaps: Gaps, tail: seq<u8>) returns (feed: Feed)
    requires t.WellFormed() && 0 < t.answer && GapsFit(gaps)
    ensures feed.WellFormed() && Selected(feed) == t
    ensures ReadFeedAnswer(EncodeFeed(feed, gaps, tail)) == Err(MathOverflow)
  {
    feed := Feed(6, seq(0x8000_0001, _ => t), 0x8000_0000);
    ReadsSelected(feed, gaps, tail);
  }

  /** A ring that was never written, all answers zero, prices nothing. */
  lemma UntouchedRingRefused(feed: Feed, gaps: Gaps, tail: seq<u8>)
    requires feed.Encodable() && GapsFit(gaps) && forall t | t in feed.ring :: t.answer == 0
    ensures ReadFeedAnswer(EncodeFeed(feed, gaps, tail)).Err?
    ensures feed.ring != [] && feed.cursor + |feed.ring| < TWO_32 ==>
              ReadFeedAnswer(EncodeFeed(feed, gaps, tail)) == Err(InvalidPriceAnswer)
  {
    hide EncodeFeed, ReadFeedAnswer;
    ReadsSelected(feed, gaps, tail);
  }

  /** Any positive answer with any number of decimals is what some feed holds. */
  lemma FeedHolding(answer: u128, decimals: u8) returns (data: seq<u8>)
    requires 0 < answer < TWO_127
    ensures ReadFeedAnswer(data) == Ok((answer, decimals))
  {
    hide EncodeFeed, ReadFeedAnswer;
    var t := Transmission(seq(16, _ => 0), answer, seq(16, _ => 0));
    var feed := Feed(decimals, [t], 0);
    var gaps := Gaps(seq(8, _ => 0), seq(129, _ => 0), seq(9, _ => 0), seq(44, _ => 0));
    ReadsSelected(feed, gaps, []);
    data := EncodeFeed(feed, gaps, []);
  }

  function Pow10(n: nat): (p: nat)
    ensures 0 < p
  {
    if n == 0 then 1 else 10 * Pow10(n - 1)
  }

  lemma {:induction false} Pow10Mono(m: nat, n: nat)
    requires m <= n
    ensures Pow10(m) <= Pow10(n)
  {
    if m == n {
    } else {
      Pow10Mono(m, n - 1);
    }
  }

  /** `10_u128.checked_pow`. */
  function CheckedPow10(decimals: u8): Option<u128> {
    if Pow10(decimals) < TWO_128 then Some(Pow10(decimals)) else None
  }

  lemma {:induction false} Pow10Sum(m: nat, n: nat)
    ensures Pow10(m + n) == Pow10(m) * Pow10(n)
  {
    if m == 0 {
    } else {
      Pow10Sum(m - 1, n);
      assert Pow10(m) * Pow10(n) == 10 * (Pow10(m - 1) * Pow10(n));
    }
  }

  lemma Pow10Values()
    ensures Pow10(19) == 10_000_000_000_000_000_000 && Pow10(20) == 10 * Pow10(19)
    ensures Pow10(38) == 100_000_000_000_000_000_000_000_000_000_000_000_000 && Pow10(39) == 10 * Pow10(38)
  {
    assert Pow10(4) == 10_000 && Pow10(5) == 100_000;
    Pow10Sum(5, 5);
    Pow10Sum(10, 5);
    Pow10Sum(15, 4);
    Pow10Sum(19, 19);
  }

  lemma Pow10Widths(decimals: u8)
    ensures CheckedPow10(decimals).Some? <==> decimals <= 38
    ensures decimals <= 19 ==> Pow10(decimals) < TWO_64
  {
    hide Pow10;
    Pow10Values();
    if decimals <= 19 {
      Pow10Mono(decimals, 19);
    } else if decimals <= 38 {
      Pow10Mono(decimals, 38);
    } else {
      Pow10Mono(39, decimals);
    }
  }

  /** Shares scaled by the feed's answer, rounded down. */
  function SharesToUsdcValue(shares: u64, feed: seq<u8>): Result<u64, MapleError> {
    var answer :- ReadFeedAnswer(feed);
    var scale :- CheckedPow10(answer.1).OkOr(MathOverflow);
    MulDivFloor(shares, answer.0, scale).OkOr(MathOverflow)
  }

  /** Exactly when a priced value is refused; below 20 decimals only when the value does not fit. */
  lemma ValueOutcome(shares: u64, feed: seq<u8>, answer: u128, decimals: u8)
    requires ReadFeedAnswer(feed) == Ok((answer, decimals))
    ensures var exact := Portion(shares, answer, Pow10(decimals));
            && (SharesToUsdcValue(shares, feed) ==
                if 38 < decimals || TWO_128 <= shares * answer || TWO_64 <= exact then Err(MathOverflow) else Ok(exact))
            && (decimals <= 19 ==>
                  SharesToUsdcValue(shares, feed) == if TWO_64 <= exact then Err(MathOverflow) else Ok(exact))
  {
    hide ReadFeedAnswer, Pow10, MulDivFloor;
    Pow10Widths(decimals);
    if decimals <= 38 {
      var scale: u128 := Pow10(decimals);
      FloorFailure(shares, answer, scale);
      if MulDivFloor(shares, answer, scale).Some? {
        FloorMeaning(shares, answer, scale, MulDivFloor(shares, answer, scale).value);
      }
      if decimals <= 19 {
        FloorFailsOnlyOnLargeQuotient(shares, answer, scale);
      }
    }
  }

  /** Fewer shares are priced whenever more shares are. */
  lemma FewerSharesPriced(shares: u64, fewer: u64, feed: seq<u8>)
    requires fewer <= shares && SharesToUsdcValue(shares, feed).Ok?
    ensures SharesToUsdcValue(fewer, feed).Ok?
    ensures SharesToUsdcValue(fewer, feed).value <= SharesToUsdcValue(shares, feed).value
  {
    hide ReadFeedAnswer, Pow10, MulDivFloor, Portion;
    var (answer, decimals) := ReadFeedAnswer(feed).value;
    ValueOutcome(shares, feed, answer, decimals);
    ValueOutcome(fewer, feed, answer, decimals);
    MulMono(fewer, shares, answer);
    PortionMono(fewer, shares, answer, answer, Pow10(decimals));
  }

  /** With any other number of decimals there is a feed that refuses a value that fits. */
  lemma SpuriousValueFailure(decimals: u8) returns (feed: seq<u8>, answer: u128)
    requires 20 <= decimals
    ensures ReadFeedAnswer(feed) == Ok((answer, decimals))
    ensures Portion(TWO_64 - 1, answer, Pow10(decimals)) < TWO_64
    ensures SharesToUsdcValue(TWO_64 - 1, feed) == Err(MathOverflow)
  {
    hide ReadFeedAnswer, MulDivFloor, Pow10;
    answer := TWO_64 + 2;
    feed := FeedHolding(answer, decimals);
    ValueOutcome(TWO_64 - 1, feed, answer, decimals);
    assert (TWO_64 - 1) * (TWO_64 + 2) == TWO_128 + TWO_64 - 2;
    Pow10Values();
    Pow10Mono(20, decimals);
    MulMono(Pow10(20), Pow10(decimals), TWO_64);
    PortionAtLeast(TWO_64 - 1, answer, Pow10(decimals), TWO_64);
  }
}
