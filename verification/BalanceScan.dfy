/** The 16-slot balance table of a MarginFi account. */
module BalanceScan {
  import opened Wrappers
  import opened MachineInts
  import opened Bytes
  import opened FixedPoint

  const BALANCES_OFFSET := 72
  const BALANCE_SIZE := 104
  const BALANCE_ACTIVE_OFFSET := 0
  const BALANCE_BANK_OFFSET := 1
  const BALANCE_ASSET_SHARES_OFFSET := 40
  const BALANCE_COUNT := 16

  function ReadI80F48Raw(data: seq<u8>, offset: nat): Result<u128, MarginfiError> {
    var bits :- ReadU128(data, offset).OkOr(InvalidProtocolAccount);
    if Signed128(bits) < 0 then Err(InvalidFixedPointValue) else Ok(bits)
  }

  /** What the scan answers from slot `index` on. */
  function SharesFrom(data: seq<u8>, bank: Pubkey, index: nat): Result<u128, MarginfiError>
    requires index <= BALANCE_COUNT
    decreases BALANCE_COUNT - index
  {
    if index == BALANCE_COUNT then Ok(0) else
      var offset := BALANCES_OFFSET + index * BALANCE_SIZE;
      if |data| < offset + BALANCE_SIZE then Err(InvalidProtocolAccount)
      else if data[offset + BALANCE_ACTIVE_OFFSET] != 0
              && data[offset + BALANCE_BANK_OFFSET..offset + BALANCE_BANK_OFFSET + 32] == bank
      then ReadI80F48Raw(data, offset + BALANCE_ASSET_SHARES_OFFSET)
      else SharesFrom(data, bank, index + 1)
  }

  method ReadAssetSharesForBank(data: seq<u8>, bank: Pubkey) returns (r: Result<u128, MarginfiError>)
    ensures r == SharesFrom(data, bank, 0)
  {
    for index := 0 to BALANCE_COUNT
      invariant SharesFrom(data, bank, 0) == SharesFrom(data, bank, index)
    {
      var offset := BALANCES_OFFSET + index * BALANCE_SIZE;
      if |data| < offset + BALANCE_SIZE {
        return Err(InvalidProtocolAccount);
      }
      var active := data[offset + BALANCE_ACTIVE_OFFSET] != 0;
      // The slot fits, so the key inside it can always be read.
      var balanceBank := data[offset + BALANCE_BANK_OFFSET..offset + BALANCE_BANK_OFFSET + 32];
      if active && balanceBank == bank {
        return ReadI80F48Raw(data, offset + BALANCE_ASSET_SHARES_OFFSET);
      }
    }
    return Ok(0);
  }

  /** One balance slot as the protocol writes it; only three of its fields matter here. */
  datatype Slot = Slot(active: u8, bank: Pubkey, gap: seq<u8>, shares: u128, rest: seq<u8>) {
    predicate WellFormed() {
      |gap| == 7 && |rest| == 48
    }

    predicate Names(key: Pubkey) {
      active != 0 && bank == key
    }

    /** A slot whose share count is a negative fixed-point number is refused. */
    function Reported(): Result<u128, MarginfiError> {
      if shares < TWO_127 then Ok(shares) else Err(InvalidFixedPointValue)
    }
  }

  ghost predicate WellFormed(slots: seq<Slot>) {
    forall slot | slot in slots :: slot.WellFormed()
  }

  function EncodeSlot(slot: Slot): (s: seq<u8>)
    requires slot.WellFormed()
    ensures |s| == BALANCE_SIZE
  {
    [slot.active] + slot.bank + slot.gap + LeBytes128(slot.shares) + slot.rest
  }

  ghost function EncodeSlots(slots: seq<Slot>): (s: seq<u8>)
    requires WellFormed(slots)
    ensures |s| == |slots| * BALANCE_SIZE
  {
    if slots == [] then [] else EncodeSlot(slots[0]) + EncodeSlots(slots[1..])
  }

  /** The first active slot for the bank. */
  function First(slots: seq<Slot>, bank: Pubkey): (r: Option<Slot>)
    ensures r.Some? ==> r.value in slots && r.value.Names(bank)
    ensures r.None? <==> forall slot | slot in slots :: !slot.Names(bank)
  {
    if slots == [] then None
    else if slots[0].Names(bank) then Some(slots[0])
    else First(slots[1..], bank)
  }

  /** The answer the slot table stands for; a table with room for fewer than 16 slots is short data. */
  function Answer(slots: seq<Slot>, bank: Pubkey): Result<u128, MarginfiError> {
    match First(slots, bank)
    case Some(slot) => slot.Reported()
    case None => if |slots| == BALANCE_COUNT then Ok(0) else Err(InvalidProtocolAccount)
  }

  lemma SlotFields(before: seq<u8>, slot: Slot, after: seq<u8>)
    requires slot.WellFormed()
    ensures var data := before + EncodeSlot(slot) + after;
            && |data| == |before| + BALANCE_SIZE + |after|
            && data[|before| + BALANCE_ACTIVE_OFFSET] == slot.active
            && data[|before| + BALANCE_BANK_OFFSET..|before| + BALANCE_BANK_OFFSET + 32] == slot.bank
            && ReadI80F48Raw(data, |before| + BALANCE_ASSET_SHARES_OFFSET) == slot.Reported()
  {
    var data := before + EncodeSlot(slot) + after;
    var o := |before| + BALANCE_ASSET_SHARES_OFFSET;
    assert data[o..o + 16] == LeBytes128(slot.shares);
  }

  lemma ScanStep(data: seq<u8>, before: seq<u8>, slot: Slot, after: seq<u8>, bank: Pubkey, index: nat)
    requires slot.WellFormed() && index < BALANCE_COUNT && |before| == BALANCES_OFFSET + index * BALANCE_SIZE
    requires data == before + EncodeSlot(slot) + after
    ensures SharesFrom(data, bank, index) ==
            if slot.Names(bank) then slot.Reported() else SharesFrom(data, bank, index + 1)
  {
    SlotFields(before, slot, after);
  }

  lemma ScanEnd(data: seq<u8>, bank: Pubkey, index: nat)
    requires index <= BALANCE_COUNT && BALANCES_OFFSET + index * BALANCE_SIZE <= |data|
    requires index == BALANCE_COUNT || |data| < BALANCES_OFFSET + (index + 1) * BALANCE_SIZE
    ensures SharesFrom(data, bank, index) == if index == BALANCE_COUNT then Ok(0) else Err(InvalidProtocolAccount)
  {}

  lemma Regroup(a: seq<u8>, b: seq<u8>, c: seq<u8>, d: seq<u8>)
    ensures a + (b + c) + d == a + b + (c + d) == (a + b) + c + d
  {}

  /** For a table of any length and any surrounding bytes, the scan reports the first active slot. */
  lemma {:induction false} ScanAnswers(data: seq<u8>, before: seq<u8>, slots: seq<Slot>, tail: seq<u8>,
                                       bank: Pubkey, index: nat)
    requires WellFormed(slots) && index + |slots| <= BALANCE_COUNT
    requires |before| == BALANCES_OFFSET + index * BALANCE_SIZE
    requires data == before + EncodeSlots(slots) + tail
    requires index + |slots| == BALANCE_COUNT || |tail| < BALANCE_SIZE
    ensures SharesFrom(data, bank, index) ==
            match First(slots, bank)
            case Some(slot) => slot.Reported()
            case None => if index + |slots| == BALANCE_COUNT then Ok(0) else Err(InvalidProtocolAccount)
    decreases |slots|
  {
    hide EncodeSlot, SharesFrom;
    if slots == [] {
      ScanEnd(data, bank, index);
    } else {
      var first, rest := EncodeSlot(slots[0]), EncodeSlots(slots[1..]);
      Regroup(before, first, rest, tail);
      ScanStep(data, before, slots[0], rest + tail, bank, index);
      ScanAnswers(data, before + first, slots[1..], tail, bank, index + 1);
    }
  }

  ghost predicate Layout(data: seq<u8>, header: seq<u8>, slots: seq<Slot>, tail: seq<u8>) {
    && WellFormed(slots) && |header| == BALANCES_OFFSET && |slots| <= BALANCE_COUNT
    && (|slots| == BALANCE_COUNT || |tail| < BALANCE_SIZE)
    && data == header + EncodeSlots(slots) + tail
  }

  lemma ScanOfLayout(data: seq<u8>, header: seq<u8>, slots: seq<Slot>, tail: seq<u8>, bank: Pubkey)
    requires Layout(data, header, slots, tail)
    ensures SharesFrom(data, bank, 0) == Answer(slots, bank)
  {
    ScanAnswers(data, header, slots, tail, bank, 0);
  }

  function DecodeSlot(s: seq<u8>): (slot: Slot)
    requires |s| == BALANCE_SIZE
    ensures slot.WellFormed() && EncodeSlot(slot) == s
  {
    Pow256Widths();
    LeValueInjective(s[40..56], LeBytes128(LeValue(s[40..56])));
    assert s == [s[0]] + s[1..33] + s[33..40] + s[40..56] + s[56..];
    Slot(s[0], s[1..33], s[33..40], LeValue(s[40..56]), s[56..])
  }

  lemma {:induction false} DecodeSlots(data: seq<u8>, room: nat) returns (slots: seq<Slot>, tail: seq<u8>)
    ensures WellFormed(slots) && |slots| <= room && (|slots| == room || |tail| < BALANCE_SIZE)
    ensures data == EncodeSlots(slots) + tail
    decreases room
  {
    if room == 0 || |data| < BALANCE_SIZE {
      slots, tail := [], data;
    } else {
      var rest;
      rest, tail := DecodeSlots(data[BALANCE_SIZE..], room - 1);
      var head := data[..BALANCE_SIZE];
      slots := [DecodeSlot(head)] + rest;
      assert slots[1..] == rest;
      assert EncodeSlots(slots) == head + EncodeSlots(rest);
      assert data == head + (EncodeSlots(rest) + tail);
      Regroup([], head, EncodeSlots(rest), tail);
    }
  }

  /** All data with a full header is such a table, and 1736 bytes or more make it a complete one. */
  lemma EveryAccountHasLayout(data: seq<u8>)
    requires BALANCES_OFFSET <= |data|
    ensures exists header, slots, tail :: Layout(data, header, slots, tail)
    ensures forall header, slots, tail | Layout(data, header, slots, tail) ::
              |slots| == BALANCE_COUNT <==> 1736 <= |data|
  {
    var slots, tail := DecodeSlots(data[BALANCES_OFFSET..], BALANCE_COUNT);
    assert data == data[..BALANCES_OFFSET] + EncodeSlots(slots) + tail;
    assert Layout(data, data[..BALANCES_OFFSET], slots, tail);
  }

  /** 1736 bytes or more are never reported short: the scan answers shares, zero, or a negative value. */
  lemma NeverShort(data: seq<u8>, bank: Pubkey)
    requires 1736 <= |data|
    ensures SharesFrom(data, bank, 0) != Err(InvalidProtocolAccount)
    ensures SharesFrom(data, bank, 0).Ok? ==> SharesFrom(data, bank, 0).value < TWO_127
  {
    EveryAccountHasLayout(data);
    var header, slots, tail :| Layout(data, header, slots, tail);
    ScanOfLayout(data, header, slots, tail, bank);
  }

  /** Whatever the scan answers is not negative as a fixed-point number. */
  lemma {:induction false} ScanWithin(data: seq<u8>, bank: Pubkey, index: nat)
    requires index <= BALANCE_COUNT && SharesFrom(data, bank, index).Ok?
    ensures SharesFrom(data, bank, index).value < TWO_127
    decreases BALANCE_COUNT - index
  {
    hide ReadU128;
    if index == BALANCE_COUNT {
    } else {
      var offset := BALANCES_OFFSET + index * BALANCE_SIZE;
      if SharesFrom(data, bank, index) != ReadI80F48Raw(data, offset + BALANCE_ASSET_SHARES_OFFSET) {
        ScanWithin(data, bank, index + 1);
      }
    }
  }

  ghost predicate AtMostOneNames(slots: seq<Slot>, bank: Pubkey) {
    forall i, j | 0 <= i < |slots| && 0 <= j < |slots| && slots[i].Names(bank) && slots[j].Names(bank) :: i == j
  }

  /** With at most one active slot for the bank, the order of the slots does not matter. */
  lemma AnswerUnordered(slots: seq<Slot>, shuffled: seq<Slot>, bank: Pubkey)
    requires multiset(slots) == multiset(shuffled) && AtMostOneNames(slots, bank)
    ensures Answer(slots, bank) == Answer(shuffled, bank)
  {
    assert |slots| == |multiset(slots)| == |multiset(shuffled)| == |shuffled|;
    assert forall slot :: slot in slots <==> slot in multiset(slots);
    assert forall slot :: slot in shuffled <==> slot in multiset(shuffled);
  }

  /** So two accounts whose tables hold the same slots in any order report the same, whatever surrounds them. */
  lemma OrderIrrelevant(data: seq<u8>, header: seq<u8>, slots: seq<Slot>, tail: seq<u8>,
                        data': seq<u8>, header': seq<u8>, slots': seq<Slot>, tail': seq<u8>, bank: Pubkey)
    requires Layout(data, header, slots, tail) && Layout(data', header', slots', tail')
    requires multiset(slots) == multiset(slots') && AtMostOneNames(slots, bank)
    ensures SharesFrom(data, bank, 0) == SharesFrom(data', bank, 0)
  {
    hide SharesFrom, Layout;
    ScanOfLayout(data, header, slots, tail, bank);
    ScanOfLayout(data', header', slots', tail', bank);
    AnswerUnordered(slots, slots', bank);
  }

  /** Without that assumption it does: two full tables of the same slots, of which the first for the bank decides. */
  lemma OrderMatters(bank: Pubkey, header: seq<u8>, gap: seq<u8>, rest: seq<u8>, tail: seq<u8>)
    returns (slots: seq<Slot>, slots': seq<Slot>)
    requires |header| == BALANCES_OFFSET && |gap| == 7 && |rest| == 48
    ensures WellFormed(slots) && WellFormed(slots') && |slots| == BALANCE_COUNT && multiset(slots) == multiset(slots')
    ensures SharesFrom(header + EncodeSlots(slots) + tail, bank, 0) == Ok(1)
    ensures SharesFrom(header + EncodeSlots(slots') + tail, bank, 0) == Ok(2)
  {
    hide SharesFrom, EncodeSlots, EncodeSlot;
    var (one, two) := (Slot(1, bank, gap, 1, rest), Slot(1, bank, gap, 2, rest));
    var idle := seq(14, _ => Slot(0, bank, gap, 0, rest));
    slots, slots' := [one, two] + idle, [two, one] + idle;
    assert multiset(slots) == multiset{one, two} + multiset(idle) == multiset(slots');
    ScanOfLayout(header + EncodeSlots(slots) + tail, header, slots, tail, bank);
    ScanOfLayout(header + EncodeSlots(slots') + tail, header, slots', tail, bank);
  }
}
