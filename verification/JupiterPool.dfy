/** The variable-offset Jupiter pool and perpetuals accounts. */
module JupiterPool {
  import opened Wrappers
  import opened MachineInts
  import opened Bytes
  import opened Accounts
  import opened JupiterRate

  function PoolDiscriminator(): (d: seq<u8>)
    ensures |d| == 8
  {
    [241, 154, 109, 4, 17, 177, 109, 188]
  }

  const PERPETUALS_DISCRIMINATOR: seq<u8> := [28, 167, 98, 191, 104, 82, 108, 196]
  const POOL_NAME_OFFSET := 8
  const POOL_COUNT_OFFSET := 15

  /** The key loop: where it stops, and whether the expected key was among the `count` keys. */
  function Scan(data: seq<u8>, offset: u64, count: nat, expected: Pubkey): Result<(u64, bool), JupiterError>
    decreases count
  {
    if count == 0 then Ok((offset, false)) else
      var key :- ReadKey(data, offset).OkOr(InvalidTokenAccount);
      var next :- CheckedAdd64(offset, 32).OkOr(MathOverflow);
      var rest :- Scan(data, next, count - 1, expected);
      Ok((rest.0, key == expected || rest.1))
  }

  method ScanKeys(data: seq<u8>, start: u64, count: nat, expected: Pubkey)
    returns (r: Result<(u64, bool), JupiterError>)
    ensures r == Scan(data, start, count, expected)
  {
    var offset, found := start, false;
    for i := 0 to count
      invariant Scan(data, start, count, expected) ==
                match Scan(data, offset, count - i, expected)
                case Ok(rest) => Ok((rest.0, found || rest.1))
                case Err(e) => Err(e)
    {
      var key :- ReadKey(data, offset).OkOr(InvalidTokenAccount);
      if key == expected {
        found := true;
      }
      offset :- CheckedAdd64(offset, 32).OkOr(MathOverflow);
    }
    return Ok((offset, found));
  }

  /** Where the custody count sits, after the length-prefixed name. */
  function AfterName(data: seq<u8>): Result<u64, JupiterError> {
    if |data| < POOL_NAME_OFFSET + 4 then Err(InvalidPool)
    else if data[..8] != PoolDiscriminator() then Err(InvalidPool)
    else
      var nameLen :- ReadU32(data, POOL_NAME_OFFSET).OkOr(InvalidPool);
      Ok(POOL_NAME_OFFSET + 4 + nameLen)
  }

  function PoolAum(pool: Account, perpsProgram: Pubkey, custody: Pubkey): Result<u128, JupiterError> {
    if pool.owner != perpsProgram then Err(InvalidPool) else
      var afterName :- AfterName(pool.data);
      var count :- ReadU32(pool.data, afterName).OkOr(InvalidPool);
      var scan :- Scan(pool.data, afterName + 4, count, custody);
      if !scan.1 then Err(InvalidPool) else ReadU128(pool.data, scan.0).OkOr(InvalidPool)
  }

  method ReadPoolAum(pool: Account, perpsProgram: Pubkey, custody: Pubkey) returns (r: Result<u128, JupiterError>)
    ensures r == PoolAum(pool, perpsProgram, custody)
  {
    if pool.owner != perpsProgram {
      return Err(InvalidPool);
    }
    var afterName :- AfterName(pool.data);
    var count :- ReadU32(pool.data, afterName).OkOr(InvalidPool);
    // A 32-bit name length cannot make either checked addition before the keys overflow.
    var scan :- ScanKeys(pool.data, afterName + 4, count, custody);
    if !scan.1 {
      return Err(InvalidPool);
    }
    return ReadU128(pool.data, scan.0).OkOr(InvalidPool);
  }

  function CheckPerpetuals(perpetuals: Account, perpsProgram: Pubkey, pool: Pubkey): Result<(), JupiterError> {
    var data := perpetuals.data;
    if perpetuals.owner != perpsProgram then Err(InvalidPerpetuals)
    else if |data| < POOL_COUNT_OFFSET + 4 + 32 then Err(InvalidPerpetuals)
    else if data[..8] != PERPETUALS_DISCRIMINATOR then Err(InvalidPerpetuals)
    else
      var count :- ReadU32(data, POOL_COUNT_OFFSET).OkOr(InvalidPool);
      var scan :- Scan(data, POOL_COUNT_OFFSET + 4, count, pool);
      if !scan.1 then Err(InvalidPerpetuals) else Ok(())
  }

  method ValidatePerpetuals(perpetuals: Account, perpsProgram: Pubkey, pool: Pubkey)
    returns (r: Result<(), JupiterError>)
    ensures r == CheckPerpetuals(perpetuals, perpsProgram, pool)
  {
    var data := perpetuals.data;
    if perpetuals.owner != perpsProgram {
      return Err(InvalidPerpetuals);
    }
    if |data| < POOL_COUNT_OFFSET + 4 + 32 {
      return Err(InvalidPerpetuals);
    }
    if data[..8] != PERPETUALS_DISCRIMINATOR {
      return Err(InvalidPerpetuals);
    }
    var count :- ReadU32(data, POOL_COUNT_OFFSET).OkOr(InvalidPool);
    var scan :- ScanKeys(data, POOL_COUNT_OFFSET + 4, count, pool);
    if !scan.1 {
      return Err(InvalidPerpetuals);
    }
    return Ok(());
  }

  ghost function EncodeKeys(keys: seq<Pubkey>): (s: seq<u8>)
    ensures |s| == 32 * |keys|
  {
    if keys == [] then [] else keys[0] + EncodeKeys(keys[1..])
  }

  /** The Borsh layout: a length-prefixed name, a length-prefixed key vector, then the pool value. */
  ghost function EncodePool(name: seq<u8>, custodies: seq<Pubkey>, aum: u128): (s: seq<u8>)
    requires |name| < TWO_32 && |custodies| < TWO_32
    ensures |s| == 32 + |name| + 32 * |custodies|
  {
    PoolHeader(name, custodies) + LeBytes128(aum)
  }

  ghost function PoolHeader(name: seq<u8>, custodies: seq<Pubkey>): (s: seq<u8>)
    requires |name| < TWO_32 && |custodies| < TWO_32
    ensures |s| == 16 + |name| + 32 * |custodies|
  {
    PoolDiscriminator() + LeBytes32(|name|) + name + LeBytes32(|custodies|) + EncodeKeys(custodies)
  }

  lemma {:induction false} ScanFindsEncodedKeys(data: seq<u8>, offset: u64, keys: seq<Pubkey>, expected: Pubkey)
    requires offset + 32 * |keys| < TWO_64
    requires Slice(data, offset, 32 * |keys|) == Some(EncodeKeys(keys))
    ensures Scan(data, offset, |keys|, expected) == Ok((offset + 32 * |keys|, expected in keys))
    decreases |keys|
  {
    if keys == [] {
    } else {
      var window := data[offset..offset + 32 * |keys|];
      assert data[offset..offset + 32] == window[..32] == keys[0];
      assert data[offset + 32..offset + 32 + 32 * |keys[1..]|] == window[32..] == EncodeKeys(keys[1..]);
      ScanFindsEncodedKeys(data, offset + 32, keys[1..], expected);
      assert expected in keys <==> keys[0] == expected || expected in keys[1..];
    }
  }

  lemma {:induction false} ScanRefusesShortData(data: seq<u8>, offset: u64, count: nat, expected: Pubkey)
    requires |data| < offset + 32 * count && offset + 32 * count < TWO_64 && 0 < count
    ensures Scan(data, offset, count, expected) == Err(InvalidTokenAccount)
    decreases count
  {
    if |data| < offset + 32 {
    } else {
      ScanRefusesShortData(data, offset + 32, count - 1, expected);
    }
  }

  lemma {:induction false} ScanDecodes(data: seq<u8>, offset: u64, count: nat, expected: Pubkey)
    returns (keys: seq<Pubkey>)
    requires Scan(data, offset, count, expected).Ok? && offset <= |data|
    ensures |keys| == count && Slice(data, offset, 32 * count) == Some(EncodeKeys(keys))
    ensures Scan(data, offset, count, expected).value == (offset + 32 * count, expected in keys)
    decreases count
  {
    if count == 0 {
      keys := [];
    } else {
      var rest := ScanDecodes(data, offset + 32, count - 1, expected);
      var key: Pubkey := data[offset..offset + 32];
      keys := [key] + rest;
      assert keys[1..] == rest;
      assert data[offset..offset + 32 * count] == key + data[offset + 32..offset + 32 * count];
      assert expected in keys <==> key == expected || expected in rest;
    }
  }

  lemma HeaderSlices(name: seq<u8>, custodies: seq<Pubkey>, full: seq<u8>)
    requires |name| < TWO_32 && |custodies| < TWO_32 && PoolHeader(name, custodies) <= full
    ensures Slice(full, 0, 8) == Some(PoolDiscriminator()) && Slice(full, 8, 4) == Some(LeBytes32(|name|))
    ensures Slice(full, 12 + |name|, 4) == Some(LeBytes32(|custodies|))
    ensures Slice(full, 16 + |name|, 32 * |custodies|) == Some(EncodeKeys(custodies))
  {
    hide EncodeKeys, LeBytes32, LeValue, Pow256, PoolDiscriminator, Slice;
    var p2 := PoolDiscriminator() + LeBytes32(|name|);
    var p3 := p2 + name;
    var p4 := p3 + LeBytes32(|custodies|);
    AppendedField(p4, EncodeKeys(custodies), full);
    AppendedField(p3, LeBytes32(|custodies|), full);
    AppendedField(p2, name, full);
    AppendedField(PoolDiscriminator(), LeBytes32(|name|), full);
    assert [] + PoolDiscriminator() == PoolDiscriminator();
    AppendedField([], PoolDiscriminator(), full);
  }

  lemma AumSlice(name: seq<u8>, custodies: seq<Pubkey>, aum: u128)
    requires |name| < TWO_32 && |custodies| < TWO_32
    ensures PoolHeader(name, custodies) <= EncodePool(name, custodies, aum)
    ensures Slice(EncodePool(name, custodies, aum), 16 + |name| + 32 * |custodies|, 16) == Some(LeBytes128(aum))
  {
    hide PoolHeader, LeBytes128, LeValue;
    AppendedField(PoolHeader(name, custodies), LeBytes128(aum), EncodePool(name, custodies, aum));
  }

  /** Reading the header of any data that starts like an encoded pool, as far as it reaches. */
  lemma HeaderFields(data: seq<u8>, name: seq<u8>, custodies: seq<Pubkey>, aum: u128)
    requires |name| < TWO_32 && |custodies| < TWO_32
    requires data <= EncodePool(name, custodies, aum) || EncodePool(name, custodies, aum) <= data
    ensures AfterName(data) == if |data| < 12 then Err(InvalidPool) else Ok(12 + |name|)
    ensures 16 + |name| <= |data| ==> ReadU32(data, 12 + |name|) == Some(|custodies|)
    ensures 16 + |name| + 32 * |custodies| <= |data| ==>
              Slice(data, 16 + |name|, 32 * |custodies|) == Some(EncodeKeys(custodies))
    ensures |EncodePool(name, custodies, aum)| <= |data| ==>
              ReadU128(data, 16 + |name| + 32 * |custodies|) == Some(aum)
  {
    hide EncodePool, PoolHeader, EncodeKeys, LeBytes32, LeBytes128, LeValue;
    var full, n, k := EncodePool(name, custodies, aum), |name|, 32 * |custodies|;
    AumSlice(name, custodies, aum);
    HeaderSlices(name, custodies, full);
    if 12 <= |data| {
      SlicePrefix(data, full, 0, 8);
      SlicePrefix(data, full, 8, 4);
    }
    if 16 + n <= |data| {
      SlicePrefix(data, full, 12 + n, 4);
    }
    if 16 + n + k <= |data| {
      SlicePrefix(data, full, 16 + n, k);
    }
    if |full| <= |data| {
      SlicePrefix(data, full, 16 + n + k, 16);
    }
  }

  /** Parsing an encoded pool gives back its value exactly when the custody is listed. */
  lemma PoolRoundTrip(name: seq<u8>, custodies: seq<Pubkey>, aum: u128, tail: seq<u8>, program: Pubkey, custody: Pubkey)
    requires |name| < TWO_32 && |custodies| < TWO_32
    ensures PoolAum(Account(program, EncodePool(name, custodies, aum) + tail), program, custody) ==
            if custody in custodies then Ok(aum) else Err(InvalidPool)
  {
    hide EncodePool, EncodeKeys, AfterName, Scan;
    var data := EncodePool(name, custodies, aum) + tail;
    HeaderFields(data, name, custodies, aum);
    ScanFindsEncodedKeys(data, 16 + |name|, custodies, custody);
  }

  /** Every cut before the end is refused, with the error of the first field it does not reach. */
  lemma CutPoolRefused(name: seq<u8>, custodies: seq<Pubkey>, aum: u128, cut: nat, program: Pubkey, custody: Pubkey)
    requires |name| < TWO_32 && |custodies| < TWO_32
    requires cut < |EncodePool(name, custodies, aum)|
    ensures PoolAum(Account(program, EncodePool(name, custodies, aum)[..cut]), program, custody) ==
            if 16 + |name| <= cut < 16 + |name| + 32 * |custodies| then Err(InvalidTokenAccount) else Err(InvalidPool)
  {
    hide EncodePool, EncodeKeys, AfterName, Scan;
    var data := EncodePool(name, custodies, aum)[..cut];
    HeaderFields(data, name, custodies, aum);
    if 16 + |name| + 32 * |custodies| <= cut {
      ScanFindsEncodedKeys(data, 16 + |name|, custodies, custody);
    } else if 16 + |name| <= cut {
      ScanRefusesShortData(data, 16 + |name|, |custodies|, custody);
    }
  }

  lemma Read32IsSlice(data: seq<u8>, offset: nat, v: u32)
    requires ReadU32(data, offset) == Some(v)
    ensures Slice(data, offset, 4) == Some(LeBytes32(v))
  {
    LeValueInjective(data[offset..offset + 4], LeBytes32(v));
  }

  lemma Read128IsSlice(data: seq<u8>, offset: nat, v: u128)
    requires ReadU128(data, offset) == Some(v)
    ensures Slice(data, offset, 16) == Some(LeBytes128(v))
  {
    LeValueInjective(data[offset..offset + 16], LeBytes128(v));
  }

  lemma JoinFive(f1: seq<u8>, f2: seq<u8>, f3: seq<u8>, f4: seq<u8>, f5: seq<u8>, whole: seq<u8>)
    requires f1 <= whole && Slice(whole, |f1|, |f2|) == Some(f2)
    requires Slice(whole, |f1| + |f2|, |f3|) == Some(f3)
    requires Slice(whole, |f1| + |f2| + |f3|, |f4|) == Some(f4)
    requires Slice(whole, |f1| + |f2| + |f3| + |f4|, |f5|) == Some(f5)
    ensures f1 + f2 + f3 + f4 + f5 <= whole
  {
    hide Slice;
    JoinField(f1, f2, whole);
    JoinField(f1 + f2, f3, whole);
    JoinField(f1 + f2 + f3, f4, whole);
    JoinField(f1 + f2 + f3 + f4, f5, whole);
  }

  lemma JoinHeader(data: seq<u8>, name: seq<u8>, custodies: seq<Pubkey>)
    requires |name| < TWO_32 && |custodies| < TWO_32
    requires PoolDiscriminator() <= data && Slice(data, 8, 4) == Some(LeBytes32(|name|))
    requires Slice(data, 12, |name|) == Some(name) && Slice(data, 12 + |name|, 4) == Some(LeBytes32(|custodies|))
    requires Slice(data, 16 + |name|, 32 * |custodies|) == Some(EncodeKeys(custodies))
    ensures PoolHeader(name, custodies) <= data
  {
    hide EncodeKeys, LeBytes32, LeValue, Pow256, PoolDiscriminator, Slice;
    JoinFive(PoolDiscriminator(), LeBytes32(|name|), name, LeBytes32(|custodies|), EncodeKeys(custodies), data);
  }

  lemma Reassemble(data: seq<u8>, name: seq<u8>, custodies: seq<Pubkey>, aum: u128)
    requires |name| < TWO_32 && |custodies| < TWO_32
    requires PoolDiscriminator() <= data && ReadU32(data, 8) == Some(|name|)
    requires Slice(data, 12, |name|) == Some(name) && ReadU32(data, 12 + |name|) == Some(|custodies|)
    requires Slice(data, 16 + |name|, 32 * |custodies|) == Some(EncodeKeys(custodies))
    requires ReadU128(data, 16 + |name| + 32 * |custodies|) == Some(aum)
    ensures EncodePool(name, custodies, aum) <= data
  {
    hide EncodeKeys, LeBytes32, LeBytes128, LeValue, Pow256, PoolDiscriminator, PoolHeader, Slice, ReadU32, ReadU128;
    Read32IsSlice(data, 8, |name|);
    Read32IsSlice(data, 12 + |name|, |custodies|);
    Read128IsSlice(data, 16 + |name| + 32 * |custodies|, aum);
    JoinHeader(data, name, custodies);
    JoinField(PoolHeader(name, custodies), LeBytes128(aum), data);
  }

  /** Only encodings are accepted: an answer comes from a pool that lists the custody and holds it. */
  lemma AcceptedPoolDecodes(pool: Account, program: Pubkey, custody: Pubkey)
    returns (name: seq<u8>, custodies: seq<Pubkey>, tail: seq<u8>)
    requires PoolAum(pool, program, custody).Ok?
    ensures pool.owner == program && custody in custodies && |name| < TWO_32 && |custodies| < TWO_32
    ensures pool.data == EncodePool(name, custodies, PoolAum(pool, program, custody).value) + tail
    ensures 8 <= |pool.data| && pool.data[..8] == [241, 154, 109, 4, 17, 177, 109, 188]
  {
    hide EncodePool, EncodeKeys, LeValue, Scan;
    var data := pool.data;
    var end := AfterName(data).value;
    name := data[12..end];
    custodies := ScanDecodes(data, end + 4, ReadU32(data, end).value, custody);
    var aum := PoolAum(pool, program, custody).value;
    Reassemble(data, name, custodies, aum);
    tail := data[|EncodePool(name, custodies, aum)|..];
  }

  /** The perpetuals layout up to its list of pools: permission bytes, then a length-prefixed key vector. */
  ghost function EncodePerpetuals(flags: seq<u8>, pools: seq<Pubkey>): (s: seq<u8>)
    requires |flags| == 7 && |pools| < TWO_32
    ensures |s| == 19 + 32 * |pools|
  {
    PERPETUALS_DISCRIMINATOR + flags + LeBytes32(|pools|) + EncodeKeys(pools)
  }

  /** Reading any data that starts like an encoded perpetuals account, as far as it reaches. */
  lemma PerpetualsFields(data: seq<u8>, flags: seq<u8>, pools: seq<Pubkey>)
    requires |flags| == 7 && |pools| < TWO_32
    requires data <= EncodePerpetuals(flags, pools) || EncodePerpetuals(flags, pools) <= data
    ensures 19 <= |data| ==> data[..8] == PERPETUALS_DISCRIMINATOR
    ensures 19 <= |data| ==> ReadU32(data, POOL_COUNT_OFFSET) == Some(|pools|)
    ensures 19 + 32 * |pools| <= |data| ==> Slice(data, 19, 32 * |pools|) == Some(EncodeKeys(pools))
  {
    hide EncodeKeys, LeBytes32, LeValue, Pow256, Slice;
    var full := EncodePerpetuals(flags, pools);
    var p2 := PERPETUALS_DISCRIMINATOR + flags;
    var p3 := p2 + LeBytes32(|pools|);
    AppendedField(p3, EncodeKeys(pools), full);
    AppendedField(p2, LeBytes32(|pools|), full);
    AppendedField(PERPETUALS_DISCRIMINATOR, flags, full);
    if 19 <= |data| {
      SlicePrefix(data, full, POOL_COUNT_OFFSET, 4);
    }
    if 19 + 32 * |pools| <= |data| {
      SlicePrefix(data, full, 19, 32 * |pools|);
    }
  }

  /** The perpetuals check accepts an encoded account exactly when it lists the pool, whatever follows. */
  lemma PerpetualsOutcome(flags: seq<u8>, pools: seq<Pubkey>, tail: seq<u8>, program: Pubkey, pool: Pubkey)
    requires |flags| == 7 && |pools| < TWO_32
    ensures CheckPerpetuals(Account(program, EncodePerpetuals(flags, pools) + tail), program, pool) ==
            if pool in pools then Ok(()) else Err(InvalidPerpetuals)
  {
    hide EncodePerpetuals, EncodeKeys, LeValue, Scan;
    var data := EncodePerpetuals(flags, pools) + tail;
    PerpetualsFields(data, flags, pools);
    ScanFindsEncodedKeys(data, 19, pools, pool);
  }

  /** Every cut of it is refused, the short ones outright and the others by the key they break off in. */
  lemma CutPerpetualsRefused(flags: seq<u8>, pools: seq<Pubkey>, cut: nat, program: Pubkey, pool: Pubkey)
    requires |flags| == 7 && |pools| < TWO_32 && cut < |EncodePerpetuals(flags, pools)|
    ensures CheckPerpetuals(Account(program, EncodePerpetuals(flags, pools)[..cut]), program, pool) ==
            if cut < 51 then Err(InvalidPerpetuals) else Err(InvalidTokenAccount)
  {
    hide EncodePerpetuals, EncodeKeys, LeValue, Scan;
    var data := EncodePerpetuals(flags, pools)[..cut];
    PerpetualsFields(data, flags, pools);
    if 51 <= cut {
      ScanRefusesShortData(data, 19, |pools|, pool);
    }
  }

  /** Only encodings that list the pool are accepted. */
  lemma AcceptedPerpetualsDecode(perpetuals: Account, program: Pubkey, pool: Pubkey)
    returns (flags: seq<u8>, pools: seq<Pubkey>, tail: seq<u8>)
    requires CheckPerpetuals(perpetuals, program, pool).Ok?
    ensures perpetuals.owner == program && pool in pools && |flags| == 7 && |pools| < TWO_32
    ensures perpetuals.data == EncodePerpetuals(flags, pools) + tail
    ensures perpetuals.data[..8] == [28, 167, 98, 191, 104, 82, 108, 196]
  {
    hide EncodeKeys, LeValue, Scan, Slice;
    var data := perpetuals.data;
    flags := data[8..15];
    pools := ScanDecodes(data, 19, ReadU32(data, POOL_COUNT_OFFSET).value, pool);
    Read32IsSlice(data, POOL_COUNT_OFFSET, |pools|);
    JoinPerpetuals(data, flags, pools);
    tail := data[|EncodePerpetuals(flags, pools)|..];
  }

  lemma JoinPerpetuals(data: seq<u8>, flags: seq<u8>, pools: seq<Pubkey>)
    requires |flags| == 7 && |pools| < TWO_32 && 19 <= |data|
    requires data[..8] == PERPETUALS_DISCRIMINATOR && data[8..15] == flags
    requires Slice(data, 15, 4) == Some(LeBytes32(|pools|)) && Slice(data, 19, 32 * |pools|) == Some(EncodeKeys(pools))
    ensures EncodePerpetuals(flags, pools) <= data
  {
    hide EncodeKeys, LeBytes32, LeValue, Pow256;
    var p1 := PERPETUALS_DISCRIMINATOR;
    JoinField(p1, flags, data);
    JoinField(p1 + flags, LeBytes32(|pools|), data);
    JoinField(p1 + flags + LeBytes32(|pools|), EncodeKeys(pools), data);
  }
}
