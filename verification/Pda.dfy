/** Program-derived addresses: a keyed derivation that may fail, and the search for the canonical bump. */
module Pda {
  import opened Wrappers
  import opened MachineInts
  import opened Bytes

  /** Address creation from a program and concatenated seeds; `None` when the hash lands on the curve. */
  type Deriver = (Pubkey, seq<u8>) -> Option<Pubkey>

  /** A deployed program: its own address, and the derivation it lives under. */
  datatype Deployment = Deployment(derive: Deriver, id: Pubkey)

  function Create(derive: Deriver, program: Pubkey, seeds: seq<u8>, bump: u8): Option<Pubkey> {
    derive(program, seeds + [bump])
  }

  function FindFrom(derive: Deriver, program: Pubkey, seeds: seq<u8>, bump: u8): Option<(Pubkey, u8)> {
    if bump == 0 then None else
      match Create(derive, program, seeds, bump)
      case Some(key) => Some((key, bump))
      case None => FindFrom(derive, program, seeds, bump - 1)
  }

  /** `find_program_address`: the address of the largest usable bump. */
  function Find(derive: Deriver, program: Pubkey, seeds: seq<u8>): Option<(Pubkey, u8)> {
    FindFrom(derive, program, seeds, 255)
  }

  predicate IsFound(derive: Deriver, program: Pubkey, seeds: seq<u8>, key: Pubkey) {
    var found := Find(derive, program, seeds);
    found.Some? && found.value.0 == key
  }

  lemma {:induction false} FindFromCreates(derive: Deriver, program: Pubkey, seeds: seq<u8>, bump: u8)
    requires FindFrom(derive, program, seeds, bump).Some?
    ensures var (key, found) := FindFrom(derive, program, seeds, bump).value;
            && Create(derive, program, seeds, found) == Some(key)
            && found <= bump
            && forall b: u8 | found < b <= bump :: Create(derive, program, seeds, b).None?
  {
    if Create(derive, program, seeds, bump).Some? {
    } else {
      FindFromCreates(derive, program, seeds, bump - 1);
    }
  }

  /** Recreating an address from its canonical bump gives the address the search found. */
  lemma FindCreates(derive: Deriver, program: Pubkey, seeds: seq<u8>)
    requires Find(derive, program, seeds).Some?
    ensures var (key, bump) := Find(derive, program, seeds).value;
            && Create(derive, program, seeds, bump) == Some(key)
            && forall b: u8 | bump < b :: Create(derive, program, seeds, b).None?
  {
    FindFromCreates(derive, program, seeds, 255);
  }

  /** The search fails only when no bump from 255 down to 1 gives an address. */
  lemma {:induction false} FindFromFails(derive: Deriver, program: Pubkey, seeds: seq<u8>, bump: u8)
    ensures FindFrom(derive, program, seeds, bump).None? <==>
            forall b: u8 | 0 < b <= bump :: Create(derive, program, seeds, b).None?
  {
    if bump == 0 {
    } else {
      FindFromFails(derive, program, seeds, bump - 1);
    }
  }

  /** The found address is the one its largest usable bump gives. */
  lemma FoundExactly(derive: Deriver, program: Pubkey, seeds: seq<u8>, key: Pubkey)
    ensures IsFound(derive, program, seeds, key) <==>
            exists bump: u8 :: 0 < bump && Create(derive, program, seeds, bump) == Some(key)
                               && forall b: u8 | bump < b :: Create(derive, program, seeds, b).None?
  {
    FindFromFails(derive, program, seeds, 255);
    if Find(derive, program, seeds).Some? {
      FindCreates(derive, program, seeds);
      var found := Find(derive, program, seeds).value.1;
      FindFromPositive(derive, program, seeds, 255);
      assert Create(derive, program, seeds, found).Some?;
    }
  }

  lemma {:induction false} FindFromPositive(derive: Deriver, program: Pubkey, seeds: seq<u8>, bump: u8)
    requires FindFrom(derive, program, seeds, bump).Some?
    ensures 0 < FindFrom(derive, program, seeds, bump).value.1
  {
    if Create(derive, program, seeds, bump).Some? {
    } else {
      FindFromPositive(derive, program, seeds, bump - 1);
    }
  }

  /** The bytes of an ASCII seed literal. */
  function Ascii(s: string): (b: seq<u8>)
    ensures |b| == |s|
    ensures forall i | 0 <= i < |s| && s[i] as int < 0x100 :: b[i] == s[i] as int
  {
    seq(|s|, i requires 0 <= i < |s| => (s[i] as int % 0x100) as u8)
  }
}
