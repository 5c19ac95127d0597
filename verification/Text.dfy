/** Rust strings: Unicode scalar values, measured and stored as UTF-8. */
module Text {
  import opened MachineInts
  import opened Bytes

  /** The Unicode White_Space property, which `str::trim` strips. */
  predicate IsWhiteSpace(c: char) {
    var n := c as int;
    || 0x9 <= n <= 0xD || n == 0x20 || n == 0x85 || n == 0xA0 || n == 0x1680 || 0x2000 <= n <= 0x200A
    || n == 0x2028 || n == 0x2029 || n == 0x202F || n == 0x205F || n == 0x3000
  }

  function TrimStart(s: string): string {
    if s != "" && IsWhiteSpace(s[0]) then TrimStart(s[1..]) else s
  }

  function TrimEnd(s: string): string {
    if s != "" && IsWhiteSpace(s[|s| - 1]) then TrimEnd(s[..|s| - 1]) else s
  }

  function Trim(s: string): string {
    TrimEnd(TrimStart(s))
  }

  function Utf8(s: string): (b: seq<u8>)
    ensures |s| <= |b| <= 4 * |s|
  {
    if s == "" then [] else EncodeChar(s[0]) + Utf8(s[1..])
  }

  function EncodeChar(c: char): (b: seq<u8>)
    ensures 1 <= |b| <= 4
  {
    var n := c as int;
    if n < 0x80 then [n]
    else if n < 0x800 then [0xC0 + n / 0x40, Continuation(n)]
    else if n < 0x1_0000 then [0xE0 + n / 0x1000, Continuation(n / 0x40), Continuation(n)]
    else [0xF0 + n / 0x4_0000, Continuation(n / 0x1000), Continuation(n / 0x40), Continuation(n)]
  }

  /** The character a UTF-8 sequence stands for, read back from its leading and continuation bytes. */
  function DecodeChar(b: seq<int>): int
    requires 1 <= |b| <= 4
  {
    if |b| == 1 then b[0]
    else if |b| == 2 then b[0] % 0x20 * 0x40 + b[1] % 0x40
    else if |b| == 3 then (b[0] % 0x10 * 0x40 + b[1] % 0x40) * 0x40 + b[2] % 0x40
    else ((b[0] % 8 * 0x40 + b[1] % 0x40) * 0x40 + b[2] % 0x40) * 0x40 + b[3] % 0x40
  }

  /** Characters are encoded in the shortest form, from which they read back. */
  lemma CharReadsBack(c: char)
    ensures DecodeChar(EncodeChar(c)) == c as int
    ensures var n := c as int;
            |EncodeChar(c)| == if n <= 0x7F then 1 else if n <= 0x7FF then 2 else if n <= 0xFFFF then 3 else 4
  {
    hide DecodeChar;
    var n: int := c as int;
    Sixes(n);
    if n < 0x80 {
      assert DecodeChar([n]) == n by { DecodesOne(n); }
    } else if n < 0x800 {
      DecodesTwo(n / 0x40, n % 0x40);
    } else if n < 0x1_0000 {
      DecodesThree(n / 0x1000, n / 0x40 % 0x40, n % 0x40);
    } else {
      DecodesFour(n / 0x4_0000, n / 0x1000 % 0x40, n / 0x40 % 0x40, n % 0x40);
    }
  }

  /** A number taken apart into six-bit digits. */
  lemma Sixes(n: nat)
    ensures n == n / 0x40 * 0x40 + n % 0x40
    ensures n / 0x40 == n / 0x1000 * 0x40 + n / 0x40 % 0x40
    ensures n / 0x1000 == n / 0x4_0000 * 0x40 + n / 0x1000 % 0x40
  {}

  lemma DecodesOne(n: nat)
    ensures DecodeChar([n]) == n
  {}

  lemma DecodesTwo(a: nat, b: nat)
    requires a < 0x20 && b < 0x40
    ensures DecodeChar([0xC0 + a, 0x80 + b]) == a * 0x40 + b
  {}

  lemma DecodesThree(a: nat, b: nat, c: nat)
    requires a < 0x10 && b < 0x40 && c < 0x40
    ensures DecodeChar([0xE0 + a, 0x80 + b, 0x80 + c]) == (a * 0x40 + b) * 0x40 + c
  {}

  lemma DecodesFour(a: nat, b: nat, c: nat, d: nat)
    requires a < 8 && b < 0x40 && c < 0x40 && d < 0x40
    ensures DecodeChar([0xF0 + a, 0x80 + b, 0x80 + c, 0x80 + d]) == ((a * 0x40 + b) * 0x40 + c) * 0x40 + d
  {}

  function Continuation(n: nat): u8 {
    0x80 + n % 0x40
  }

  /** Borsh stores a string as its length in bytes and then the bytes. */
  function BorshString(s: string): (b: seq<u8>)
    requires |Utf8(s)| < TWO_32
    ensures |b| == 4 + |Utf8(s)|
  {
    LeBytes32(|Utf8(s)|) + Utf8(s)
  }

  lemma {:induction false} TrimStartKeeps(s: string, i: nat) returns (j: nat)
    requires i < |s| && !IsWhiteSpace(s[i])
    ensures j < |TrimStart(s)| && TrimStart(s)[j] == s[i]
  {
    if IsWhiteSpace(s[0]) {
      j := TrimStartKeeps(s[1..], i - 1);
    } else {
      j := i;
    }
  }

  lemma {:induction false} TrimEndKeeps(s: string, i: nat)
    requires i < |s| && !IsWhiteSpace(s[i])
    ensures TrimEnd(s) != ""
  {
    if !IsWhiteSpace(s[|s| - 1]) {
    } else {
      TrimEndKeeps(s[..|s| - 1], i);
    }
  }

  lemma {:induction false} TrimStartDrops(s: string)
    requires forall i | 0 <= i < |s| :: IsWhiteSpace(s[i])
    ensures TrimStart(s) == ""
  {
    if s == "" {
    } else {
      TrimStartDrops(s[1..]);
    }
  }

  /** Trimming leaves nothing exactly when there was nothing but white space. */
  lemma TrimmedEmpty(s: string)
    ensures Trim(s) == "" <==> forall i | 0 <= i < |s| :: IsWhiteSpace(s[i])
  {
    if i: nat :| i < |s| && !IsWhiteSpace(s[i]) {
      var j := TrimStartKeeps(s, i);
      TrimEndKeeps(TrimStart(s), j);
    } else {
      TrimStartDrops(s);
    }
  }
}
