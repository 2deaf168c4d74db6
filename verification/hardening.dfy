/**
 * `exhaustive_hashing` (Operations.py): the text is encoded as UTF-8 and the
 * digest function is applied to the bytes the given number of times, each
 * round hashing the previous round's digest. SHA-512 itself is not modelled:
 * the digest function is a parameter.
 */
module Hardening {

  newtype byte = x: int | 0 <= x < 256

  datatype Option<+T> = None | Some(value: T)

  /**
   * The default number of rounds: `exhaustive_hashing(data)` without a count,
   * as `encrypt_data` calls it, is `ExhaustiveHashing(hash, data, DefaultRounds)`.
   */
  const DefaultRounds: nat := 1000000

  /** The largest Unicode scalar value. */
  const MaxScalar: int := 0x10FFFF

  /** `hash` applied `n` times to `b`, the last application outermost. */
  function Iterate(hash: seq<byte> -> seq<byte>, b: seq<byte>, n: nat): seq<byte>
  {
    if n == 0 then b else hash(Iterate(hash, b, n - 1))
  }

  /** `m` rounds followed by `n` more rounds are `m + n` rounds. */
  lemma {:induction false} IterateAdd(hash: seq<byte> -> seq<byte>, b: seq<byte>, m: nat, n: nat)
    ensures Iterate(hash, Iterate(hash, b, m), n) == Iterate(hash, b, m + n)
  {
    if n > 0 {
      IterateAdd(hash, b, m, n - 1);
    }
  }

  /** With a digest of fixed width, at least one round yields exactly that many bytes, whatever the input. */
  lemma DigestWidth(hash: seq<byte> -> seq<byte>, b: seq<byte>, n: nat, width: nat)
    requires forall x :: |hash(x)| == width
    requires n > 0
    ensures |Iterate(hash, b, n)| == width
  {
  }

  /** Number of bytes the UTF-8 encoding of a code point takes. */
  function Width(cp: int): (n: nat)
    ensures 1 <= n <= 4
  {
    if cp < 0x80 then 1 else if cp < 0x800 then 2 else if cp < 0x1_0000 then 3 else 4
  }

  /** A continuation byte `10xxxxxx` carrying six bits. */
  function Cont(bits: int): (b: byte)
    requires 0 <= bits < 64
    ensures 0x80 <= b as int < 0xC0
  {
    (0x80 + bits) as byte
  }

  /** The UTF-8 encoding of one character: a lead byte followed by continuation bytes. */
  function EncodeChar(c: char): (bs: seq<byte>)
    ensures |bs| == Width(c as int)
    ensures |bs| == 1 ==> bs[0] as int == c as int
    ensures forall k | 1 <= k < |bs| :: 0x80 <= bs[k] as int < 0xC0
  {
    var cp := c as int;
    if cp < 0x80 then [cp as byte]
    else if cp < 0x800 then [(0xC0 + cp / 64) as byte, Cont(cp % 64)]
    else if cp < 0x1_0000 then [(0xE0 + cp / 4096) as byte, Cont(cp / 64 % 64), Cont(cp % 64)]
    else [(0xF0 + cp / 262144) as byte, Cont(cp / 4096 % 64), Cont(cp / 64 % 64), Cont(cp % 64)]
  }

  /** `str.encode()`: the UTF-8 encoding of the text, character by character. */
  function Encode(s: string): (bs: seq<byte>)
    ensures |bs| >= |s|
  {
    if s == [] then [] else EncodeChar(s[0]) + Encode(s[1..])
  }

  /** The sequence length of a UTF-8 lead byte, or 0 for a byte that cannot start a character. */
  function LeadWidth(b: byte): nat
  {
    if b < 0x80 then 1 else if b < 0xC0 then 0 else if b < 0xE0 then 2 else if b < 0xF0 then 3 else if b < 0xF8 then 4 else 0
  }

  /** The code point a lead byte and its continuation bytes spell. */
  function CodePoint(bs: seq<byte>): int
    requires 1 <= |bs| <= 4
  {
    var tail := Bits(bs[1..]);
    if |bs| == 1 then bs[0] as int
    else if |bs| == 2 then (bs[0] as int - 0xC0) * 64 + tail
    else if |bs| == 3 then (bs[0] as int - 0xE0) * 4096 + tail
    else (bs[0] as int - 0xF0) * 262144 + tail
  }

  /** The bits that continuation bytes carry, most significant first. */
  function Bits(bs: seq<byte>): int
  {
    if bs == [] then 0 else Bits(bs[..|bs| - 1]) * 64 + (bs[|bs| - 1] as int - 0x80)
  }

  /** Whether `cp` is a Unicode scalar value, that is, a code point that is not a surrogate. */
  predicate IsScalar(cp: int)
  {
    0 <= cp <= MaxScalar && !(0xD800 <= cp < 0xE000)
  }

  /** Decoding UTF-8 text: `None` for a malformed sequence. */
  function Decode(bs: seq<byte>): (r: Option<string>)
    decreases |bs|
  {
    if bs == [] then Some([])
    else
      var n := LeadWidth(bs[0]);
      if n == 0 || n > |bs| then None
      else if exists k | 1 <= k < n :: !(0x80 <= bs[k] < 0xC0) then None
      else
        var cp := CodePoint(bs[..n]);
        if !IsScalar(cp) then None
        else
          match Decode(bs[n..])
          case None => None
          case Some(rest) => Some([cp as char] + rest)
  }

  /** The lead byte of a character's encoding announces its width. */
  lemma LeadOfEncodeChar(c: char)
    ensures LeadWidth(EncodeChar(c)[0]) == |EncodeChar(c)|
  {
  }

  /** The code point spelled by a character's encoding is that character's. */
  lemma CodePointOfEncodeChar(c: char)
    ensures CodePoint(EncodeChar(c)) == c as int
  {
    var bs := EncodeChar(c);
    var cp := c as int;
    if |bs| == 2 {
      Spell2(bs[0], bs[1]);
      assert bs == [bs[0], bs[1]];
    } else if |bs| == 3 {
      Spell3(bs[0], bs[1], bs[2]);
      assert bs == [bs[0], bs[1], bs[2]];
      SixBitGroups(cp);
    } else if |bs| == 4 {
      Spell4(bs[0], bs[1], bs[2], bs[3]);
      assert bs == [bs[0], bs[1], bs[2], bs[3]];
      SixBitGroups(cp);
    }
  }

  lemma Spell2(b0: byte, b1: byte)
    ensures CodePoint([b0, b1]) == (b0 as int - 0xC0) * 64 + (b1 as int - 0x80)
  {
    var t := [b0, b1][1..];
    assert t == [b1] && t[..0] == [];
    assert Bits(t) == b1 as int - 0x80;
  }

  lemma Spell3(b0: byte, b1: byte, b2: byte)
    ensures CodePoint([b0, b1, b2]) == (b0 as int - 0xE0) * 4096 + (b1 as int - 0x80) * 64 + (b2 as int - 0x80)
  {
    var t := [b0, b1, b2][1..];
    assert t == [b1, b2] && t[..1] == [b1] && t[..1][..0] == [];
    assert Bits(t[..1]) == b1 as int - 0x80;
    assert Bits(t) == (b1 as int - 0x80) * 64 + (b2 as int - 0x80);
  }

  lemma Spell4(b0: byte, b1: byte, b2: byte, b3: byte)
    ensures CodePoint([b0, b1, b2, b3])
            == (b0 as int - 0xF0) * 262144 + (b1 as int - 0x80) * 4096 + (b2 as int - 0x80) * 64 + (b3 as int - 0x80)
  {
    var t := [b0, b1, b2, b3][1..];
    assert t == [b1, b2, b3] && t[..2] == [b1, b2] && t[..2][..1] == [b1] && t[..2][..1][..0] == [];
    assert Bits(t[..2][..1]) == b1 as int - 0x80;
    assert Bits(t[..2]) == (b1 as int - 0x80) * 64 + (b2 as int - 0x80);
  }

  /** A code point is the sum of its six-bit groups. */
  lemma SixBitGroups(cp: int)
    requires cp >= 0
    ensures (cp / 4096) * 4096 + (cp / 64 % 64) * 64 + cp % 64 == cp
    ensures (cp / 262144) * 262144 + (cp / 4096 % 64) * 4096 + (cp / 64 % 64) * 64 + cp % 64 == cp
  {
    var q1, q2, q3 := cp / 64, cp / 64 / 64, cp / 64 / 64 / 64;
    assert cp == q1 * 64 + cp % 64;
    assert q1 == q2 * 64 + q1 % 64;
    assert q2 == q3 * 64 + q2 % 64;
    assert cp == q2 * 4096 + (q1 % 64 * 64 + cp % 64);
    assert cp / 4096 == q2;
    assert cp == q3 * 262144 + (q2 % 64 * 4096 + q1 % 64 * 64 + cp % 64);
    assert cp / 262144 == q3;
  }

  /** Decoding inverts encoding: the text hashed is exactly the text given. */
  lemma {:induction false} DecodeEncode(s: string)
    ensures Decode(Encode(s)) == Some(s)
  {
    if s != [] {
      var bs, e := Encode(s), EncodeChar(s[0]);
      var n := |e|;
      assert bs[..n] == e && bs[n..] == Encode(s[1..]);
      LeadOfEncodeChar(s[0]);
      CodePointOfEncodeChar(s[0]);
      DecodeEncode(s[1..]);
      assert [s[0]] + s[1..] == s;
    }
  }

  /** Text of code points below 128 encodes to one byte per character, with the same values. */
  lemma {:induction false} EncodeAscii(s: string)
    requires forall k | 0 <= k < |s| :: s[k] as int < 0x80
    ensures |Encode(s)| == |s|
    ensures forall k | 0 <= k < |s| :: Encode(s)[k] as int == s[k] as int
  {
    if s != [] {
      EncodeAscii(s[1..]);
    }
  }

  /**
   * `exhaustive_hashing(data, iterations)`: encode, then hash `iterations`
   * times; a negative count performs no rounds, as `range` does.
   */
  method ExhaustiveHashing(hash: seq<byte> -> seq<byte>, data: string, iterations: int) returns (digest: seq<byte>)
    ensures digest == Iterate(hash, Encode(data), if iterations < 0 then 0 else iterations)
  {
    var rounds: nat := if iterations < 0 then 0 else iterations;
    digest := Encode(data);
    for i := 0 to rounds
      invariant digest == Iterate(hash, Encode(data), i)
    {
      digest := hash(digest);
    }
  }
}
