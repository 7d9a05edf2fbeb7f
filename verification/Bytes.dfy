/** Bytes, machine integers in network byte order, and length-prefixed fields. */
module Bytes {
  type byte = x: int | 0 <= x < 256

  const U32_LIMIT: nat := 0x1_0000_0000
  const U64_LIMIT: nat := 0x1_0000_0000_0000_0000

  type u32 = x: int | 0 <= x < U32_LIMIT
  type u64 = x: int | 0 <= x < U64_LIMIT

  /** A Rust `Vec<u8>`: its length is a machine word. */
  type Vec8 = s: seq<byte> | |s| < U64_LIMIT witness []

  /** `[u8; 32]`. */
  type Digest = s: seq<byte> | |s| == 32 witness seq(32, i => 0)

  /** SHA-256 is an arbitrary function: no theorem here depends on which one. */
  const SHA_256: seq<byte> -> Digest

  function Sha256(data: seq<byte>): Digest {
    SHA_256(data)
  }

  /** The bytes of an ASCII literal. */
  function Ascii(text: string): (r: seq<byte>)
    ensures |r| == |text|
  {
    seq(|text|, i requires 0 <= i < |text| => text[i] as int % 256)
  }

  /** The low `width` bytes of `n`, most significant first. */
  function BigEndian(n: nat, width: nat): (r: seq<byte>)
    ensures |r| == width
  {
    if width == 0 then [] else BigEndian(n / 256, width - 1) + [n % 256]
  }

  function Pow256(width: nat): nat {
    if width == 0 then 1 else 256 * Pow256(width - 1)
  }

  lemma {:induction false} BigEndianInjective(a: nat, b: nat, width: nat)
    requires a < Pow256(width) && b < Pow256(width)
    requires BigEndian(a, width) == BigEndian(b, width)
    ensures a == b
  {
    if width != 0 {
      var p, q := BigEndian(a / 256, width - 1), BigEndian(b / 256, width - 1);
      assert (p + [a % 256])[..width - 1] == p && (q + [b % 256])[..width - 1] == q;
      assert (p + [a % 256])[width - 1] == a % 256 && (q + [b % 256])[width - 1] == b % 256;
      BigEndianInjective(a / 256, b / 256, width - 1);
    }
  }

  function U32(n: u32): (r: seq<byte>)
    ensures |r| == 4
  {
    BigEndian(n, 4)
  }

  /** `n as u64` for a length; lengths of `Vec8` values never wrap. */
  function U64(n: nat): (r: seq<byte>)
    ensures |r| == 8
  {
    BigEndian(n, 8)
  }

  lemma U32Injective(a: u32, b: u32)
    requires U32(a) == U32(b)
    ensures a == b
  {
    assert Pow256(4) == U32_LIMIT by { assert Pow256(2) == 65536; }
    BigEndianInjective(a, b, 4);
  }

  lemma U64Injective(a: u64, b: u64)
    requires U64(a) == U64(b)
    ensures a == b
  {
    assert Pow256(8) == U64_LIMIT by {
      assert Pow256(2) == 65536;
      assert Pow256(4) == 256 * (256 * Pow256(2));
      assert Pow256(6) == 256 * (256 * Pow256(4));
    }
    BigEndianInjective(a, b, 8);
  }

  /** `digest_field`: the length as eight bytes, then the value. */
  function Field(value: Vec8): seq<byte> {
    U64(|value|) + value
  }

  /** Equal-length prefixes of equal streams are equal, and so are the rests. */
  lemma SplitStream(a: seq<byte>, r: seq<byte>, b: seq<byte>, s: seq<byte>)
    requires |a| == |b| && a + r == b + s
    ensures a == b && r == s
  {
    assert a == (a + r)[..|a|] && b == (b + s)[..|b|];
    assert r == (a + r)[|a|..] && s == (b + s)[|b|..];
  }

  lemma SplitU32(a: u32, r: seq<byte>, b: u32, s: seq<byte>)
    requires U32(a) + r == U32(b) + s
    ensures a == b && r == s
  {
    SplitStream(U32(a), r, U32(b), s);
    U32Injective(a, b);
  }

  lemma SplitU64(a: u64, r: seq<byte>, b: u64, s: seq<byte>)
    requires U64(a) + r == U64(b) + s
    ensures a == b && r == s
  {
    SplitStream(U64(a), r, U64(b), s);
    U64Injective(a, b);
  }

  /** A length-prefixed field can be cut off any stream in only one way. */
  lemma SplitField(a: Vec8, r: seq<byte>, b: Vec8, s: seq<byte>)
    requires Field(a) + r == Field(b) + s
    ensures a == b && r == s
  {
    FieldAssociates(a, r);
    FieldAssociates(b, s);
    SplitU64(|a|, a + r, |b|, b + s);
    SplitStream(a, r, b, s);
  }

  lemma FieldAssociates(a: Vec8, r: seq<byte>)
    ensures Field(a) + r == U64(|a|) + (a + r)
  {
    Associates(U64(|a|), a, r);
  }

  lemma Associates(a: seq<byte>, b: seq<byte>, c: seq<byte>)
    ensures (a + b) + c == a + (b + c)
  {
  }
}
