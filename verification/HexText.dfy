/** Lower-case hexadecimal digests (`hex`, `decode_hex_digest`). */
module HexText {
  import opened Wrappers
  import opened Bytes
  import opened Errors

  function HexDigit(n: nat): byte
    requires n < 16
  {
    if n < 10 then '0' as int + n else 'a' as int + (n - 10)
  }

  function Hex(bytes: seq<byte>): (r: seq<byte>)
    ensures |r| == 2 * |bytes|
  {
    seq(2 * |bytes|, i requires 0 <= i < 2 * |bytes| =>
      if i % 2 == 0 then HexDigit(bytes[i / 2] / 16) else HexDigit(bytes[i / 2] % 16))
  }

  /** `decode_hex_nibble`. */
  function Nibble(c: byte): (r: Option<nat>)
    ensures r.Some? ==> r.value < 16 && HexDigit(r.value) == c
  {
    if '0' as int <= c <= '9' as int then Some(c - '0' as int)
    else if 'a' as int <= c <= 'f' as int then Some(c - 'a' as int + 10)
    else None
  }

  lemma NibbleOfDigit(n: nat)
    requires n < 16
    ensures Nibble(HexDigit(n)) == Some(n)
  {
  }

  function HexDigest(text: seq<byte>): Result<Digest, CaptureError> {
    if |text| == 64 && forall i | 0 <= i < 64 :: Nibble(text[i]).Some? then
      Ok(seq(32, i requires 0 <= i < 32 => 16 * Nibble(text[2 * i]).value + Nibble(text[2 * i + 1]).value))
    else
      Err(MalformedCaptureBundle)
  }

  lemma NibblesOf(digest: Digest, i: nat)
    requires i < 32
    ensures Nibble(Hex(digest)[2 * i]) == Some(digest[i] / 16)
    ensures Nibble(Hex(digest)[2 * i + 1]) == Some(digest[i] % 16)
  {
    assert (2 * i + 1) / 2 == i && (2 * i + 1) % 2 == 1;
    NibbleOfDigit(digest[i] / 16);
    NibbleOfDigit(digest[i] % 16);
  }

  lemma HexDecodes(digest: Digest)
    ensures HexDigest(Hex(digest)) == Ok(digest)
  {
    var text := Hex(digest);
    forall i | 0 <= i < 64 ensures Nibble(text[i]).Some? {
      NibblesOf(digest, i / 2);
      assert i == 2 * (i / 2) || i == 2 * (i / 2) + 1;
    }
    var decoded := HexDigest(text).value;
    forall i | 0 <= i < 32 ensures decoded[i] == digest[i] {
      NibblesOf(digest, i);
    }
    assert decoded == digest;
  }

  /** A text decodes to a digest exactly when it is that digest's own spelling. */
  lemma HexDigestIff(text: seq<byte>, digest: Digest)
    ensures HexDigest(text) == Ok(digest) <==> text == Hex(digest)
  {
    if text == Hex(digest) {
      HexDecodes(digest);
    } else if HexDigest(text) == Ok(digest) {
      DecodedSpelling(text);
    }
  }

  lemma DecodedPair(text: seq<byte>, j: nat)
    requires HexDigest(text).Ok? && j < 32
    ensures Hex(HexDigest(text).value)[2 * j] == text[2 * j]
    ensures Hex(HexDigest(text).value)[2 * j + 1] == text[2 * j + 1]
  {
    var high, low := Nibble(text[2 * j]).value, Nibble(text[2 * j + 1]).value;
    var b := HexDigest(text).value[j];
    assert b == 16 * high + low;
    assert b / 16 == high && b % 16 == low;
    assert (2 * j + 1) / 2 == j && (2 * j + 1) % 2 == 1;
  }

  lemma DecodedSpelling(text: seq<byte>)
    requires HexDigest(text).Ok?
    ensures Hex(HexDigest(text).value) == text
  {
    forall i | 0 <= i < 64 ensures Hex(HexDigest(text).value)[i] == text[i] {
      DecodedPair(text, i / 2);
      hide Hex, HexDigest;
      assert i == 2 * (i / 2) || i == 2 * (i / 2) + 1;
    }
  }

  /** `decode_hex_digest`, with its final comparison against the input. */
  method DecodeHexDigest(value: seq<byte>) returns (r: Result<Digest, CaptureError>)
    ensures r == HexDigest(value)
  {
    if |value| != 64 || exists c | c in value :: c >= 128 {
      assert forall i | 0 <= i < |value| :: value[i] >= 128 ==> Nibble(value[i]).None?;
      return Err(MalformedCaptureBundle);
    }
    var decoded := new byte[32](i => 0);
    for index := 0 to 32
      invariant forall i | 0 <= i < 2 * index :: Nibble(value[i]).Some?
      invariant forall i | 0 <= i < index ::
        decoded[i] == 16 * Nibble(value[2 * i]).value + Nibble(value[2 * i + 1]).value
    {
      var high, low := Nibble(value[2 * index]), Nibble(value[2 * index + 1]);
      if high.None? || low.None? {
        return Err(MalformedCaptureBundle);
      }
      decoded[index] := 16 * high.value + low.value;
    }
    assert HexDigest(value).Ok? && decoded[..] == HexDigest(value).value;
    DecodedSpelling(value);
    if Hex(decoded[..]) != value {
      return Err(MalformedCaptureBundle);
    }
    return Ok(decoded[..]);
  }
}
