/**
  Lower-case hexadecimal encoding of byte strings, as Go's `hex.EncodeToString`
  produces it, with the matching decoder (Go's `hex.DecodeString`, which also
  accepts upper-case digits) as its inverse.
 */
module Hex {
  import opened Wrappers

  /** Go's `byte` (uint8). */
  newtype byte = x: int | 0 <= x < 256

  predicate IsLowerHexDigit(c: char) {
    '0' <= c <= '9' || 'a' <= c <= 'f'
  }

  predicate IsLowerHex(s: string) {
    forall i :: 0 <= i < |s| ==> IsLowerHexDigit(s[i])
  }

  /** The lower-case digit for a nibble. */
  function DigitChar(n: int): (c: char)
    requires 0 <= n < 16
    ensures IsLowerHexDigit(c)
  {
    if n < 10 then ('0' as int + n) as char else ('a' as int + n - 10) as char
  }

  /** The value of a hexadecimal digit of either case, None for any other character. */
  function DigitValue(c: char): (v: Option<int>)
    ensures v.Some? ==> 0 <= v.value < 16
    ensures IsLowerHexDigit(c) ==> v.Some? && DigitChar(v.value) == c
  {
    if '0' <= c <= '9' then Some(c as int - '0' as int)
    else if 'a' <= c <= 'f' then Some(c as int - 'a' as int + 10)
    else if 'A' <= c <= 'F' then Some(c as int - 'A' as int + 10)
    else None
  }

  /** Two digits per byte, high nibble first. */
  function EncodeToString(b: seq<byte>): (s: string)
    ensures |s| == 2 * |b|
    ensures IsLowerHex(s)
  {
    if |b| == 0 then ""
    else [DigitChar(b[0] as int / 16), DigitChar(b[0] as int % 16)] + EncodeToString(b[1..])
  }

  /** None for an odd length or a character that is not a hexadecimal digit. */
  function DecodeString(s: string): (r: Option<seq<byte>>)
    ensures r.Some? ==> 2 * |r.value| == |s|
  {
    if |s| == 0 then Some([])
    else if |s| == 1 then None
    else
      match (DigitValue(s[0]), DigitValue(s[1]), DecodeString(s[2..]))
      case (Some(hi), Some(lo), Some(rest)) => Some([(hi * 16 + lo) as byte] + rest)
      case _ => None
  }

  lemma {:induction false} DecodeEncode(b: seq<byte>)
    ensures DecodeString(EncodeToString(b)) == Some(b)
  {
    if |b| > 0 {
      var s := EncodeToString(b);
      var hi, lo := b[0] as int / 16, b[0] as int % 16;
      assert s[2..] == EncodeToString(b[1..]);
      DecodeEncode(b[1..]);
      assert DigitValue(s[0]) == Some(hi);
      assert DigitValue(s[1]) == Some(lo);
      assert (hi * 16 + lo) as byte == b[0];
      assert b == [b[0]] + b[1..];
    }
  }

  /** Every even-length lower-case hexadecimal string is the encoding of what it decodes to. */
  lemma {:induction false} EncodeDecode(s: string)
    requires |s| % 2 == 0 && IsLowerHex(s)
    ensures DecodeString(s).Some? && EncodeToString(DecodeString(s).value) == s
  {
    if |s| > 0 {
      assert IsLowerHex(s[2..]) by {
        forall i | 0 <= i < |s[2..]| ensures IsLowerHexDigit(s[2..][i]) {
          assert s[2..][i] == s[i + 2];
        }
      }
      EncodeDecode(s[2..]);
      assert IsLowerHexDigit(s[0]) && IsLowerHexDigit(s[1]);
      var hi, lo := DigitValue(s[0]).value, DigitValue(s[1]).value;
      var rest := DecodeString(s[2..]).value;
      var b := [(hi * 16 + lo) as byte] + rest;
      assert DecodeString(s) == Some(b);
      assert b[1..] == rest;
      assert b[0] as int / 16 == hi && b[0] as int % 16 == lo;
    }
  }

  /** Distinct byte strings have distinct encodings. */
  lemma EncodeInjective(a: seq<byte>, b: seq<byte>)
    requires EncodeToString(a) == EncodeToString(b)
    ensures a == b
  {
    DecodeEncode(a);
    DecodeEncode(b);
  }
}
