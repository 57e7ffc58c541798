/** Base 16 as the `hex` crate writes and reads it (section 8 of RFC 4648):
    lower-case digits out, either case in, an odd number of digits is an error. */
module Hex {
  import opened Wrappers

  type byte = x: int | 0 <= x < 256
  type Bytes = seq<byte>

  const DIGITS := "0123456789abcdef"

  function DigitValue(c: char): Option<nat> {
    if '0' <= c <= '9' then Some(c as int - '0' as int)
    else if 'a' <= c <= 'f' then Some(c as int - 'a' as int + 10)
    else if 'A' <= c <= 'F' then Some(c as int - 'A' as int + 10)
    else None
  }

  function Encode(b: Bytes): string {
    if b == [] then "" else [DIGITS[b[0] / 16], DIGITS[b[0] % 16]] + Encode(b[1..])
  }

  function Decode(s: string): Option<Bytes> {
    if s == "" then Some([])
    else if |s| == 1 then None
    else
      match (DigitValue(s[0]), DigitValue(s[1]), Decode(s[2..]))
      case (Some(hi), Some(lo), Some(rest)) => DecodedPair(hi, lo, rest)
      case _ => None
  }

  function DecodedPair(hi: nat, lo: nat, rest: Bytes): Option<Bytes> {
    if hi < 16 && lo < 16 then Some([16 * hi + lo] + rest) else None
  }

  function LowerDigit(c: char): char {
    if 'A' <= c <= 'F' then (c as int + 32) as char else c
  }

  function Lower(s: string): (r: string)
    ensures |r| == |s|
  {
    if s == "" then "" else [LowerDigit(s[0])] + Lower(s[1..])
  }

  lemma DigitInverse(c: char, d: nat)
    requires d < 16
    ensures DigitValue(c) == Some(d) <==> LowerDigit(c) == DIGITS[d]
  {
  }

  lemma DigitRange(c: char)
    ensures DigitValue(c).Some? ==> DigitValue(c).value < 16
  {
  }

  /** Decoding is exactly the inverse of encoding, up to the case of the digits:
      a text decodes to `b` if and only if its lower-case form is the encoding of `b`.
      In particular an odd length or a character that is no digit never decodes. */
  lemma {:induction false} DecodeIsInverseOfEncode(s: string, b: Bytes)
    ensures Decode(s) == Some(b) <==> Lower(s) == Encode(b)
    decreases |s|
  {
    if s == "" {
    } else if |s| == 1 {
      assert b != [] ==> |Encode(b)| >= 2;
    } else {
      DigitRange(s[0]);
      DigitRange(s[1]);
      assert Lower(s) == [LowerDigit(s[0]), LowerDigit(s[1])] + Lower(s[2..]) by {
        assert s[1..][1..] == s[2..];
      }
      if b == [] {
      } else {
        var hi, lo := b[0] / 16, b[0] % 16;
        DecodeIsInverseOfEncode(s[2..], b[1..]);
        DigitInverse(s[0], hi);
        DigitInverse(s[1], lo);
        PairInverse(s, b);
        var l, e := Lower(s), Encode(b);
        assert l[2..] == Lower(s[2..]) && e[2..] == Encode(b[1..]);
        assert l == [l[0], l[1]] + l[2..] && e == [e[0], e[1]] + e[2..];
      }
    }
  }

  lemma PairInverse(s: string, b: Bytes)
    requires |s| >= 2 && b != []
    ensures Decode(s) == Some(b) <==>
            DigitValue(s[0]) == Some(b[0] / 16) && DigitValue(s[1]) == Some(b[0] % 16) && Decode(s[2..]) == Some(b[1..])
  {
    DigitRange(s[0]);
    DigitRange(s[1]);
    match (DigitValue(s[0]), DigitValue(s[1]), Decode(s[2..]))
    case (Some(hi), Some(lo), Some(rest)) =>
      assert [16 * hi + lo] + rest == b <==> 16 * hi + lo == b[0] && rest == b[1..];
    case _ =>
  }

  lemma {:induction false} EncodeIsLower(b: Bytes)
    ensures Lower(Encode(b)) == Encode(b)
  {
    if b != [] {
      EncodeIsLower(b[1..]);
      var s := Encode(b);
      assert s[1..][1..] == Encode(b[1..]);
    }
  }

  lemma {:induction false} EncodeIsDigits(b: Bytes)
    ensures forall k | 0 <= k < |Encode(b)| :: Encode(b)[k] in DIGITS
  {
    if b != [] {
      EncodeIsDigits(b[1..]);
      var s := Encode(b);
      assert s == [s[0], s[1]] + Encode(b[1..]);
      assert s[0] in DIGITS && s[1] in DIGITS;
    }
  }

  /** Each byte is written as two digits, the high one first (section 8 of RFC 4648). */
  lemma {:induction false} EncodesByteByByte(b: Bytes, k: nat)
    requires k < |b|
    ensures |Encode(b)| == 2 * |b|
    ensures Encode(b)[2 * k] == "0123456789abcdef"[b[k] / 16]
    ensures Encode(b)[2 * k + 1] == "0123456789abcdef"[b[k] % 16]
  {
    var rest := b[1..];
    if k > 0 {
      EncodesByteByByte(rest, k - 1);
      assert Encode(b)[2 * k] == Encode(rest)[2 * (k - 1)] && Encode(b)[2 * k + 1] == Encode(rest)[2 * (k - 1) + 1];
    } else if rest != [] {
      EncodesByteByByte(rest, 0);
    }
  }

  lemma RoundTrip(b: Bytes)
    ensures Decode(Encode(b)) == Some(b)
  {
    EncodeIsLower(b);
    DecodeIsInverseOfEncode(Encode(b), b);
  }
}
