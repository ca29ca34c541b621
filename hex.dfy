/**
 * Base16 ("hex") encoding as in section 8 of RFC 4648, with the behaviour of
 * Go's `encoding/hex` package: `DecodeString` accepts upper- and lower-case
 * digits, reports the first character that is not a hex digit, and reports an
 * odd length only when every character is a digit; `EncodeToString` writes
 * lower-case digits.
 */
module Hex {
  import opened Wrappers

  newtype byte = x: int | 0 <= x < 256

  datatype DecodeError = InvalidByte(c: char) | OddLength

  predicate IsHexDigit(c: char) {
    ('0' <= c <= '9') || ('a' <= c <= 'f') || ('A' <= c <= 'F')
  }

  predicate AllHexDigits(s: string) {
    forall i :: 0 <= i < |s| ==> IsHexDigit(s[i])
  }

  /** The value of one hex digit. */
  function DigitValue(c: char): (v: nat)
    requires IsHexDigit(c)
    ensures v < 16
  {
    if '0' <= c <= '9' then c as int - '0' as int
    else if 'a' <= c <= 'f' then c as int - 'a' as int + 10
    else c as int - 'A' as int + 10
  }

  /** The lower-case digit for a value below 16. */
  function Digit(v: nat): (c: char)
    requires v < 16
    ensures IsHexDigit(c) && DigitValue(c) == v
    ensures !('A' <= c <= 'F')
  {
    if v < 10 then ('0' as int + v) as char else ('a' as int + v - 10) as char
  }

  /** The byte two digits stand for, high nibble first. */
  function PairValue(hi: char, lo: char): byte
    requires IsHexDigit(hi) && IsHexDigit(lo)
  {
    (16 * DigitValue(hi) + DigitValue(lo)) as byte
  }

  /** hex.DecodeString: two digits per byte. */
  function Decode(s: string): (r: Result<seq<byte>, DecodeError>)
    ensures r.Success? <==> |s| % 2 == 0 && AllHexDigits(s)
    ensures r.Success? ==> |r.value| == |s| / 2
    ensures r == Failure(OddLength) ==> |s| % 2 == 1 && AllHexDigits(s)
    ensures r.Failure? && r.error.InvalidByte? ==>
      r.error.c in s && !IsHexDigit(r.error.c)
    decreases |s|
  {
    if |s| == 0 then Success([])
    else if !IsHexDigit(s[0]) then Failure(InvalidByte(s[0]))
    else if |s| == 1 then Failure(OddLength)
    else if !IsHexDigit(s[1]) then Failure(InvalidByte(s[1]))
    else
      match Decode(s[2..])
      case Failure(e) => Failure(e)
      case Success(rest) =>
        Success([PairValue(s[0], s[1])] + rest)
  }

  /** Position `k` holds the first character of `s` that is not a hex digit. */
  predicate FirstNonDigitAt(s: string, k: int) {
    0 <= k < |s| && !IsHexDigit(s[k]) && AllHexDigits(s[..k])
  }

  /** The invalid character `Decode` reports is the first non-digit of the input. */
  lemma {:induction false} DecodeReportsFirstNonDigit(s: string)
    requires Decode(s).Failure? && Decode(s).error.InvalidByte?
    ensures exists k :: FirstNonDigitAt(s, k) && s[k] == Decode(s).error.c
    decreases |s|
  {
    if !IsHexDigit(s[0]) {
      assert FirstNonDigitAt(s, 0);
    } else if !IsHexDigit(s[1]) {
      assert FirstNonDigitAt(s, 1);
    } else {
      var tail := s[2..];
      DecodeReportsFirstNonDigit(tail);
      var k :| FirstNonDigitAt(tail, k) && tail[k] == Decode(tail).error.c;
      assert forall j :: 2 <= j < k + 2 ==> s[j] == tail[..k][j - 2];
      assert FirstNonDigitAt(s, k + 2);
    }
  }

  /** hex.EncodeToString: the lower-case two-digit form of every byte. */
  function Encode(b: seq<byte>): (s: string)
    ensures |s| == 2 * |b|
    ensures AllHexDigits(s)
    decreases |b|
  {
    if |b| == 0 then []
    else [Digit(b[0] as int / 16), Digit(b[0] as int % 16)] + Encode(b[1..])
  }

  /** The lower-case digits of a byte's nibbles stand for that byte. */
  lemma DigitsOfByte(b: byte)
    ensures PairValue(Digit(b as int / 16), Digit(b as int % 16)) == b
  {
  }

  /** Lower-case digits are the digits of the byte they stand for. */
  lemma ByteOfDigits(hi: char, lo: char)
    requires IsHexDigit(hi) && IsHexDigit(lo) && !('A' <= hi <= 'F') && !('A' <= lo <= 'F')
    ensures Digit(PairValue(hi, lo) as int / 16) == hi && Digit(PairValue(hi, lo) as int % 16) == lo
  {
    var v := PairValue(hi, lo) as int;
    assert v / 16 == DigitValue(hi) && v % 16 == DigitValue(lo);
  }

  /** Decoding what was encoded gives the bytes back. */
  lemma {:induction false} DecodeEncode(b: seq<byte>)
    ensures Decode(Encode(b)) == Success(b)
    decreases |b|
  {
    if |b| > 0 {
      DecodeEncode(b[1..]);
      var s := Encode(b);
      var hi, lo := Digit(b[0] as int / 16), Digit(b[0] as int % 16);
      assert s == [hi, lo] + Encode(b[1..]);
      assert s[0] == hi && s[1] == lo && s[2..] == Encode(b[1..]);
      DigitsOfByte(b[0]);
      assert [b[0]] + b[1..] == b;
    }
  }

  /** Encoding is injective, so two distinct byte strings never share a hex form. */
  lemma EncodeInjective(a: seq<byte>, b: seq<byte>)
    requires Encode(a) == Encode(b)
    ensures a == b
  {
    DecodeEncode(a);
    DecodeEncode(b);
  }

  /** Every lower-case hex string of even length is the encoding of what it decodes to. */
  lemma {:induction false} EncodeDecode(s: string)
    requires |s| % 2 == 0 && AllHexDigits(s)
    requires forall i :: 0 <= i < |s| ==> !('A' <= s[i] <= 'F')
    ensures Decode(s).Success? && Encode(Decode(s).value) == s
    decreases |s|
  {
    if |s| > 0 {
      var tail := s[2..];
      assert forall i :: 0 <= i < |tail| ==> tail[i] == s[i + 2];
      EncodeDecode(tail);
      var b := Decode(s).value;
      assert b == [PairValue(s[0], s[1])] + Decode(tail).value;
      ByteOfDigits(s[0], s[1]);
      assert Encode(b) == [s[0], s[1]] + Encode(b[1..]);
      assert b[1..] == Decode(tail).value;
      assert s == [s[0], s[1]] + tail;
    }
  }
}
