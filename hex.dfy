/**
 * Bytes and their hexadecimal text form, as used by Node's `Buffer.from(s, 'hex')`
 * and by the hash libraries, which print a digest as lower-case hex.
 */
module Hex {

  /** One octet of a Node `Buffer`. */
  type byte = x: int | 0 <= x < 256

  predicate IsHexDigit(ch: char) {
    ('0' <= ch <= '9') || ('a' <= ch <= 'f') || ('A' <= ch <= 'F')
  }

  predicate IsHexString(s: string) {
    forall i :: 0 <= i < |s| ==> IsHexDigit(s[i])
  }

  /** Text that `Buffer.from(s, 'hex')` decodes completely: an even number of hex digits. */
  predicate WellFormedHex(s: string) {
    |s| % 2 == 0 && IsHexString(s)
  }

  /** Value of one hex digit; upper and lower case are accepted alike. */
  function DigitValue(ch: char): (v: nat)
    requires IsHexDigit(ch)
    ensures v < 16
  {
    if '0' <= ch <= '9' then ch as int - '0' as int
    else if 'a' <= ch <= 'f' then ch as int - 'a' as int + 10
    else ch as int - 'A' as int + 10
  }

  /** Lower-case hex digit of a value below 16. */
  function DigitChar(v: nat): (ch: char)
    requires v < 16
    ensures IsHexDigit(ch) && DigitValue(ch) == v
    ensures !('A' <= ch <= 'F')
  {
    if v < 10 then ('0' as int + v) as char else ('a' as int + v - 10) as char
  }

  /** Two lower-case hex digits per byte, most significant nibble first. */
  function Encode(b: seq<byte>): (s: string)
    ensures |s| == 2 * |b|
    ensures WellFormedHex(s)
  {
    if b == [] then [] else [DigitChar(b[0] / 16), DigitChar(b[0] % 16)] + Encode(b[1..])
  }

  /** The hash libraries print lower case: no digit of an encoding is one of `A`-`F`. */
  lemma {:induction false} EncodeIsLowerCase(b: seq<byte>)
    ensures forall i :: 0 <= i < |Encode(b)| ==> !('A' <= Encode(b)[i] <= 'F')
  {
    if b != [] {
      EncodeIsLowerCase(b[1..]);
      var s := Encode(b);
      assert s[2..] == Encode(b[1..]);
      forall i | 2 <= i < |s| ensures !('A' <= s[i] <= 'F') {
        assert s[i] == Encode(b[1..])[i - 2];
      }
    }
  }

  /** `Buffer.from(s, 'hex')` on well-formed input: every pair of digits becomes one byte. */
  function Decode(s: string): (b: seq<byte>)
    requires WellFormedHex(s)
    ensures |b| == |s| / 2
    ensures forall i :: 0 <= i < |b| ==> b[i] == 16 * DigitValue(s[2 * i]) + DigitValue(s[2 * i + 1])
  {
    if s == [] then []
    else
      assert WellFormedHex(s[2..]) by {
        assert forall i :: 0 <= i < |s[2..]| ==> s[2..][i] == s[i + 2];
      }
      [16 * DigitValue(s[0]) + DigitValue(s[1])] + Decode(s[2..])
  }

  /** Decoding inverts encoding: the digest the hash library prints as hex is recovered exactly. */
  lemma {:induction false} DecodeEncode(b: seq<byte>)
    ensures Decode(Encode(b)) == b
  {
    if b != [] {
      var s := Encode(b);
      assert s[2..] == Encode(b[1..]);
      DecodeEncode(b[1..]);
      assert 16 * (b[0] / 16) + b[0] % 16 == b[0];
    }
  }
}
