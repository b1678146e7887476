/** `bytes.fromhex`, which the handler applies to the signature header before
    verifying it, and its inverse `bytes.hex`. */
module Hex {
  import opened Wrappers

  newtype byte = x: int | 0 <= x < 256

  /** ASCII whitespace as CPython's Py_ISSPACE defines it. */
  predicate IsSpace(c: char) {
    c == ' ' || 9 <= c as int <= 13
  }

  predicate IsHexDigit(c: char) {
    '0' <= c <= '9' || 'a' <= c <= 'f' || 'A' <= c <= 'F'
  }

  function DigitValue(c: char): (d: int)
    requires IsHexDigit(c)
    ensures 0 <= d < 16
  {
    if '0' <= c <= '9' then c as int - '0' as int
    else if 'a' <= c <= 'f' then c as int - 'a' as int + 10
    else c as int - 'A' as int + 10
  }

  function HexChar(d: int): (c: char)
    requires 0 <= d < 16
    ensures IsHexDigit(c) && !IsSpace(c) && DigitValue(c) == d
  {
    if d < 10 then ('0' as int + d) as char else ('a' as int + d - 10) as char
  }

  /** `bytes.fromhex(s)`: two hex digits per byte, whitespace allowed before
      each pair and at the end but not between the two digits of a pair;
      None where Python raises ValueError. */
  function FromHex(s: string): (r: Option<seq<byte>>)
    ensures r.Some? ==> 2 * |r.value| <= |s|
    ensures r.Some? ==> forall i :: 0 <= i < |s| ==> IsHexDigit(s[i]) || IsSpace(s[i])
    decreases |s|
  {
    if s == [] then Some([])
    else if IsSpace(s[0]) then FromHex(s[1..])
    else if |s| >= 2 && IsHexDigit(s[0]) && IsHexDigit(s[1]) then
      match FromHex(s[2..])
      case None => None
      case Some(rest) => Some([(16 * DigitValue(s[0]) + DigitValue(s[1])) as byte] + rest)
    else None
  }

  /** `bytes.hex()`: two lower-case hex digits per byte. */
  function ToHex(b: seq<byte>): (s: string)
    ensures |s| == 2 * |b|
  {
    if b == [] then []
    else [HexChar(b[0] as int / 16), HexChar(b[0] as int % 16)] + ToHex(b[1..])
  }

  /** Every byte string survives hex encoding and `bytes.fromhex`. */
  lemma {:induction false} FromHexToHex(b: seq<byte>)
    ensures FromHex(ToHex(b)) == Some(b)
  {
    if b != [] {
      var s := ToHex(b);
      assert s[2..] == ToHex(b[1..]);
      FromHexToHex(b[1..]);
      assert 16 * DigitValue(s[0]) + DigitValue(s[1]) == b[0] as int;
      assert b == [b[0]] + b[1..];
    }
  }

  /** A character that is neither a hex digit nor whitespace makes the
      whole string malformed. */
  lemma StrayCharacterRejected(s: string, i: nat)
    requires i < |s| && !IsHexDigit(s[i]) && !IsSpace(s[i])
    ensures FromHex(s) == None
  {
  }
}
