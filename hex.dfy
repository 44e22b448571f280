/** Lower-case hexadecimal digits, as `Number.prototype.toString(16)` writes
    a value below sixteen. */
module Hex {

  predicate IsLowerHex(c: char)
  {
    '0' <= c <= '9' || 'a' <= c <= 'f'
  }

  /** The one-character string `v.toString(16)` for a nibble `v`. */
  function HexDigit(v: nat): (c: char)
    requires v < 16
    ensures IsLowerHex(c)
    ensures v < 10 <==> '0' <= c <= '9'
  {
    if v < 10 then ('0' as int + v) as char else ('a' as int + v - 10) as char
  }

  /** Reads a lower-case hexadecimal digit back; the inverse of HexDigit. */
  function HexValue(c: char): (v: nat)
    requires IsLowerHex(c)
    ensures v < 16
    ensures HexDigit(v) == c
  {
    if c <= '9' then c as int - '0' as int else c as int - 'a' as int + 10
  }

  /** HexDigit loses nothing: each nibble has its own digit. */
  lemma HexValueOfDigit(v: nat)
    requires v < 16
    ensures HexValue(HexDigit(v)) == v
  {
  }
}
