/**
  `strconv.ParseUint(s, 16, 8)` as the extractor calls it: base 16 without a
  `0x` prefix, signs or underscores, and a result that must fit in 8 bits.
 */
module GoStrconv {
  import opened Wrappers

  predicate IsHexDigit(c: char)
  {
    '0' <= c <= '9' || 'a' <= c <= 'f' || 'A' <= c <= 'F'
  }

  predicate AllHex(s: string)
  {
    forall i :: 0 <= i < |s| ==> IsHexDigit(s[i])
  }

  /** The value of one hexadecimal digit, either case. */
  function DigitValue(c: char): (d: nat)
    requires IsHexDigit(c)
    ensures d < 16
  {
    if '0' <= c <= '9' then c as int - '0' as int
    else if 'a' <= c <= 'f' then c as int - 'a' as int + 10
    else c as int - 'A' as int + 10
  }

  /** The unbounded value of a string of hexadecimal digits, most significant first. */
  function HexValue(s: string): nat
    requires AllHex(s)
  {
    if s == [] then 0 else HexValue(s[..|s| - 1]) * 16 + DigitValue(s[|s| - 1])
  }

  /**
    `strconv.ParseUint(s, 16, 8)`: `None` for the three errors the extractor
    can meet, an empty string, a character that is not a hex digit
    (syntax errors) and a value above 0xFF (range error); otherwise the byte.
   */
  function ParseHexByte(s: string): (r: Option<nat>)
    ensures r.Some? ==> s != [] && AllHex(s) && r.value == HexValue(s) && r.value < 256
    ensures s != [] && AllHex(s) && HexValue(s) < 256 ==> r.Some?
    ensures s == [] ==> r.None?
    ensures (exists i :: 0 <= i < |s| && !IsHexDigit(s[i])) ==> r.None?
  {
    if s != [] && AllHex(s) && HexValue(s) <= 0xFF then Some(HexValue(s)) else None
  }

  /** The lower-case hex digit for a value below 16. */
  function HexDigit(d: nat): (c: char)
    requires d < 16
    ensures IsHexDigit(c) && DigitValue(c) == d
  {
    if d < 10 then ('0' as int + d) as char else ('a' as int + d - 10) as char
  }

  /** A byte written as two lower-case hex digits, as `fmt.Sprintf("%02x", b)` does. */
  function FormatHexByte(b: nat): (s: string)
    requires b < 256
    ensures |s| == 2 && AllHex(s)
  {
    [HexDigit(b / 16), HexDigit(b % 16)]
  }

  /** Parsing a formatted byte gives the byte back. */
  lemma ParseFormatHexByte(b: nat)
    requires b < 256
    ensures ParseHexByte(FormatHexByte(b)) == Some(b)
  {
    var s := FormatHexByte(b);
    assert s[..1][..0] == [];
    assert HexValue(s[..1]) == b / 16;
  }

  /** A hex value is below 16 to the power of its digit count. */
  lemma {:induction false} HexValueBound(s: string)
    requires AllHex(s)
    ensures HexValue(s) < Pow16(|s|)
  {
    if s != [] {
      HexValueBound(s[..|s| - 1]);
    }
  }

  function Pow16(n: nat): (p: nat)
    ensures p >= 1
  {
    if n == 0 then 1 else 16 * Pow16(n - 1)
  }

  /** Every one- or two-digit hex string parses. */
  lemma ShortHexParses(s: string)
    requires 1 <= |s| <= 2 && AllHex(s)
    ensures ParseHexByte(s).Some?
  {
    HexValueBound(s);
    assert Pow16(|s|) <= 256;
  }

  /**
    Bit 0 of a hex value is bit 0 of its last digit, because 16 is even:
    a parsed byte is odd exactly when its last digit is odd.
   */
  lemma LowBitIsLastDigit(s: string)
    requires s != [] && AllHex(s)
    ensures HexValue(s) % 2 == DigitValue(s[|s| - 1]) % 2
  {
  }
}
