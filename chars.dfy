/// Characters as the scanner sees them, and the character predicates
/// (src/Scanner_Support.cpp, lines 10-31 and the class test of scan_word).
///
/// The scanner indexes a C++ `std::string` and compares `char` values.  On
/// the compiler the project targets `char` is signed, so a byte of 128 or
/// more reads as a negative number.  `SChar` is that signed character, and a
/// line of source text is a sequence of them.
module Chars {

  /** A C++ `char` on a signed-char platform. */
  newtype SChar = c: int | -128 <= c < 128

  /** An unsigned byte, the `(uint8_t)` view of a character. */
  newtype Byte = b: int | 0 <= b < 256

  /** A `uint32_t`. */
  newtype U32 = n: int | 0 <= n < 0x1_0000_0000

  /** One physical line of source text, without its line terminator. */
  type Text = seq<SChar>

  /** `s[i]` of a `std::string`: reading at `i == s.length()` is defined and
      yields the terminating NUL character. */
  function CharAt(s: Text, i: nat): (c: SChar)
    requires i <= |s|
    ensures i < |s| ==> c == s[i]
    ensures i == |s| ==> c == 0
  {
    if i < |s| then s[i] else 0
  }

  /** The `(uint8_t)` cast: two's complement reinterpretation. */
  function ToByte(c: SChar): (b: Byte)
    ensures b as int % 256 == c as int % 256
  {
    if c < 0 then (c as int + 256) as Byte else c as int as Byte
  }

  /** Every character whose (signed) code is at most 32 is whitespace: the
      ASCII control characters, the space, and every byte of 128 or more. */
  predicate IsWhitespace(c: SChar) {
    c <= 32
  }

  predicate IsBinaryDigit(c: SChar) {
    c == '0' as SChar || c == '1' as SChar
  }

  predicate IsDecimalDigit(c: SChar) {
    '0' as SChar <= c <= '9' as SChar
  }

  predicate IsHexDigit(c: SChar) {
    IsDecimalDigit(c) || ('a' as SChar <= c <= 'f' as SChar) || ('A' as SChar <= c <= 'F' as SChar)
  }

  /** The complement of the characters at which scan_word stops: codes below
      48, 58..64, 91..94, 96 and 123..126 are illegal in a word (and, being
      signed, so is every byte of 128 or more). */
  predicate IsWordChar(c: SChar) {
    !(c < 48 || (c > 57 && c < 65) || (c > 90 && c < 95) || c == 96 || (c > 122 && c < 127))
  }

  /** The legal word characters, stated positively: `[0-9A-Z_a-z]` and DEL. */
  lemma WordCharsExactly(c: SChar)
    ensures IsWordChar(c) <==>
      (IsDecimalDigit(c) || ('A' as SChar <= c <= 'Z' as SChar) || c == '_' as SChar
       || ('a' as SChar <= c <= 'z' as SChar) || c == 127)
  {
  }

  /** Characters shared by both naming schemes: every digit class is nested in
      the next, and no digit is whitespace. */
  lemma DigitClassesNest(c: SChar)
    ensures IsBinaryDigit(c) ==> IsDecimalDigit(c)
    ensures IsDecimalDigit(c) ==> IsHexDigit(c) && IsWordChar(c) && !IsWhitespace(c)
  {
  }

  /** An ASCII string literal as a line of `SChar`s. */
  function Ascii(s: string): (t: Text)
    requires forall k :: 0 <= k < |s| ==> s[k] as int < 128
    ensures |t| == |s|
    ensures forall k :: 0 <= k < |s| ==> t[k] as int == s[k] as int
  {
    seq(|s|, k requires 0 <= k < |s| => s[k] as int as SChar)
  }

  const Backslash: SChar := '\\' as SChar
  const Slash: SChar := '/' as SChar
  const Star: SChar := '*' as SChar
  const DoubleQuote: SChar := '"' as SChar
  const SingleQuote: SChar := '\'' as SChar
  const Underscore: SChar := '_' as SChar
  const Dollar: SChar := '$' as SChar

  /** The last character of a non-empty line is a backslash: the line
      continuation mark (`s.back() == '\\'`). */
  predicate EndsWithBackslash(s: Text)
    requires |s| > 0
  {
    s[|s| - 1] == Backslash
  }
}
