// Character classification used by the tokenizer engine
// (IsWhitespace, IsHexDigit, IsNameChar, IsNameStartChar and the .NET
// character tests they rest on).

module CharClass {

  /** .NET Char.IsWhiteSpace: the control characters U+0009..U+000D, U+0085
      and the Unicode space, line and paragraph separators. */
  predicate IsWhitespace(c: char)
  {
    || ('\t' <= c <= '\r')
    || c == ' '
    || c == '\U{0085}'
    || c == '\U{00A0}'
    || c == '\U{1680}'
    || ('\U{2000}' <= c <= '\U{200A}')
    || c == '\U{2028}'
    || c == '\U{2029}'
    || c == '\U{202F}'
    || c == '\U{205F}'
    || c == '\U{3000}'
  }

  /** Char.IsDigit, restricted to the ASCII digits (the engine computes a
      digit's value as c - '0', which only holds for them). */
  predicate IsDigit(c: char)
  {
    '0' <= c <= '9'
  }

  /** Char.IsLetter on the ASCII and Latin-1 ranges; characters above U+00FF
      are not classified as letters here. */
  predicate IsLetter(c: char)
  {
    || ('a' <= c <= 'z')
    || ('A' <= c <= 'Z')
    || c == '\U{00AA}'
    || c == '\U{00B5}'
    || c == '\U{00BA}'
    || ('\U{00C0}' <= c <= '\U{00D6}')
    || ('\U{00D8}' <= c <= '\U{00F6}')
    || ('\U{00F8}' <= c <= '\U{00FF}')
  }

  /** The value c - '0' the engine adds for a digit character; for an ASCII
      digit it is the digit's value. */
  function DigitValue(c: char): (d: int)
    ensures IsDigit(c) ==> 0 <= d < 10
  {
    c as int - '0' as int
  }

  /** A character code strictly greater than 177 counts as a name character
      and a name-start character. */
  predicate IsHigh(c: char)
  {
    c as int > 177
  }

  /** IsHexDigit: a digit or a letter a-f / A-F; every hex digit is a name
      character. */
  predicate IsHexDigit(c: char)
  {
    IsDigit(c) || ('a' <= c <= 'f') || ('A' <= c <= 'F')
  }

  /** IsNameChar: '_', '-', a digit, a letter or a high character (see
      NameCharsUseLetters). */
  predicate IsNameChar(c: char)
  {
    c == '_' || c == '-' || IsDigit(c) || IsLowLetter(c) || IsHigh(c)
  }

  /** IsNameStartChar: '_', a letter or a high character. */
  predicate IsNameStartChar(c: char)
  {
    c == '_' || IsLowLetter(c) || IsHigh(c)
  }

  /** The letters that are not high characters: a-z, A-Z and U+00AA. */
  predicate IsLowLetter(c: char)
  {
    ('a' <= c <= 'z') || ('A' <= c <= 'Z') || c == '\U{00AA}'
  }

  /** IsNameChar and IsNameStartChar are the engine's tests written with
      Char.IsLetter: every letter is a low letter or a high character. */
  lemma NameCharsUseLetters(c: char)
    ensures IsNameChar(c) <==> c == '_' || c == '-' || IsDigit(c) || IsLetter(c) || IsHigh(c)
    ensures IsNameStartChar(c) <==> c == '_' || IsLetter(c) || IsHigh(c)
  {
  }

  /** The characters at which a line comment or a string stops. */
  predicate IsLineTerminator(c: char)
  {
    c == '\r' || c == '\n' || c == '\U{000C}'
  }

  /** The one-character delimiters "{}()[]:;,". */
  predicate IsDelimiter(c: char)
  {
    c in "{}()[]:;,"
  }

  /** Every hex digit is a name character. */
  lemma HexDigitIsNameChar(c: char)
    ensures IsHexDigit(c) ==> IsNameChar(c)
  {
  }

  /** A name-start character is a name character; neither a digit nor '-'
      starts a name; every high character does. */
  lemma NameStartCharFacts(c: char)
    ensures IsNameStartChar(c) ==> IsNameChar(c)
    ensures IsNameStartChar(c) ==> !IsDigit(c) && c != '-'
    ensures IsHigh(c) ==> IsNameStartChar(c)
  {
  }
}
