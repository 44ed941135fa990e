// The string-backed tokenizer. StringTokenizer keeps a cursor `next` over
// text[start..end) and the token of the last MoveNext call; the cursor
// primitives (HasMoreChar, GetCurrentChar, Advance, GetText, ...) and the
// engine that the abstract base class builds on them (MoveNext, ParseNumber,
// ParseString, ParseRestOfURI, SwallowWhitespace) live in the one class.
// Every engine method is proved to produce the token LexerSpec describes.

module Tokenizer {
  import opened CharClass
  import opened TokenKinds
  import opened Tokens
  import opened Lookahead
  import opened LexerSpec

  class StringTokenizer {
    const text: string
    const start: int
    const end: int
    /** The cursor: the offset of the next character to read. */
    var next: int
    /** The token of the last MoveNext call (the Current property). */
    var current: Option<Token>

    /** The cursor stays within the tokenized range of the text. */
    ghost predicate Valid()
      reads this
    {
      0 <= start <= next <= end <= |text|
    }

    /** A tokenizer over text[start..end), its cursor at start. */
    constructor (text: string, start: int, end: int)
      requires 0 <= start <= end <= |text|
      ensures Valid()
      ensures this.text == text && this.start == start && this.end == end
      ensures next == start && current == None
    {
      this.text := text;
      this.start := start;
      this.end := end;
      next := start;
      current := None;
    }

    /** A tokenizer over the whole text. */
    constructor FromText(text: string)
      ensures Valid()
      ensures this.text == text && start == 0 && end == |text|
      ensures next == 0 && current == None
    {
      this.text := text;
      start := 0;
      end := |text|;
      next := 0;
      current := None;
    }

    // -------------------------------------------------------------------
    // The cursor

    /** Puts the cursor back at the start of the range; nothing else
        changes. */
    method Reset()
      modifies this`next
      ensures next == start
    {
      next := start;
    }

    /** A character remains at the cursor. */
    function HasMoreChar(): (b: bool)
      reads this
      ensures b <==> next < end
    {
      next < end
    }

    /** A character remains `offset` places after the cursor; for a
        non-negative offset that implies one remains at the cursor. */
    function HasMoreCharAt(offset: int): (b: bool)
      reads this
      ensures b <==> next + offset < end
      ensures b && offset >= 0 ==> HasMoreChar()
    {
      next + offset < end
    }

    /** The character at the cursor, read below the end of the range. */
    function GetCurrentChar(): (c: char)
      reads this
      requires Valid() && HasMoreChar()
      ensures c == CharAt(text, end, next)
    {
      text[next]
    }

    /** The character `offset` places after the cursor. */
    function GetCharRelative(offset: int): (c: char)
      reads this
      requires Valid() && 0 <= next + offset && HasMoreCharAt(offset)
      ensures c == CharAt(text, end, next + offset)
    {
      text[next + offset]
    }

    /** The cursor position. */
    function GetCurrentOffset(): (offset: int)
      reads this
      ensures offset == next
    {
      next
    }

    /** The characters of the text from `from` up to, not including, `to`. */
    function GetText(from: int, to: int): (s: string)
      requires 0 <= from <= to <= |text|
      ensures s == text[from..to]
    {
      text[from..to]
    }

    /** Advance(by, flush): moves the cursor by `distance`; flushing does
        nothing in the string backing. */
    method Advance(distance: int, flush: bool)
      modifies this`next
      ensures next == old(next) + distance
    {
      next := next + distance;
      if flush {
        Flush(next);
      }
    }

    /** Advance(): one character, without flushing. */
    method AdvanceOne()
      modifies this`next
      ensures next == old(next) + 1
    {
      Advance(1, false);
    }

    /** Advance(by) of the engine: moves and flushes. */
    method AdvanceAndFlush(distance: int)
      modifies this`next
      ensures next == old(next) + distance
    {
      Advance(distance, true);
    }

    /** Releases buffered input up to an index: nothing to do for a string. */
    method Flush(upToIndex: int)
      ensures unchanged(this)
    {
    }

    // -------------------------------------------------------------------
    // Scanning routines of the engine

    /** Moves the cursor over the whitespace run at it. */
    method SwallowWhitespace(flush: bool)
      requires Valid()
      modifies this`next
      ensures Valid()
      ensures next == RunEnd(text, old(next), end, IsWhitespace)
    {
      Advance(LookOverWhitespace(text, next, end, 0), flush);
    }

    /** Reads a number from the digit at the cursor and sets the current
        token: the token of ParseNumber(tokenStart, signum). */
    method ParseNumber(tokenStart: int, signum: int)
      requires Valid() && start <= tokenStart <= next < end && IsDigit(text[next])
      modifies this`next, this`current
      ensures Valid()
      ensures current == Some(NumberToken(text, tokenStart, old(next), end, signum))
      ensures next == current.value.end
    {
      ghost var p := next;
      var n, intEnd, fracStart := ReadNumberDigits();
      var scale: nat := next - fracStart;
      NumberTokenParts(text, tokenStart, p, end, signum, intEnd, fracStart, next, n);
      EmitNumber(tokenStart, Decimal(signum, n, scale));
    }

    /** The digits of a number: the integer digits, then after a '.' the
        fraction digits. The value `n` accumulates every digit read; the
        scale is the number of digits after the point (the source keeps 10
        to that power as `divide`). */
    method ReadNumberDigits() returns (n: int, intEnd: int, fracStart: int)
      requires Valid() && next < end && IsDigit(text[next])
      modifies this`next
      ensures Valid()
      ensures intEnd == RunEnd(text, old(next), end, IsDigit)
      ensures || (intEnd < end && text[intEnd] == '.' && fracStart == intEnd + 1 && next == RunEnd(text, fracStart, end, IsDigit))
              || (!(intEnd < end && text[intEnd] == '.') && fracStart == next == intEnd)
      ensures n == DigitsFrom(DigitsFrom(0, text, old(next), intEnd), text, fracStart, next)
    {
      n := ReadDigits(0);
      intEnd := next;
      fracStart := next;
      if HasMoreChar() {
        var c := GetCurrentChar();
        if c == '.' {
          AdvanceOne();
          fracStart := next;
          n := ReadDigits(n);
        }
      }
    }

    /** One digit loop of ParseNumber: moves the cursor over the digit run
        at it, continuing the value n0 of the digits read before. */
    method ReadDigits(n0: int) returns (n: int)
      requires Valid()
      modifies this`next
      ensures Valid() && next == RunEnd(text, old(next), end, IsDigit)
      ensures n == DigitsFrom(n0, text, old(next), next)
    {
      ghost var p := next;
      n := n0;
      while HasMoreChar()
        invariant Valid() && p <= next && RunEnd(text, next, end, IsDigit) == RunEnd(text, p, end, IsDigit)
        invariant n == DigitsFrom(n0, text, p, next)
        decreases end - next
      {
        var c := GetCurrentChar();
        if IsDigit(c) {
          n := n * 10 + DigitValue(c);
          AdvanceOne();
        } else {
          break;
        }
      }
    }

    /** The end of ParseNumber once the digits are read: a Percentage, a
        Dimension or a Number token carrying `num`. */
    method EmitNumber(tokenStart: int, num: Decimal)
      requires Valid() && start <= tokenStart < next
      modifies this`next, this`current
      ensures Valid()
      ensures current == Some(NumberSuffix(text, tokenStart, old(next), end, num))
      ensures next == current.value.end
    {
      if HasMoreChar() {
        var c := GetCurrentChar();
        if c == '%' {
          AdvanceOne();
          var tokenEnd := GetCurrentOffset();
          current := Some(Token(Percentage, tokenStart, tokenEnd, GetText(tokenStart, tokenEnd), Numeric(num)));
          Flush(tokenEnd);
          return;
        }
        if IsLetter(c) {
          var unitStart := GetCurrentOffset();
          AdvanceOne();
          SkipLetters();
          var tokenEnd := GetCurrentOffset();
          current := Some(Token(Dimension, tokenStart, tokenEnd, GetText(tokenStart, tokenEnd),
                                NumericWithUnit(num, GetText(unitStart, tokenEnd))));
          Flush(tokenEnd);
          return;
        }
      }
      var tokenEnd := GetCurrentOffset();
      current := Some(Token(Number, tokenStart, tokenEnd, GetText(tokenStart, tokenEnd), Numeric(num)));
      Flush(tokenEnd);
    }

    /** Advances over the run of letters at the cursor. */
    method SkipLetters()
      requires Valid()
      modifies this`next
      ensures Valid()
      ensures next == RunEnd(text, old(next), end, IsLetter)
    {
      ghost var p := next;
      while HasMoreChar() && IsLetter(GetCurrentChar())
        invariant Valid() && p <= next
        invariant RunEnd(text, next, end, IsLetter) == RunEnd(text, p, end, IsLetter)
        decreases end - next
      {
        AdvanceOne();
      }
    }

    /** Reads a string body up to the delimiter and returns its value: the
        cursor ends where StringScan stops and the value is the text it
        delimits. */
    method ParseString(delimiter: char) returns (value: string)
      requires Valid()
      modifies this`next
      ensures Valid()
      ensures var r := StringScan(text, old(next), old(next), end, delimiter);
        value == text[r.valueStart..r.valueEnd] && next == r.stop
    {
      var s := GetCurrentOffset();
      var e := s;
      ghost var r := StringScan(text, s, s, end, delimiter);
      while HasMoreChar()
        invariant Valid() && s <= next && e == s
        invariant StringScan(text, s, next, end, delimiter) == r
        decreases end - next
      {
        var c := GetCurrentChar();
        if c == delimiter {
          e := GetCurrentOffset();
          assert r == Scan(s, e, e + 1);
          AdvanceOne();
          break;
        }
        if IsLineTerminator(c) {
          e := GetCurrentOffset();
          assert r == Scan(s, e, e);
          break;
        }
        if c == '\\' && HasMoreCharAt(1) {
          AdvanceOne();
        }
        AdvanceOne();
      }
      value := GetText(s, e);
    }

    /** Reads the rest of a URI after its opening parenthesis and sets the
        current token: the token of ParseRestOfURI(tokenStart, prefix). */
    method ParseRestOfURI(tokenStart: int, prefix: string)
      requires Valid() && start <= tokenStart < next
      modifies this`next, this`current
      ensures Valid()
      ensures current == Some(UriToken(text, tokenStart, old(next), end, prefix))
      ensures next == current.value.end
    {
      SwallowWhitespace(false);
      var value := ParseUriValue();
      FinishUri(tokenStart, prefix, value);
    }

    /** The end of ParseRestOfURI once the value is read: whitespace, the
        closing parenthesis if it is there, and the Uri token. */
    method FinishUri(tokenStart: int, prefix: string, value: string)
      requires Valid() && start <= tokenStart < next
      modifies this`next, this`current
      ensures Valid()
      ensures current == Some(UriTokenEnd(text, tokenStart, old(next), end, prefix, value))
      ensures next == current.value.end
    {
      SwallowWhitespace(false);
      if HasMoreChar() {
        var c := GetCurrentChar();
        if c == ')' {
          AdvanceOne();
        }
      }
      var tokenEnd := GetCurrentOffset();
      current := Some(NewUriToken(tokenStart, tokenEnd, GetText(tokenStart, tokenEnd), prefix, value));
    }

    /** The value part of ParseRestOfURI: a quoted string's value, or the
        bare run from the cursor up to whitespace or ')', its first
        character always taken; empty at the end of the input. */
    method ParseUriValue() returns (value: string)
      requires Valid()
      modifies this`next
      ensures Valid()
      ensures var v := UriValueScan(text, old(next), end);
        value == text[v.valueStart..v.valueEnd] && next == v.stop
    {
      value := "";
      if HasMoreChar() {
        var c := GetCurrentChar();
        if c == '"' || c == '\'' {
          AdvanceOne();
          value := ParseString(c);
        } else {
          value := ParseBareUriValue();
        }
      }
    }

    /** An unquoted URI value: its first character is always taken, then
        everything up to whitespace or ')'. */
    method ParseBareUriValue() returns (value: string)
      requires Valid() && next < end
      modifies this`next
      ensures Valid()
      ensures next == RunEnd(text, old(next) + 1, end, IsBareUriChar)
      ensures value == text[old(next)..next]
    {
      var valueStart := GetCurrentOffset();
      AdvanceOne();
      while HasMoreChar()
        invariant Valid() && valueStart < next
        invariant RunEnd(text, next, end, IsBareUriChar) == RunEnd(text, valueStart + 1, end, IsBareUriChar)
        decreases end - next
      {
        var c := GetCurrentChar();
        if IsWhitespace(c) || c == ')' {
          break;
        }
        AdvanceOne();
      }
      value := GetText(valueStart, GetCurrentOffset());
    }

    // -------------------------------------------------------------------
    // The branches of MoveNext, each proved to emit the token of the
    // LexerSpec function for its first character

    /** The common fall-through of MoveNext: one more character is taken
        and the token from tokenStart is an Operator. */
    method EmitOperator(tokenStart: int)
      requires Valid() && start <= tokenStart <= next < end
      modifies this`next, this`current
      ensures Valid()
      ensures current == Some(MakeToken(Operator, text, tokenStart, old(next) + 1))
      ensures next == current.value.end
    {
      AdvanceOne();
      var tokenEnd := GetCurrentOffset();
      current := Some(Token(Operator, tokenStart, tokenEnd, GetText(tokenStart, tokenEnd), Plain));
    }

    /** The '/' branch: a line comment, a block comment, or an Operator. */
    method LexSlash()
      requires Valid() && next < end && text[next] == '/'
      modifies this`next, this`current
      ensures Valid()
      ensures current == Some(SlashToken(text, old(next), end))
      ensures next == current.value.end
    {
      var tokenStart := GetCurrentOffset();
      if HasMoreCharAt(1) {
        var c2 := GetCharRelative(1);
        if c2 == '/' {
          LexLineComment();
          return;
        }
        if c2 == '*' {
          LexBlockComment();
          return;
        }
      }
      EmitOperator(tokenStart);
    }

    /** The "//" branch: a line comment up to the line terminator. */
    method LexLineComment()
      requires Valid() && next + 2 <= end
      modifies this`next, this`current
      ensures Valid()
      ensures current == Some(LineComment(text, old(next), end))
      ensures next == current.value.end
    {
      var tokenStart := GetCurrentOffset();
      Advance(2, false);

      var commentStart := GetCurrentOffset();
      while HasMoreChar()
        invariant Valid() && commentStart <= next
        invariant RunEnd(text, next, end, IsCommentChar) == RunEnd(text, commentStart, end, IsCommentChar)
        decreases end - next
      {
        var c2 := GetCurrentChar();
        if IsLineTerminator(c2) {
          break;
        }
        AdvanceOne();
      }

      var tokenEnd := GetCurrentOffset();
      current := Some(Token(Comment, tokenStart, tokenEnd, GetText(tokenStart, tokenEnd),
                            StringValue(GetText(commentStart, tokenEnd))));
    }

    /** The block-comment branch: the comment up to and including the
        closing marker, or to the end of the input. */
    method LexBlockComment()
      requires Valid() && next + 2 <= end
      modifies this`next, this`current
      ensures Valid()
      ensures current == Some(BlockComment(text, old(next), end))
      ensures next == current.value.end
    {
      var tokenStart := GetCurrentOffset();
      Advance(2, false);

      var commentStart := GetCurrentOffset();
      var commentEnd := commentStart;
      ghost var r := BlockCommentScan(text, commentStart, commentStart, end);
      while HasMoreChar()
        invariant Valid() && commentStart <= next && commentEnd == next
        invariant BlockCommentScan(text, commentStart, next, end) == r
        decreases end - next
      {
        var c2 := GetCurrentChar();
        if c2 == '*' && HasMoreCharAt(1) && GetCharRelative(1) == '/' {
          assert r == Scan(commentStart, commentEnd, commentEnd + 2);
          Advance(2, false);
          break;
        }
        commentEnd := commentEnd + 1;
        AdvanceOne();
      }
      assert r.valueStart == commentStart && r.valueEnd == commentEnd && r.stop == next;

      var tokenEnd := GetCurrentOffset();
      current := Some(Token(Comment, tokenStart, tokenEnd, GetText(tokenStart, tokenEnd),
                            StringValue(GetText(commentStart, commentEnd))));
      Flush(tokenEnd);
    }

    /** The '@' and '#' branches: an AtIdentifier or a HashName when an
        identifier or a name follows, else an Operator. */
    method LexPrefixedName()
      requires Valid() && next < end && (text[next] == '@' || text[next] == '#')
      modifies this`next, this`current
      ensures Valid()
      ensures current == Some(PrefixedNameToken(text, old(next), end))
      ensures next == current.value.end
    {
      var tokenStart := GetCurrentOffset();
      var c := GetCurrentChar();
      if c == '@' {
        var distance := LookOverIdentifier(text, next, end, 1);
        if distance > 0 {
          var tokenEnd := tokenStart + 1 + distance;
          current := Some(Token(AtIdentifier, tokenStart, tokenEnd, GetText(tokenStart, tokenEnd), Plain));
          AdvanceAndFlush(1 + distance);
          return;
        }
      } else {
        var distance := LookOverName(text, next, end, 1);
        if distance > 0 {
          var tokenEnd := tokenStart + 1 + distance;
          current := Some(Token(HashName, tokenStart, tokenEnd, GetText(tokenStart, tokenEnd), Plain));
          AdvanceAndFlush(1 + distance);
          return;
        }
      }
      EmitOperator(tokenStart);
    }

    /** The '-' branch: CDataClose, a negative number, a dashed Identifier,
        or an Operator. */
    method LexDash()
      requires Valid() && next < end && text[next] == '-'
      modifies this`next, this`current
      ensures Valid()
      ensures current == Some(DashToken(text, old(next), end))
      ensures next == current.value.end
    {
      var tokenStart := GetCurrentOffset();
      if HasMoreCharAt(2) && GetCharRelative(1) == '-' && GetCharRelative(2) == '>' {
        var tokenEnd := tokenStart + 3;
        current := Some(Token(CDataClose, tokenStart, tokenEnd, GetText(tokenStart, tokenEnd), Plain));
        AdvanceAndFlush(3);
      } else if HasMoreCharAt(1) && IsDigit(GetCharRelative(1)) {
        AdvanceOne();
        ParseNumber(tokenStart, -1);
      } else {
        LexDashName();
      }
    }

    /** A '-' that starts neither "-->" nor a number: an Identifier when a
        name follows it, else a one-character Operator. */
    method LexDashName()
      requires Valid() && next < end
      modifies this`next, this`current
      ensures Valid()
      ensures current == Some(DashNameToken(text, old(next), end))
      ensures next == current.value.end
    {
      var tokenStart := GetCurrentOffset();
      if HasMoreCharAt(1) {
        var distance := LookOverName(text, next, end, 1);
        if distance > 0 {
          var tokenEnd := tokenStart + 1 + distance;
          current := Some(Token(Identifier, tokenStart, tokenEnd, GetText(tokenStart, tokenEnd), Plain));
          AdvanceAndFlush(1 + distance);
          return;
        }
      }
      EmitOperator(tokenStart);
    }

    /** The name-start branch: a unicode range, or a name. */
    method LexName()
      requires Valid() && next < end && IsNameStartChar(text[next])
      modifies this`next, this`current
      ensures Valid()
      ensures current == Some(NameToken(text, old(next), end))
      ensures next == current.value.end
    {
      var c := GetCurrentChar();
      if c == 'u' && HasMoreCharAt(1) && GetCharRelative(1) == '+' {
        var unicodeCodeDistance := LookOverUnicodeCode(text, next, end, 2);
        if unicodeCodeDistance > 0 {
          LexUnicodeRange();
          return;
        }
      }
      LexNamed();
    }

    /** "u+" and hex digits: the first run of at most six hex digits, and a
        second one after '-'. */
    method LexUnicodeRange()
      requires Valid() && next + 2 < end && LookOverUnicodeCode(text, next, end, 2) > 0
      modifies this`next, this`current
      ensures Valid()
      ensures current == Some(UnicodeRangeToken(text, old(next), end))
      ensures next == current.value.end
    {
      var tokenStart := GetCurrentOffset();
      var unicodeCodeDistance := LookOverUnicodeCode(text, next, end, 2);
      var tokenEnd := tokenStart + 2 + unicodeCodeDistance;
      Advance(2 + unicodeCodeDistance, false);

      if HasMoreChar() && GetCurrentChar() == '-' {
        var unicodeCodeDistance2 := LookOverUnicodeCode(text, next, end, 1);
        if unicodeCodeDistance2 > 0 {
          tokenEnd := tokenEnd + 1 + unicodeCodeDistance2;
          Advance(1 + unicodeCodeDistance2, false);
        }
      }

      assert tokenEnd == UnicodeRangeEnd(text, tokenStart, end);
      current := Some(Token(UnicodeRange, tokenStart, tokenEnd, GetText(tokenStart, tokenEnd), Plain));
      Flush(tokenEnd);
    }

    /** A name: a Uri, a Function or an Identifier. */
    method LexNamed()
      requires Valid() && next < end && IsNameStartChar(text[next])
      modifies this`next, this`current
      ensures Valid()
      ensures current == Some(NamedToken(text, old(next), end))
      ensures next == current.value.end
    {
      var tokenStart := GetCurrentOffset();
      var distance := LookOverName(text, next, end, 0);
      assert LookOverNameChar(text, next, end, 0) > 0;
      var tokenEnd := tokenStart + distance;

      var name := GetText(tokenStart, tokenEnd);

      if HasMoreCharAt(distance) && GetCharRelative(distance) == '(' {
        Advance(distance + 1, false);
        LexCall(tokenStart, name);
        return;
      }

      current := Some(Token(Identifier, tokenStart, tokenEnd, GetText(tokenStart, tokenEnd), Plain));
      AdvanceAndFlush(distance);
    }

    /** A name followed by '(', with the cursor after the parenthesis: the
        rest of a URI for "uri" and "url", else a Function token. */
    method LexCall(tokenStart: int, name: string)
      requires Valid() && start <= tokenStart && 0 < |name| && tokenStart + |name| + 1 == next
      requires name == text[tokenStart..next - 1]
      modifies this`next, this`current
      ensures Valid()
      ensures current == Some(CallToken(text, tokenStart, old(next) - 1, end))
      ensures next == current.value.end
    {
      if IsUriName(name) {
        ParseRestOfURI(tokenStart, name);
        return;
      }
      var tokenEnd := GetCurrentOffset();
      current := Some(Token(Function, tokenStart, tokenEnd, GetText(tokenStart, tokenEnd), Plain));
    }

    /** The '$' branch with more input: "${name}", "$letters", or a
        one-character Operator. */
    method LexVariable()
      requires Valid() && next + 1 < end && text[next] == '$'
      modifies this`next, this`current
      ensures Valid()
      ensures current == Some(DollarToken(text, old(next), end))
      ensures next == current.value.end
    {
      var tokenStart := GetCurrentOffset();
      var c2 := GetCharRelative(1);
      if c2 == '{' {
        LexBracedVariable();
      } else if IsLetter(c2) {
        LexLetterVariable();
      } else {
        EmitOperator(tokenStart);
      }
    }

    /** "${": the name runs up to the first '}', which the token includes. */
    method LexBracedVariable()
      requires Valid() && next + 2 <= end
      modifies this`next, this`current
      ensures Valid()
      ensures current == Some(BracedVariable(text, old(next), end))
      ensures next == current.value.end
    {
      var tokenStart := GetCurrentOffset();
      var nameStart := tokenStart + 2;
      var nameEnd := nameStart;
      var distance := 2;
      ghost var r := BraceScan(text, nameStart, nameStart, end);
      while HasMoreCharAt(distance)
        invariant next == tokenStart && 2 <= distance && tokenStart + distance <= end
        invariant nameEnd == tokenStart + distance
        invariant BraceScan(text, nameStart, tokenStart + distance, end) == r
        decreases end - distance
      {
        var c := GetCharRelative(distance);
        if c == '}' {
          assert r == Scan(nameStart, nameEnd, nameEnd + 1);
          distance := distance + 1;
          break;
        }
        nameEnd := nameEnd + 1;
        distance := distance + 1;
      }
      assert r.valueStart == nameStart && r.valueEnd == nameEnd && r.stop == tokenStart + distance;
      var tokenEnd := tokenStart + distance;
      current := Some(Token(Variable, tokenStart, tokenEnd, GetText(tokenStart, tokenEnd),
                            StringValue(GetText(nameStart, nameEnd))));
      AdvanceAndFlush(distance);
    }

    /** '$' and a letter: the name is the run of letters. */
    method LexLetterVariable()
      requires Valid() && next + 1 < end
      modifies this`next, this`current
      ensures Valid()
      ensures current == Some(LetterVariable(text, old(next), end))
      ensures next == current.value.end
    {
      var tokenStart := GetCurrentOffset();
      var nameStart := tokenStart + 1;
      var distance := 1;
      while HasMoreCharAt(distance)
        invariant next == tokenStart && 1 <= distance
        invariant tokenStart + distance <= end
        invariant RunEnd(text, tokenStart + distance, end, IsLetter) == RunEnd(text, tokenStart + 1, end, IsLetter)
        decreases end - distance
      {
        var c := GetCharRelative(distance);
        if IsLetter(c) {
          distance := distance + 1;
        } else {
          break;
        }
      }
      var tokenEnd := tokenStart + distance;
      current := Some(Token(Variable, tokenStart, tokenEnd, GetText(tokenStart, tokenEnd),
                            StringValue(GetText(nameStart, tokenEnd))));
      AdvanceAndFlush(distance);
    }

    /** The quote branch: a String token whose value ParseString reads. */
    method LexString()
      requires Valid() && next < end && (text[next] == '"' || text[next] == '\'')
      modifies this`next, this`current
      ensures Valid()
      ensures current == Some(StringToken(text, old(next), end))
      ensures next == current.value.end
    {
      var tokenStart := GetCurrentOffset();
      var c := GetCurrentChar();
      AdvanceOne();
      var value := ParseString(c);
      var tokenEnd := GetCurrentOffset();
      current := Some(Token(String, tokenStart, tokenEnd, GetText(tokenStart, tokenEnd), StringValue(value)));
    }

    // -------------------------------------------------------------------
    // MoveNext

    /** Reads the next token: false with no current token at the end of the
        range; otherwise true, the current token is the one Lex describes
        at the old cursor, and the cursor has moved to its end. */
    method MoveNext() returns (more: bool)
      requires Valid()
      modifies this`next, this`current
      ensures Valid()
      ensures current == NextToken(text, old(next), end)
      ensures more <==> current.Some?
      ensures more ==> next == current.value.end
      ensures !more ==> next == old(next)
    {
      current := None;
      if !HasMoreChar() {
        return false;
      }
      MoveNextAt();
      return true;
    }

    /** The branches of MoveNext with a character at the cursor: the token
        Lex describes there. */
    method MoveNextAt()
      requires Valid() && next < end
      modifies this`next, this`current
      ensures Valid()
      ensures current == Some(Lex(text, old(next), end))
      ensures next == current.value.end
    {
      var tokenStart := GetCurrentOffset();
      var c := GetCurrentChar();

      if IsWhitespace(c) {
        var distance := LookOverWhitespace(text, next, end, tokenStart);
        var tokenEnd := tokenStart + distance;
        current := Some(Token(Whitespace, tokenStart, tokenEnd, GetText(tokenStart, tokenEnd), Plain));
        AdvanceAndFlush(distance);
      } else if IsDigit(c) {
        ParseNumber(tokenStart, 1);
      } else if IsDelimiter(c) {
        var tokenEnd := tokenStart + 1;
        current := Some(Token(Delimiter, tokenStart, tokenEnd, GetText(tokenStart, tokenEnd), Plain));
        AdvanceOne();
      } else if c == '~' || c == '|' {
        if HasMoreCharAt(1) && GetCharRelative(1) == '=' {
          AdvanceOne();
        }
        EmitOperator(tokenStart);
      } else if c == '/' {
        LexSlash();
      } else if c == '@' || c == '#' {
        LexPrefixedName();
      } else {
        MoveNextRest();
      }
    }

    /** The branches of MoveNext after '@' and '#': the token LexRest
        describes at the cursor. */
    method MoveNextRest()
      requires Valid() && next < end
      modifies this`next, this`current
      ensures Valid()
      ensures current == Some(LexRest(text, old(next), end))
      ensures next == current.value.end
    {
      var tokenStart := GetCurrentOffset();
      var c := GetCurrentChar();
      if c == '<' && HasMoreCharAt(3) && GetCharRelative(1) == '!' && GetCharRelative(2) == '-' && GetCharRelative(3) == '-' {
        var tokenEnd := tokenStart + 4;
        current := Some(Token(CDataOpen, tokenStart, tokenEnd, GetText(tokenStart, tokenEnd), Plain));
        AdvanceAndFlush(4);
      } else if c == '-' {
        LexDash();
      } else if IsNameStartChar(c) {
        LexName();
      } else if c == '"' || c == '\'' {
        LexString();
      } else if c == '$' && HasMoreCharAt(1) {
        LexVariable();
      } else {
        EmitOperator(tokenStart);
      }
    }

    /** Calls MoveNext until it returns false, collecting each current
        token: the result is Tokenize from the cursor, after which the
        cursor is at the end and no token is current. */
    method ReadAll() returns (ts: seq<Token>)
      requires Valid()
      modifies this`next, this`current
      ensures Valid()
      ensures ts == Tokenize(text, old(next), end)
      ensures next == end && current == None
    {
      ts := [];
      while true
        invariant Valid()
        invariant ts + Tokenize(text, next, end) == Tokenize(text, old(next), end)
        decreases end - next
      {
        ghost var p := next;
        var more := MoveNext();
        if !more {
          break;
        }
        TokenizeStep(text, p, end);
        AppendAssociative(ts, [current.value], Tokenize(text, next, end));
        ts := ts + [current.value];
      }
    }

    /** Reset and read everything, twice: both runs give the same tokens,
        those of the whole range, whatever the cursor was before. */
    method ReadTwiceFromStart() returns (first: seq<Token>, second: seq<Token>)
      requires Valid()
      modifies this`next, this`current
      ensures first == second == Tokenize(text, start, end)
    {
      Reset();
      first := ReadAll();
      Reset();
      second := ReadAll();
    }
  }

  /** Regrouping the tokens ReadAll has collected; stated once, as asserting
      it inline makes the verifier unfold Tokenize. */
  lemma AppendAssociative<T>(a: seq<T>, b: seq<T>, c: seq<T>)
    ensures (a + b) + c == a + (b + c)
  {
  }
}
