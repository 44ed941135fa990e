// The tokenizer engine as pure functions. Lex is the token that MoveNext
// builds when the cursor stands at `pos`, one function per branch of its
// dispatch; Tokenize is the sequence of tokens a tokenizer yields from `pos`
// to `end`. The class in string_tokenizer.dfy is proved against them.

module LexerSpec {
  import opened CharClass
  import opened TokenKinds
  import opened Tokens
  import opened Lookahead

  /** Where a scan of a delimited value ended: the value is
      text[valueStart..valueEnd] and the cursor stops at `stop`. */
  datatype Scan = Scan(valueStart: int, valueEnd: int, stop: int)

  /** A token with no payload over text[s..e), as `new Token(kind, s, e,
      GetText(s, e))` builds it. */
  function MakeToken(kind: TokenKind, text: string, s: int, e: int): Token
    requires 0 <= s <= e <= |text|
  {
    Token(kind, s, e, text[s..e], Plain)
  }

  /** The record class the engine builds for each kind: NumericToken for
      Number and Percentage, NumericWithUnitToken for Dimension,
      StringValueToken for Comment, String and Variable, UriToken for Uri
      and the base Token for every other kind. */
  predicate PayloadFits(t: Token)
  {
    match t.kind
    case Number | Percentage => t.payload.Numeric?
    case Dimension => t.payload.NumericWithUnit?
    case Comment | String | Variable => t.payload.StringValue?
    case Uri => t.payload.UriValue?
    case _ => t.payload.Plain?
  }

  /** A token as one MoveNext call emits it at `pos`: it starts at the
      cursor, ends strictly after it and no later than `end`, its text is
      the source span, its record class fits its kind, and its kind is
      neither Invalid nor Color. */
  predicate Emitted(t: Token, text: string, pos: int, end: int)
  {
    && 0 <= pos < t.end <= end <= |text|
    && t.start == pos
    && t.text == text[pos..t.end]
    && PayloadFits(t)
    && t.kind != Invalid && t.kind != Color
  }

  // ---------------------------------------------------------------------
  // Numbers (ParseNumber)

/** The loop `n = n * 10 + (c - '0')` run from the value n0 over the
      characters text[a..b], most significant first. */
  function DigitsFrom(n0: int, text: string, a: int, b: int): int
    requires 0 <= a <= b <= |text|
    decreases b - a
  {
    if b == a then n0 else 10 * DigitsFrom(n0, text, a, b - 1) + DigitValue(text[b - 1])
  }

  /** The value of a number whose integer digits are text[p..intEnd] and
      whose fraction digits are text[fracStart..fracEnd]: one accumulator
      runs over both, and the scale is the number of fraction digits. */
  function NumberValue(text: string, p: int, intEnd: int, fracStart: int, fracEnd: int, signum: int): Decimal
    requires 0 <= p <= intEnd <= fracStart <= fracEnd <= |text|
  {
    Decimal(signum, DigitsFrom(DigitsFrom(0, text, p, intEnd), text, fracStart, fracEnd), fracEnd - fracStart)
  }

  /** ParseNumber(pos, signum) with the cursor on the first digit at p: the
      integer digits, then an optional '.' and the fraction digits, and
      what follows them as NumberSuffix reads it. */
  function NumberToken(text: string, pos: int, p: int, end: int, signum: int): (t: Token)
    requires 0 <= pos <= p < end <= |text| && IsDigit(text[p])
    ensures t.kind == Number || t.kind == Percentage || t.kind == Dimension
  {
    var intEnd := RunEnd(text, p, end, IsDigit);
    var dot := intEnd < end && CharAt(text, end, intEnd) == '.';
    var fracStart := if dot then intEnd + 1 else intEnd;
    var fracEnd := if dot then RunEnd(text, fracStart, end, IsDigit) else intEnd;
    NumberSuffix(text, pos, fracEnd, end, NumberValue(text, p, intEnd, fracStart, fracEnd, signum))
  }

  /** NumberToken read off the positions where its digit runs end: the
      integer run ends at intEnd; a '.' there starts the fraction run at
      fracStart, which ends at fracEnd; without a '.' both are intEnd. */
  lemma NumberTokenParts(text: string, pos: int, p: int, end: int, signum: int, intEnd: int, fracStart: int, fracEnd: int, n: int)
    requires 0 <= pos <= p < end <= |text| && IsDigit(text[p])
    requires intEnd == RunEnd(text, p, end, IsDigit)
    requires || (intEnd < end && text[intEnd] == '.' && fracStart == intEnd + 1 && fracEnd == RunEnd(text, fracStart, end, IsDigit))
             || (!(intEnd < end && text[intEnd] == '.') && fracStart == fracEnd == intEnd)
    requires fracStart <= fracEnd <= end
    requires n == DigitsFrom(DigitsFrom(0, text, p, intEnd), text, fracStart, fracEnd)
    ensures pos < fracEnd
    ensures NumberToken(text, pos, p, end, signum) == NumberSuffix(text, pos, fracEnd, end, Decimal(signum, n, fracEnd - fracStart))
  {
  }

  /** The end of ParseNumber, with the digits read up to q: '%' gives a
      Percentage, a letter run a Dimension whose unit is that run, and
      anything else a Number ending at q. */
  function NumberSuffix(text: string, pos: int, q: int, end: int, number: Decimal): (t: Token)
    requires 0 <= pos < q <= end <= |text|
    ensures t.kind == Number || t.kind == Percentage || t.kind == Dimension
  {
    if q < end && CharAt(text, end, q) == '%' then
      Token(Percentage, pos, q + 1, text[pos..q + 1], Numeric(number))
    else if q < end && IsLetter(CharAt(text, end, q)) then
      var unitEnd := RunEnd(text, q + 1, end, IsLetter);
      Token(Dimension, pos, unitEnd, text[pos..unitEnd], NumericWithUnit(number, text[q..unitEnd]))
    else
      Token(Number, pos, q, text[pos..q], Numeric(number))
  }

  // ---------------------------------------------------------------------
  // Strings and URIs (ParseString, ParseRestOfURI)

  /** ParseString from position i, the value having begun at valueStart: it
      stops after the delimiter, or before a line terminator, and a
      backslash with more input after it skips the next character. At the
      end of the input the value is empty. */
  function StringScan(text: string, valueStart: int, i: int, end: int, delimiter: char): (r: Scan)
    requires 0 <= valueStart <= i <= end <= |text|
    ensures r.valueStart == valueStart
    ensures valueStart <= r.valueEnd <= r.stop <= end && i <= r.stop
    ensures || (r.stop == r.valueEnd + 1 && text[r.valueEnd] == delimiter)
            || (r.stop == r.valueEnd < end && IsLineTerminator(text[r.valueEnd]))
            || (r.valueEnd == valueStart && r.stop == end)
    decreases end - i
  {
    if i == end then Scan(valueStart, valueStart, end)
    else
      var c := CharAt(text, end, i);
      if c == delimiter then Scan(valueStart, i, i + 1)
      else if IsLineTerminator(c) then Scan(valueStart, i, i)
      else if c == '\\' && i + 1 < end then StringScan(text, valueStart, i + 2, end, delimiter)
      else StringScan(text, valueStart, i + 1, end, delimiter)
  }

  /** The token for a quote at pos: a String whose value is the scanned
      text after the opening quote. */
  function StringToken(text: string, pos: int, end: int): (t: Token)
    requires 0 <= pos < end <= |text| && (text[pos] == '"' || text[pos] == '\'')
  {
    var r := StringScan(text, pos + 1, pos + 1, end, text[pos]);
    Token(String, pos, r.stop, text[pos..r.stop], StringValue(text[r.valueStart..r.valueEnd]))
  }

  /** A character of an unquoted URI value. */
  predicate IsBareUriChar(c: char)
  {
    !IsWhitespace(c) && c != ')'
  }

  /** The value of a URI at position a (after the whitespace following the
      parenthesis): nothing at the end of the input, a quoted string, or a
      bare run up to whitespace or ')' whose first character is always
      taken. */
  function UriValueScan(text: string, a: int, end: int): (r: Scan)
    requires 0 <= a <= end <= |text|
    ensures a <= r.valueStart <= r.valueEnd <= r.stop <= end
  {
    if a == end then Scan(a, a, a)
    else
      var c := CharAt(text, end, a);
      if c == '"' || c == '\'' then StringScan(text, a + 1, a + 1, end, c)
      else
        var e := RunEnd(text, a + 1, end, IsBareUriChar);
        Scan(a, e, e)
  }

  /** ParseRestOfURI(pos, prefix) with the cursor at p, just after the
      opening parenthesis: whitespace, the value, whitespace, and the
      closing parenthesis if it is there. */
  function UriToken(text: string, pos: int, p: int, end: int, prefix: string): (t: Token)
    requires 0 <= pos < p <= end <= |text|
  {
    var a := RunEnd(text, p, end, IsWhitespace);
    var v := UriValueScan(text, a, end);
    UriTokenEnd(text, pos, v.stop, end, prefix, text[v.valueStart..v.valueEnd])
  }

  /** The end of a URI once its value is read up to q: whitespace and the
      closing parenthesis if it is there. */
  function UriTokenEnd(text: string, pos: int, q: int, end: int, prefix: string, value: string): (t: Token)
    requires 0 <= pos < q <= end <= |text|
  {
    var b := RunEnd(text, q, end, IsWhitespace);
    var e := if b < end && CharAt(text, end, b) == ')' then b + 1 else b;
    NewUriToken(pos, e, text[pos..e], prefix, value)
  }

  // ---------------------------------------------------------------------
  // Comments

  /** A character a line comment runs over. */
  predicate IsCommentChar(c: char)
  {
    !IsLineTerminator(c)
  }

  /** A "//" comment at pos: it runs to the line terminator or the end; its
      value is what follows the two slashes. */
  function LineComment(text: string, pos: int, end: int): (t: Token)
    requires 0 <= pos && pos + 2 <= end <= |text|
  {
    var e := RunEnd(text, pos + 2, end, IsCommentChar);
    Token(Comment, pos, e, text[pos..e], StringValue(text[pos + 2..e]))
  }

  /** The body of a block comment from position i: the value ends before the
      first closing marker and the cursor stops after it, or both stop at
      end. */
  function BlockCommentScan(text: string, valueStart: int, i: int, end: int): (r: Scan)
    requires 0 <= valueStart <= i <= end <= |text|
    ensures r.valueStart == valueStart && i <= r.valueEnd <= r.stop <= end
    ensures || (r.stop == r.valueEnd + 2 && text[r.valueEnd] == '*' && text[r.valueEnd + 1] == '/')
            || (r.valueEnd == r.stop == end)
    decreases end - i
  {
    if i == end then Scan(valueStart, end, end)
    else if CharAt(text, end, i) == '*' && i + 1 < end && CharAt(text, end, i + 1) == '/' then Scan(valueStart, i, i + 2)
    else BlockCommentScan(text, valueStart, i + 1, end)
  }

  /** A block comment at pos: the value lies between the markers; the token
      ends after the closing marker, or at the end of the input. */
  function BlockComment(text: string, pos: int, end: int): (t: Token)
    requires 0 <= pos && pos + 2 <= end <= |text|
  {
    var r := BlockCommentScan(text, pos + 2, pos + 2, end);
    Token(Comment, pos, r.stop, text[pos..r.stop], StringValue(text[r.valueStart..r.valueEnd]))
  }

  /** A '/' at pos: a line comment, a block comment or a one-character
      Operator. */
  function SlashToken(text: string, pos: int, end: int): (t: Token)
    requires 0 <= pos < end <= |text| && text[pos] == '/'
    ensures t.kind == Comment || t.kind == Operator
  {
    if pos + 1 < end then
      var c2 := CharAt(text, end, pos + 1);
      if c2 == '/' then LineComment(text, pos, end)
      else if c2 == '*' then BlockComment(text, pos, end)
      else MakeToken(Operator, text, pos, pos + 1)
    else MakeToken(Operator, text, pos, pos + 1)
  }

  // ---------------------------------------------------------------------
  // Variables

  /** The body of "${...}" from position i: the name ends before the first
      '}' and the cursor stops after it, or both stop at end. */
  function BraceScan(text: string, valueStart: int, i: int, end: int): (r: Scan)
    requires 0 <= valueStart <= i <= end <= |text|
    ensures r.valueStart == valueStart && i <= r.valueEnd <= r.stop <= end
    ensures || (r.stop == r.valueEnd + 1 && text[r.valueEnd] == '}')
            || (r.valueEnd == r.stop == end)
    decreases end - i
  {
    if i == end then Scan(valueStart, end, end)
    else if CharAt(text, end, i) == '}' then Scan(valueStart, i, i + 1)
    else BraceScan(text, valueStart, i + 1, end)
  }

  /** A '$' at pos with more input: "${name}" and "$letters" give a
      Variable whose value is the name; anything else a one-character
      Operator. */
  function DollarToken(text: string, pos: int, end: int): (t: Token)
    requires 0 <= pos && pos + 1 < end <= |text| && text[pos] == '$'
    ensures t.kind == Variable || t.kind == Operator
  {
    var c2 := CharAt(text, end, pos + 1);
    if c2 == '{' then BracedVariable(text, pos, end)
    else if IsLetter(c2) then LetterVariable(text, pos, end)
    else MakeToken(Operator, text, pos, pos + 1)
  }

  /** "${" at pos: the name runs to the first '}', and the token ends after
      it, or at the end of the input. */
  function BracedVariable(text: string, pos: int, end: int): (t: Token)
    requires 0 <= pos && pos + 2 <= end <= |text|
  {
    var r := BraceScan(text, pos + 2, pos + 2, end);
    Token(Variable, pos, r.stop, text[pos..r.stop], StringValue(text[r.valueStart..r.valueEnd]))
  }

  /** '$' and a letter at pos: the name is the run of letters after '$'. */
  function LetterVariable(text: string, pos: int, end: int): (t: Token)
    requires 0 <= pos && pos + 1 < end <= |text|
  {
    var e := RunEnd(text, pos + 1, end, IsLetter);
    Token(Variable, pos, e, text[pos..e], StringValue(text[pos + 1..e]))
  }

  // ---------------------------------------------------------------------
  // Names

  /** "u+" and at least one hex digit at pos: the first hex run, and a
      second one after '-' when that has at least one hex digit. */
  function UnicodeRangeToken(text: string, pos: int, end: int): (t: Token)
    requires 0 <= pos && pos + 2 < end <= |text| && LookOverUnicodeCode(text, pos, end, 2) > 0
  {
    MakeToken(UnicodeRange, text, pos, UnicodeRangeEnd(text, pos, end))
  }

  /** Where a unicode range at pos ends: after the first hex run, and after
      '-' and the second one when that has at least one hex digit. */
  function UnicodeRangeEnd(text: string, pos: int, end: int): (e: int)
    requires 0 <= pos && pos + 2 < end <= |text| && LookOverUnicodeCode(text, pos, end, 2) > 0
    ensures pos + 2 < e <= end
  {
    var p := pos + 2 + LookOverUnicodeCode(text, pos, end, 2);
    var d2 := if p < end && CharAt(text, end, p) == '-' then LookOverUnicodeCode(text, p, end, 1) else 0;
    if d2 > 0 then p + 1 + d2 else p
  }

  /** The two names that start a URI rather than a Function. */
  predicate IsUriName(name: string)
  {
    name == "uri" || name == "url"
  }

  /** "u+" followed by a hex digit at pos. */
  predicate IsUnicodeRangeAt(text: string, pos: int, end: int)
    requires 0 <= pos < end <= |text|
  {
    text[pos] == 'u' && pos + 1 < end && CharAt(text, end, pos + 1) == '+' && LookOverUnicodeCode(text, pos, end, 2) > 0
  }

  /** A name-start character at pos: a unicode range after "u+" and a hex
      digit, otherwise a name as NamedToken reads it. */
  function NameToken(text: string, pos: int, end: int): (t: Token)
    requires 0 <= pos < end <= |text| && IsNameStartChar(text[pos])
    ensures t.kind in {UnicodeRange, Uri, Function, Identifier}
  {
    if IsUnicodeRangeAt(text, pos, end) then UnicodeRangeToken(text, pos, end)
    else NamedToken(text, pos, end)
  }

  /** The name at pos; followed by '(' it is a Uri for exactly "uri" and
      "url", a Function including the parenthesis for any other name, and
      without '(' an Identifier. */
  function NamedToken(text: string, pos: int, end: int): (t: Token)
    requires 0 <= pos < end <= |text| && IsNameStartChar(text[pos])
    ensures t.kind in {Uri, Function, Identifier}
  {
    var d := LookOverName(text, pos, end, 0);
    assert LookOverNameChar(text, pos, end, 0) > 0;
    if pos + d < end && CharAt(text, end, pos + d) == '(' then CallToken(text, pos, pos + d, end)
    else MakeToken(Identifier, text, pos, pos + d)
  }

  /** The name text[pos..p] followed by '(' at p: a Uri for exactly "uri"
      and "url", otherwise a Function including the parenthesis. */
  function CallToken(text: string, pos: int, p: int, end: int): (t: Token)
    requires 0 <= pos < p < end <= |text|
    ensures t.kind == Uri || t.kind == Function
  {
    var name := text[pos..p];
    if IsUriName(name) then UriToken(text, pos, p + 1, end, name)
    else MakeToken(Function, text, pos, p + 1)
  }

  /** A '-' at pos: "-->" gives CDataClose, a digit after it a negative
      number, a name after it an Identifier including the dash, and
      anything else a one-character Operator. */
  function DashToken(text: string, pos: int, end: int): (t: Token)
    requires 0 <= pos < end <= |text| && text[pos] == '-'
    ensures t.kind in {CDataClose, Number, Percentage, Dimension, Identifier, Operator}
  {
    if pos + 2 < end && CharAt(text, end, pos + 1) == '-' && CharAt(text, end, pos + 2) == '>' then
      MakeToken(CDataClose, text, pos, pos + 3)
    else if pos + 1 < end && IsDigit(CharAt(text, end, pos + 1)) then
      NumberToken(text, pos, pos + 1, end, -1)
    else DashNameToken(text, pos, end)
  }

  /** A '-' at pos followed by a name: an Identifier including the dash;
      otherwise a one-character Operator. */
  function DashNameToken(text: string, pos: int, end: int): (t: Token)
    requires 0 <= pos < end <= |text|
    ensures t.kind == Identifier || t.kind == Operator
  {
    if pos + 1 < end && LookOverName(text, pos, end, 1) > 0 then
      MakeToken(Identifier, text, pos, pos + 1 + LookOverName(text, pos, end, 1))
    else MakeToken(Operator, text, pos, pos + 1)
  }

  /** '@' or '#' at pos: AtIdentifier when an identifier follows, HashName
      when a name follows, else a one-character Operator. */
  function PrefixedNameToken(text: string, pos: int, end: int): (t: Token)
    requires 0 <= pos < end <= |text| && (text[pos] == '@' || text[pos] == '#')
    ensures t.kind in {AtIdentifier, HashName, Operator}
  {
    var d := if text[pos] == '@' then LookOverIdentifier(text, pos, end, 1) else LookOverName(text, pos, end, 1);
    if d > 0 then MakeToken(if text[pos] == '@' then AtIdentifier else HashName, text, pos, pos + 1 + d)
    else MakeToken(Operator, text, pos, pos + 1)
  }

  // ---------------------------------------------------------------------
  // The dispatch

  /** "<!--" at pos. */
  predicate IsCDataOpenAt(text: string, pos: int, end: int)
    requires 0 <= pos < end <= |text|
  {
    pos + 3 < end && CharAt(text, end, pos + 1) == '!' && CharAt(text, end, pos + 2) == '-' && CharAt(text, end, pos + 3) == '-'
  }

  /** The token MoveNext emits with the cursor at pos < end, the branches
      tried in the engine's order; every fall-through gives a
      one-character Operator, and "~=" / "|=" a two-character one. */
  function Lex(text: string, pos: int, end: int): (t: Token)
    requires 0 <= pos < end <= |text|
    ensures Emitted(t, text, pos, end)
  {
    var c := CharAt(text, end, pos);
    if IsWhitespace(c) then MakeToken(Whitespace, text, pos, pos + LookOverWhitespace(text, pos, end, pos))
    else if IsDigit(c) then NumberTokenEmitted(text, pos, pos, end, 1); NumberToken(text, pos, pos, end, 1)
    else if IsDelimiter(c) then MakeToken(Delimiter, text, pos, pos + 1)
    else if c == '~' || c == '|' then
      if pos + 1 < end && CharAt(text, end, pos + 1) == '=' then MakeToken(Operator, text, pos, pos + 2)
      else MakeToken(Operator, text, pos, pos + 1)
    else if c == '/' then SlashTokenEmitted(text, pos, end); SlashToken(text, pos, end)
    else if c == '@' || c == '#' then PrefixedNameToken(text, pos, end)
    else LexRest(text, pos, end)
  }

  /** The branches MoveNext tries after '@' and '#', in order. */
  function LexRest(text: string, pos: int, end: int): (t: Token)
    requires 0 <= pos < end <= |text|
    ensures Emitted(t, text, pos, end)
  {
    var c := CharAt(text, end, pos);
    if c == '<' && IsCDataOpenAt(text, pos, end) then MakeToken(CDataOpen, text, pos, pos + 4)
    else if c == '-' then DashTokenEmitted(text, pos, end); DashToken(text, pos, end)
    else if IsNameStartChar(c) then NameTokenEmitted(text, pos, end); NameToken(text, pos, end)
    else if c == '"' || c == '\'' then StringTokenEmitted(text, pos, end); StringToken(text, pos, end)
    else if c == '$' && pos + 1 < end then DollarTokenEmitted(text, pos, end); DollarToken(text, pos, end)
    else MakeToken(Operator, text, pos, pos + 1)
  }

  // ---------------------------------------------------------------------
  // Every branch emits a token as MoveNext does (Emitted)

  lemma NumberSuffixEmitted(text: string, pos: int, q: int, end: int, number: Decimal)
    requires 0 <= pos < q <= end <= |text|
    ensures Emitted(NumberSuffix(text, pos, q, end, number), text, pos, end)
  {
  }

  lemma NumberTokenEmitted(text: string, pos: int, p: int, end: int, signum: int)
    requires 0 <= pos <= p < end <= |text| && IsDigit(text[p])
    ensures Emitted(NumberToken(text, pos, p, end, signum), text, pos, end)
  {
    var intEnd := RunEnd(text, p, end, IsDigit);
    var dot := intEnd < end && CharAt(text, end, intEnd) == '.';
    var fracStart := if dot then intEnd + 1 else intEnd;
    var fracEnd := if dot then RunEnd(text, fracStart, end, IsDigit) else intEnd;
    NumberSuffixEmitted(text, pos, fracEnd, end, NumberValue(text, p, intEnd, fracStart, fracEnd, signum));
  }

  lemma StringTokenEmitted(text: string, pos: int, end: int)
    requires 0 <= pos < end <= |text| && (text[pos] == '"' || text[pos] == '\'')
    ensures Emitted(StringToken(text, pos, end), text, pos, end)
  {
  }

  lemma UriTokenEmitted(text: string, pos: int, p: int, end: int, prefix: string)
    requires 0 <= pos < p <= end <= |text|
    ensures Emitted(UriToken(text, pos, p, end, prefix), text, pos, end)
  {
  }

  lemma SlashTokenEmitted(text: string, pos: int, end: int)
    requires 0 <= pos < end <= |text| && text[pos] == '/'
    ensures Emitted(SlashToken(text, pos, end), text, pos, end)
  {
  }

  lemma DollarTokenEmitted(text: string, pos: int, end: int)
    requires 0 <= pos && pos + 1 < end <= |text| && text[pos] == '$'
    ensures Emitted(DollarToken(text, pos, end), text, pos, end)
  {
  }

  lemma NamedTokenEmitted(text: string, pos: int, end: int)
    requires 0 <= pos < end <= |text| && IsNameStartChar(text[pos])
    ensures Emitted(NamedToken(text, pos, end), text, pos, end)
  {
    var d := LookOverName(text, pos, end, 0);
    if pos + d < end && CharAt(text, end, pos + d) == '(' && IsUriName(text[pos..pos + d]) {
      UriTokenEmitted(text, pos, pos + d + 1, end, text[pos..pos + d]);
    }
  }

  lemma NameTokenEmitted(text: string, pos: int, end: int)
    requires 0 <= pos < end <= |text| && IsNameStartChar(text[pos])
    ensures Emitted(NameToken(text, pos, end), text, pos, end)
  {
    if !IsUnicodeRangeAt(text, pos, end) {
      NamedTokenEmitted(text, pos, end);
    }
  }

  lemma DashTokenEmitted(text: string, pos: int, end: int)
    requires 0 <= pos < end <= |text| && text[pos] == '-'
    ensures Emitted(DashToken(text, pos, end), text, pos, end)
  {
    if pos + 1 < end && IsDigit(text[pos + 1]) {
      NumberTokenEmitted(text, pos, pos + 1, end, -1);
    }
  }

  /** What one MoveNext call produces from pos: no token exactly at the end
      of the input, otherwise the token Lex describes. */
  function NextToken(text: string, pos: int, end: int): (r: Option<Token>)
    requires 0 <= pos <= end <= |text|
    ensures r.None? <==> pos == end
    ensures r.Some? ==> Emitted(r.value, text, pos, end)
  {
    if pos < end then Some(Lex(text, pos, end)) else None
  }

  // ---------------------------------------------------------------------
  // Whole runs

  /** ts are emitted one after another from pos, each starting where the
      previous one ended, and together reach exactly end. */
  predicate Tiles(ts: seq<Token>, text: string, pos: int, end: int)
    decreases |ts|
  {
    if |ts| == 0 then pos == end
    else Emitted(ts[0], text, pos, end) && Tiles(ts[1..], text, ts[0].end, end)
  }

  /** The tokens a tokenizer yields with its cursor at pos: MoveNext is
      called until it returns false. There are at most end - pos of them,
      since each one consumes at least one character. */
  function Tokenize(text: string, pos: int, end: int): (ts: seq<Token>)
    requires 0 <= pos <= end <= |text|
    ensures |ts| <= end - pos
    decreases end - pos
  {
    if pos == end then []
    else
      var t := Lex(text, pos, end);
      [t] + Tokenize(text, t.end, end)
  }

  /** Tokenize from pos is the token NextToken gives there followed by
      Tokenize from that token's end. */
  lemma TokenizeStep(text: string, pos: int, end: int)
    requires 0 <= pos < end <= |text|
    ensures NextToken(text, pos, end).Some?
    ensures Tokenize(text, pos, end) == [NextToken(text, pos, end).value] + Tokenize(text, NextToken(text, pos, end).value.end, end)
  {
  }

  /** The tokens of Tokenize tile the range: each is emitted where the
      previous one ended, and the last one ends at end. */
  lemma {:induction false} TokenizeTiles(text: string, pos: int, end: int)
    requires 0 <= pos <= end <= |text|
    ensures Tiles(Tokenize(text, pos, end), text, pos, end)
    decreases end - pos
  {
    if pos < end {
      var t := Lex(text, pos, end);
      TokenizeTiles(text, t.end, end);
      assert Tokenize(text, pos, end)[1..] == Tokenize(text, t.end, end);
    }
  }

  /** The texts of ts, concatenated. */
  function Texts(ts: seq<Token>): string
  {
    if |ts| == 0 then "" else ts[0].text + Texts(ts[1..])
  }
}
