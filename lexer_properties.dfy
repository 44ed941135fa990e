// What the tokenizer engine promises, stated about LexerSpec: the tokens of
// a run tile the input and reproduce it, the dispatch of MoveNext tries its
// branches in the engine's order, and each kind of token carries the value
// its branch reads.

module LexerProperties {
  import opened CharClass
  import opened TokenKinds
  import opened Tokens
  import opened Lookahead
  import opened LexerSpec

  // ---------------------------------------------------------------------
  // Whole runs

  /** Tiling tokens reproduce the input they cover, and none of them is
      Invalid or Color or empty. */
  lemma {:induction false} TilesCoverText(ts: seq<Token>, text: string, pos: int, end: int)
    requires 0 <= pos <= end <= |text|
    requires Tiles(ts, text, pos, end)
    ensures Texts(ts) == text[pos..end]
    ensures forall k | 0 <= k < |ts| :: ts[k].start < ts[k].end && ts[k].kind != Invalid && ts[k].kind != Color
    decreases |ts|
  {
    if |ts| > 0 {
      var t := ts[0];
      TilesCoverText(ts[1..], text, t.end, end);
      assert text[pos..t.end] + text[t.end..end] == text[pos..end];
      forall k | 0 < k < |ts|
        ensures ts[k].start < ts[k].end && ts[k].kind != Invalid && ts[k].kind != Color
      {
        assert ts[k] == ts[1..][k - 1];
      }
    }
  }

  /** Concatenating the text of every token of a run reproduces the tokenized
      range of the input, and the engine never emits Invalid or Color. */
  lemma TokenizeCoversText(text: string, pos: int, end: int)
    requires 0 <= pos <= end <= |text|
    ensures Texts(Tokenize(text, pos, end)) == text[pos..end]
    ensures forall t | t in Tokenize(text, pos, end) :: t.kind != Invalid && t.kind != Color
  {
    TokenizeTiles(text, pos, end);
    TilesCoverText(Tokenize(text, pos, end), text, pos, end);
  }

  /** A run of delimiters is tokenized one Delimiter per character. */
  lemma {:induction false} DelimiterRunTokens(text: string, pos: int, end: int)
    requires 0 <= pos <= end <= |text|
    requires forall k | pos <= k < end :: IsDelimiter(text[k])
    ensures var ts := Tokenize(text, pos, end);
      && |ts| == end - pos
      && forall k | 0 <= k < |ts| :: ts[k] == MakeToken(Delimiter, text, pos + k, pos + k + 1)
    decreases end - pos
  {
    if pos < end {
      DelimiterIsOneChar(text, pos, end);
      DelimiterRunTokens(text, pos + 1, end);
      var ts := Tokenize(text, pos, end);
      assert ts == [MakeToken(Delimiter, text, pos, pos + 1)] + Tokenize(text, pos + 1, end);
      forall k | 0 < k < |ts|
        ensures ts[k] == MakeToken(Delimiter, text, pos + k, pos + k + 1)
      {
        assert ts[k] == Tokenize(text, pos + 1, end)[k - 1];
      }
    }
  }

  // ---------------------------------------------------------------------
  // The dispatch, branch by branch

  /** A whitespace character starts one Whitespace token over the maximal
      whitespace run. */
  lemma WhitespaceIsMaximalRun(text: string, pos: int, end: int)
    requires 0 <= pos < end <= |text| && IsWhitespace(text[pos])
    ensures var t := Lex(text, pos, end);
      && t.kind == Whitespace
      && (forall k | pos <= k < t.end :: IsWhitespace(text[k]))
      && (t.end == end || !IsWhitespace(text[t.end]))
  {
    RunEndIsMaximal(text, pos, end, IsWhitespace);
  }

  /** Each of "{}()[]:;," is a one-character Delimiter. */
  lemma DelimiterIsOneChar(text: string, pos: int, end: int)
    requires 0 <= pos < end <= |text| && text[pos] in "{}()[]:;,"
    ensures Lex(text, pos, end) == MakeToken(Delimiter, text, pos, pos + 1)
  {
  }

  /** "~=" and "|=" are two-character Operators; '~' and '|' alone are
      one-character ones. */
  lemma MatchOperators(text: string, pos: int, end: int)
    requires 0 <= pos < end <= |text| && (text[pos] == '~' || text[pos] == '|')
    ensures var t := Lex(text, pos, end);
      && t.kind == Operator
      && (t.end == pos + 2 <==> pos + 1 < end && text[pos + 1] == '=')
      && (t.end == pos + 1 <==> !(pos + 1 < end && text[pos + 1] == '='))
  {
  }

  /** "<!--" is CDataOpen. */
  lemma CDataOpenToken(text: string, pos: int, end: int)
    requires 0 <= pos && pos + 4 <= end <= |text| && text[pos..pos + 4] == "<!--"
    ensures Lex(text, pos, end) == MakeToken(CDataOpen, text, pos, pos + 4)
  {
    assert text[pos] == '<' && text[pos + 1] == '!' && text[pos + 2] == '-' && text[pos + 3] == '-';
  }

  /** "-->" is CDataClose: it is tried before a negative number and before
      an identifier starting with a dash. */
  lemma CDataCloseToken(text: string, pos: int, end: int)
    requires 0 <= pos && pos + 3 <= end <= |text| && text[pos..pos + 3] == "-->"
    ensures Lex(text, pos, end) == MakeToken(CDataClose, text, pos, pos + 3)
  {
    assert text[pos] == '-' && text[pos + 1] == '-' && text[pos + 2] == '>';
  }

  /** '-' and a digit: the number that starts at the digit, with the dash in
      its text and its value negated. */
  lemma NegativeNumber(text: string, pos: int, end: int)
    requires 0 <= pos && pos + 1 < end <= |text| && text[pos] == '-' && IsDigit(text[pos + 1])
    ensures var neg := Lex(text, pos, end);
      var posv := Lex(text, pos + 1, end);
      && neg.kind == posv.kind && neg.start == pos && neg.end == posv.end
      && neg.text == ['-'] + posv.text
      && posv.payload.number.signum == 1
      && neg.payload.number == posv.payload.number.(signum := -1)
  {
    LexAtDashDigit(text, pos, end);
    assert Lex(text, pos + 1, end) == NumberToken(text, pos + 1, pos + 1, end, 1);
    SignedNumberTokens(text, pos, end);
  }

  /** A dash and a digit go to ParseNumber with the sign -1. */
  lemma LexAtDashDigit(text: string, pos: int, end: int)
    requires 0 <= pos && pos + 1 < end <= |text| && text[pos] == '-' && IsDigit(text[pos + 1])
    ensures Lex(text, pos, end) == NumberToken(text, pos, pos + 1, end, -1)
  {
    assert Lex(text, pos, end) == LexRest(text, pos, end);
  }

  /** The number read from the digit at pos + 1 with the sign -1 and a
      dash before it, and the one read from there with the sign 1, differ
      only in the sign and the dash. */
  lemma SignedNumberTokens(text: string, pos: int, end: int)
    requires 0 <= pos && pos + 1 < end <= |text| && IsDigit(text[pos + 1])
    ensures var neg := NumberToken(text, pos, pos + 1, end, -1);
      var posv := NumberToken(text, pos + 1, pos + 1, end, 1);
      && neg.kind == posv.kind && neg.end == posv.end
      && neg.text == [text[pos]] + posv.text
      && posv.payload.number.signum == 1
      && neg.payload.number == posv.payload.number.(signum := -1)
  {
    var t := NumberToken(text, pos + 1, pos + 1, end, 1);
    assert text[pos..t.end] == [text[pos]] + text[pos + 1..t.end];
  }

  /** '-' followed by a name that is not "->" or a digit: an Identifier
      including the dash. */
  lemma DashIdentifier(text: string, pos: int, end: int)
    requires 0 <= pos && pos + 1 < end <= |text| && text[pos] == '-' && !IsDigit(text[pos + 1])
    requires !(pos + 2 < end && text[pos + 1] == '-' && text[pos + 2] == '>')
    requires LookOverName(text, pos, end, 1) > 0
    ensures Lex(text, pos, end) == MakeToken(Identifier, text, pos, pos + 1 + LookOverName(text, pos, end, 1))
  {
    assert Lex(text, pos, end) == DashToken(text, pos, end);
  }

  /** '@' followed by an identifier is an AtIdentifier over both. */
  lemma AtIdentifierToken(text: string, pos: int, end: int)
    requires 0 <= pos < end <= |text| && text[pos] == '@' && LookOverIdentifier(text, pos, end, 1) > 0
    ensures Lex(text, pos, end) == MakeToken(AtIdentifier, text, pos, pos + 1 + LookOverIdentifier(text, pos, end, 1))
  {
  }

  /** '#' followed by a name is a HashName over both. */
  lemma HashNameToken(text: string, pos: int, end: int)
    requires 0 <= pos < end <= |text| && text[pos] == '#' && LookOverName(text, pos, end, 1) > 0
    ensures Lex(text, pos, end) == MakeToken(HashName, text, pos, pos + 1 + LookOverName(text, pos, end, 1))
  {
  }

  /** A character that starts no other branch is a one-character Operator;
      '.' and a backslash are such characters. */
  lemma FallbackOperator(text: string, pos: int, end: int)
    requires 0 <= pos < end <= |text|
    requires var c := text[pos];
      && !IsWhitespace(c) && !IsDigit(c) && !IsDelimiter(c) && !IsNameStartChar(c)
      && c !in "~|/@#<-\"'$"
    ensures Lex(text, pos, end) == MakeToken(Operator, text, pos, pos + 1)
  {
  }

  lemma DotAndBackslashAreOperators(text: string, pos: int, end: int)
    requires 0 <= pos < end <= |text| && (text[pos] == '.' || text[pos] == '\\')
    ensures Lex(text, pos, end) == MakeToken(Operator, text, pos, pos + 1)
  {
    FallbackOperator(text, pos, end);
  }

  /** "u+" and a hex digit: a UnicodeRange over the first hex run and an
      optional '-' and second hex run. */
  lemma UnicodeRangeTokenAt(text: string, pos: int, end: int)
    requires 0 <= pos && pos + 2 < end <= |text| && text[pos] == 'u' && text[pos + 1] == '+' && IsHexDigit(text[pos + 2])
    ensures Lex(text, pos, end) == MakeToken(UnicodeRange, text, pos, UnicodeRangeEnd(text, pos, end))
  {
    assert LookOverUnicodeCode(text, pos, end, 2) > 0;
    assert Lex(text, pos, end) == NameToken(text, pos, end);
  }

  /** A name without escapes: a run of name characters that stops at end or
      at a character that is neither a name character nor a backslash is
      read whole. */
  lemma {:induction false} PlainNameRun(text: string, i: int, j: int, end: int)
    requires 0 <= i <= j <= end <= |text|
    requires forall k | i <= k < j :: IsNameChar(text[k])
    requires j == end || (!IsNameChar(text[j]) && text[j] != '\\')
    ensures NameRun(text, i, end) == j - i
    decreases j - i
  {
    if i < j {
      assert NameStep(text, i, end, false) == 1;
      PlainNameRun(text, i + 1, j, end);
    } else {
      assert NameStep(text, i, end, false) == 0;
    }
  }

  /** The name-start branch for a name of length d at pos that is not a
      unicode range. */
  lemma NamedAt(text: string, pos: int, end: int)
    requires 0 <= pos < end <= |text| && IsNameStartChar(text[pos]) && !IsWhitespace(text[pos])
    requires !IsUnicodeRangeAt(text, pos, end)
    ensures Lex(text, pos, end) == NamedToken(text, pos, end)
  {
    NameStartCharFacts(text[pos]);
    assert Lex(text, pos, end) == LexRest(text, pos, end);
  }

  /** A name followed by '(' is a Function including the parenthesis,
      unless the name is exactly "uri" or "url". */
  lemma FunctionToken(text: string, pos: int, end: int)
    requires 0 <= pos < end <= |text| && IsNameStartChar(text[pos]) && !IsWhitespace(text[pos])
    requires !IsUnicodeRangeAt(text, pos, end)
    requires var d := LookOverName(text, pos, end, 0);
      pos + d < end && text[pos + d] == '(' && !IsUriName(text[pos..pos + d])
    ensures var d := LookOverName(text, pos, end, 0);
      Lex(text, pos, end) == MakeToken(Function, text, pos, pos + d + 1)
  {
    NamedAt(text, pos, end);
  }

  /** A name not followed by '(' is an Identifier. */
  lemma IdentifierToken(text: string, pos: int, end: int)
    requires 0 <= pos < end <= |text| && IsNameStartChar(text[pos]) && !IsWhitespace(text[pos])
    requires !IsUnicodeRangeAt(text, pos, end)
    requires var d := LookOverName(text, pos, end, 0);
      !(pos + d < end && text[pos + d] == '(')
    ensures Lex(text, pos, end) == MakeToken(Identifier, text, pos, pos + LookOverName(text, pos, end, 0))
  {
    NamedAt(text, pos, end);
  }

  /** A Uri token is emitted only for the names "uri" and "url" followed by
      '(', and its prefix is that name. */
  lemma UriOnlyForUriUrl(text: string, pos: int, end: int)
    requires 0 <= pos < end <= |text|
    ensures var t := Lex(text, pos, end);
      t.kind == Uri ==>
        && pos + 4 <= end && (text[pos..pos + 4] == "uri(" || text[pos..pos + 4] == "url(")
        && t.payload.prefix == text[pos..pos + 3]
  {
    var c := text[pos];
    NameStartCharFacts(c);
    if IsWhitespace(c) || IsDigit(c) || IsDelimiter(c) || c == '~' || c == '|' || c == '/' || c == '@' || c == '#' {
    } else if c == '<' || c == '-' || c == '"' || c == '\'' || c == '$' || !IsNameStartChar(c) {
      assert Lex(text, pos, end) == LexRest(text, pos, end);
    } else if !IsUnicodeRangeAt(text, pos, end) {
      NamedAt(text, pos, end);
      var d := LookOverName(text, pos, end, 0);
      if pos + d < end && text[pos + d] == '(' {
        CallTokenUri(text, pos, pos + d, end);
      }
    }
  }

  /** A name followed by '(' gives a Uri only for "uri(" and "url(". */
  lemma CallTokenUri(text: string, pos: int, p: int, end: int)
    requires 0 <= pos < p < end <= |text| && text[p] == '('
    ensures var t := CallToken(text, pos, p, end);
      t.kind == Uri ==>
        && p == pos + 3 && (text[pos..pos + 4] == "uri(" || text[pos..pos + 4] == "url(")
        && t.payload.prefix == text[pos..pos + 3]
  {
    if IsUriName(text[pos..p]) {
      assert p == pos + 3;
      UriOpenChars(text, pos, end);
    }
  }

  /** "uri(" and "url(" at pos, character by character. */
  lemma UriOpenChars(text: string, pos: int, end: int)
    requires 0 <= pos && pos + 4 <= end <= |text|
    ensures (text[pos..pos + 4] == "uri(" || text[pos..pos + 4] == "url(") <==>
      && text[pos] == 'u' && text[pos + 1] == 'r' && (text[pos + 2] == 'i' || text[pos + 2] == 'l')
      && text[pos + 3] == '('
    ensures IsUriName(text[pos..pos + 3]) <==>
      text[pos] == 'u' && text[pos + 1] == 'r' && (text[pos + 2] == 'i' || text[pos + 2] == 'l')
  {
    assert text[pos..pos + 4] == [text[pos], text[pos + 1], text[pos + 2], text[pos + 3]];
    assert text[pos..pos + 3] == [text[pos], text[pos + 1], text[pos + 2]];
  }

  /** "uri(" and "url(" start a Uri whose prefix is the name. */
  lemma UriNamesGiveUri(text: string, pos: int, end: int)
    requires 0 <= pos && pos + 4 <= end <= |text| && (text[pos..pos + 4] == "uri(" || text[pos..pos + 4] == "url(")
    ensures Lex(text, pos, end).kind == Uri
    ensures Lex(text, pos, end) == UriToken(text, pos, pos + 4, end, text[pos..pos + 3])
  {
    UriNameLength(text, pos, end);
    NamedAt(text, pos, end);
    assert NamedToken(text, pos, end) == CallToken(text, pos, pos + 3, end);
  }

  /** "uri(" and "url(": a name of three characters, not a unicode range,
      followed by the parenthesis. */
  lemma UriNameLength(text: string, pos: int, end: int)
    requires 0 <= pos && pos + 4 <= end <= |text| && (text[pos..pos + 4] == "uri(" || text[pos..pos + 4] == "url(")
    ensures text[pos] == 'u' && IsNameStartChar(text[pos]) && !IsWhitespace(text[pos]) && !IsUnicodeRangeAt(text, pos, end)
    ensures LookOverName(text, pos, end, 0) == 3 && text[pos + 3] == '(' && IsUriName(text[pos..pos + 3])
  {
    UriOpenChars(text, pos, end);
    assert NameRun(text, pos + 3, end) == 0;
    assert NameRun(text, pos + 2, end) == 1;
    assert NameRun(text, pos + 1, end) == 2;
  }

  // ---------------------------------------------------------------------
  // Strings and URIs

  /** A string scan over characters that are neither the delimiter nor a
      line terminator runs to the end with an empty value. */
  lemma {:induction false} UnterminatedScanIsEmpty(text: string, valueStart: int, i: int, end: int, delimiter: char)
    requires 0 <= valueStart <= i <= end <= |text|
    requires forall k | i <= k < end :: text[k] != delimiter && !IsLineTerminator(text[k])
    ensures StringScan(text, valueStart, i, end, delimiter) == Scan(valueStart, valueStart, end)
    decreases end - i
  {
    if i < end {
      if text[i] == '\\' && i + 1 < end {
        UnterminatedScanIsEmpty(text, valueStart, i + 2, end, delimiter);
      } else {
        UnterminatedScanIsEmpty(text, valueStart, i + 1, end, delimiter);
      }
    }
  }

  /** A string that is not closed before the end of the input (and meets no
      line terminator) has an empty value and runs to the end. */
  lemma UnterminatedStringIsEmpty(text: string, pos: int, end: int)
    requires 0 <= pos < end <= |text| && (text[pos] == '"' || text[pos] == '\'')
    requires forall k | pos < k < end :: text[k] != text[pos] && !IsLineTerminator(text[k])
    ensures var t := Lex(text, pos, end);
      t.kind == String && t.end == end && t.payload.unquoted == ""
  {
    UnterminatedScanIsEmpty(text, pos + 1, pos + 1, end, text[pos]);
    LexAtQuote(text, pos, end);
  }

  /** A quote at pos goes to ParseString. */
  lemma LexAtQuote(text: string, pos: int, end: int)
    requires 0 <= pos < end <= |text| && (text[pos] == '"' || text[pos] == '\'')
    ensures Lex(text, pos, end) == StringToken(text, pos, end)
  {
    assert Lex(text, pos, end) == LexRest(text, pos, end);
  }

  /** A string scan over plain characters (no backslash, delimiter or line
      terminator) that meets the delimiter at j gives the value up to j and
      stops after it. */
  lemma {:induction false} ClosedScan(text: string, valueStart: int, i: int, j: int, end: int, delimiter: char)
    requires 0 <= valueStart <= i <= j < end <= |text| && text[j] == delimiter
    requires forall k | i <= k < j :: text[k] != delimiter && text[k] != '\\' && !IsLineTerminator(text[k])
    ensures StringScan(text, valueStart, i, end, delimiter) == Scan(valueStart, j, j + 1)
    decreases j - i
  {
    if i < j {
      ClosedScan(text, valueStart, i + 1, j, end, delimiter);
    }
  }

  /** A closed string without escapes: its value is the text between the
      quotes, which the token's text surrounds. */
  lemma QuotedStringValue(text: string, pos: int, j: int, end: int)
    requires 0 <= pos < j < end <= |text| && (text[pos] == '"' || text[pos] == '\'') && text[j] == text[pos]
    requires forall k | pos < k < j :: text[k] != text[pos] && text[k] != '\\' && !IsLineTerminator(text[k])
    ensures var t := Lex(text, pos, end);
      && t.kind == String && t.end == j + 1
      && t.payload.unquoted == text[pos + 1..j]
      && t.text == [text[pos]] + t.payload.unquoted + [text[pos]]
  {
    LexAtQuote(text, pos, end);
    ClosedStringToken(text, pos, j, end);
  }

  /** QuotedStringValue stated about StringToken. */
  lemma ClosedStringToken(text: string, pos: int, j: int, end: int)
    requires 0 <= pos < j < end <= |text| && (text[pos] == '"' || text[pos] == '\'') && text[j] == text[pos]
    requires forall k | pos < k < j :: text[k] != text[pos] && text[k] != '\\' && !IsLineTerminator(text[k])
    ensures var t := StringToken(text, pos, end);
      && t.kind == String && t.end == j + 1
      && t.payload.unquoted == text[pos + 1..j]
      && t.text == [text[pos]] + t.payload.unquoted + [text[pos]]
  {
    ClosedScan(text, pos + 1, pos + 1, j, end, text[pos]);
    assert text[pos..j + 1] == [text[pos]] + text[pos + 1..j] + [text[j]];
  }

  /** Every closed string, escapes included: when the scan stops right
      after a closing quote, the value is the text between the quotes and
      the token's text is the value with both quotes around it. */
  lemma ClosedStringValue(text: string, pos: int, end: int)
    requires 0 <= pos < end <= |text| && (text[pos] == '"' || text[pos] == '\'')
    requires var r := StringScan(text, pos + 1, pos + 1, end, text[pos]);
      r.stop == r.valueEnd + 1 && text[r.valueEnd] == text[pos]
    ensures var t := Lex(text, pos, end);
      && t.kind == String && pos + 2 <= t.end
      && t.payload.unquoted == text[pos + 1..t.end - 1]
      && t.text == [text[pos]] + t.payload.unquoted + [text[pos]]
  {
    LexAtQuote(text, pos, end);
    var r := StringScan(text, pos + 1, pos + 1, end, text[pos]);
    assert text[pos..r.stop] == [text[pos]] + text[pos + 1..r.valueEnd] + [text[r.valueEnd]];
  }

  /** A backslash inside a string takes the next character with it, so an
      escaped delimiter does not close the string. */
  lemma BackslashSkipsNext(text: string, valueStart: int, i: int, end: int, delimiter: char)
    requires 0 <= valueStart <= i && i + 1 < end <= |text| && text[i] == '\\' && delimiter != '\\'
    ensures StringScan(text, valueStart, i, end, delimiter) == StringScan(text, valueStart, i + 2, end, delimiter)
  {
  }

  /** "url()" followed by the end, whitespace or ')': the first character
      after the parenthesis is always taken, so the value is ")". */
  lemma EmptyUrlValue(text: string, pos: int, end: int)
    requires 0 <= pos && pos + 5 <= end <= |text| && text[pos..pos + 4] == "url(" && text[pos + 4] == ')'
    requires pos + 5 == end || !IsBareUriChar(text[pos + 5])
    ensures var t := Lex(text, pos, end);
      t.kind == Uri && t.payload.unquoted == ")"
  {
    UriNamesGiveUri(text, pos, end);
    EmptyUriValue(text, pos, pos + 4, end, text[pos..pos + 3]);
  }

  /** "uri(" or "url(" and a bare value up to ')': the value is the text
      between the parentheses and the token ends after the ')'. */
  lemma BareUrlValue(text: string, pos: int, j: int, end: int)
    requires 0 <= pos && pos + 4 < j < end <= |text| && (text[pos..pos + 4] == "uri(" || text[pos..pos + 4] == "url(")
    requires !IsWhitespace(text[pos + 4]) && text[pos + 4] != '"' && text[pos + 4] != '\''
    requires forall k | pos + 4 < k < j :: IsBareUriChar(text[k])
    requires text[j] == ')'
    ensures var t := Lex(text, pos, end);
      t.kind == Uri && t.end == j + 1 && t.payload.unquoted == text[pos + 4..j]
  {
    UriNamesGiveUri(text, pos, end);
    BareUriValue(text, pos, pos + 4, j, end, text[pos..pos + 3]);
  }

  /** BareUrlValue stated about UriToken. */
  lemma BareUriValue(text: string, pos: int, p: int, j: int, end: int, prefix: string)
    requires 0 <= pos < p < j < end <= |text|
    requires !IsWhitespace(text[p]) && text[p] != '"' && text[p] != '\''
    requires forall k | p < k < j :: IsBareUriChar(text[k])
    requires text[j] == ')'
    ensures var t := UriToken(text, pos, p, end, prefix);
      t.end == j + 1 && t.payload.unquoted == text[p..j]
  {
    assert RunEnd(text, p, end, IsWhitespace) == p;
    RunEndUnique(text, p + 1, end, IsBareUriChar, j);
    assert RunEnd(text, j, end, IsWhitespace) == j;
  }

  /** "uri(" or "url(" and a quoted value without escapes right before
      ')': the value is the text between the quotes and the token ends
      after the ')'. */
  lemma QuotedUrlValue(text: string, pos: int, j: int, end: int)
    requires 0 <= pos && pos + 4 < j && j + 1 < end <= |text| && (text[pos..pos + 4] == "uri(" || text[pos..pos + 4] == "url(")
    requires (text[pos + 4] == '"' || text[pos + 4] == '\'') && text[j] == text[pos + 4]
    requires forall k | pos + 4 < k < j :: text[k] != text[pos + 4] && text[k] != '\\' && !IsLineTerminator(text[k])
    requires text[j + 1] == ')'
    ensures var t := Lex(text, pos, end);
      t.kind == Uri && t.end == j + 2 && t.payload.unquoted == text[pos + 5..j]
  {
    UriNamesGiveUri(text, pos, end);
    QuotedUriValue(text, pos, pos + 4, j, end, text[pos..pos + 3]);
  }

  /** QuotedUrlValue stated about UriToken. */
  lemma QuotedUriValue(text: string, pos: int, p: int, j: int, end: int, prefix: string)
    requires 0 <= pos < p < j && j + 1 < end <= |text|
    requires (text[p] == '"' || text[p] == '\'') && text[j] == text[p]
    requires forall k | p < k < j :: text[k] != text[p] && text[k] != '\\' && !IsLineTerminator(text[k])
    requires text[j + 1] == ')'
    ensures var t := UriToken(text, pos, p, end, prefix);
      t.end == j + 2 && t.payload.unquoted == text[p + 1..j]
  {
    assert RunEnd(text, p, end, IsWhitespace) == p;
    ClosedScan(text, p + 1, p + 1, j, end, text[p]);
    assert RunEnd(text, j + 1, end, IsWhitespace) == j + 1;
  }

  /** Every quoted URI value, escapes included: when the string right
      after "uri(" or "url(" is closed, the value is the text between the
      quotes, and the token runs at least to the closing quote. */
  lemma ClosedUrlValue(text: string, pos: int, end: int)
    requires 0 <= pos && pos + 4 < end <= |text| && (text[pos..pos + 4] == "uri(" || text[pos..pos + 4] == "url(")
    requires text[pos + 4] == '"' || text[pos + 4] == '\''
    requires var r := StringScan(text, pos + 5, pos + 5, end, text[pos + 4]);
      r.stop == r.valueEnd + 1 && text[r.valueEnd] == text[pos + 4]
    ensures var t := Lex(text, pos, end);
      var r := StringScan(text, pos + 5, pos + 5, end, text[pos + 4]);
      && t.kind == Uri && r.stop <= t.end
      && t.payload.unquoted == text[pos + 5..r.valueEnd]
  {
    UriNamesGiveUri(text, pos, end);
    QuotedUriScan(text, pos, pos + 4, end, text[pos..pos + 3]);
  }

  /** ClosedUrlValue stated about UriToken: a quote right after the
      parenthesis makes the value the string scanned after it. */
  lemma QuotedUriScan(text: string, pos: int, p: int, end: int, prefix: string)
    requires 0 <= pos < p < end <= |text| && (text[p] == '"' || text[p] == '\'')
    ensures var t := UriToken(text, pos, p, end, prefix);
      var r := StringScan(text, p + 1, p + 1, end, text[p]);
      r.stop <= t.end && t.payload.unquoted == text[p + 1..r.valueEnd]
  {
    assert RunEnd(text, p, end, IsWhitespace) == p;
  }

  /** EmptyUrlValue stated about UriToken: ')' right after the parenthesis
      is taken as the first character of a bare value. */
  lemma EmptyUriValue(text: string, pos: int, p: int, end: int, prefix: string)
    requires 0 <= pos < p < end <= |text| && text[p] == ')'
    requires p + 1 == end || !IsBareUriChar(text[p + 1])
    ensures UriToken(text, pos, p, end, prefix).payload.unquoted == ")"
  {
    assert RunEnd(text, p, end, IsWhitespace) == p;
    assert RunEnd(text, p + 1, end, IsBareUriChar) == p + 1;
  }

  // ---------------------------------------------------------------------
  // Comments

  /** "//" starts a Comment whose value is the rest of the line, without the
      slashes and without the line terminator; its clean text is that value
      as a block comment. */
  lemma LineCommentValue(text: string, pos: int, end: int)
    requires 0 <= pos && pos + 2 <= end <= |text| && text[pos] == '/' && text[pos + 1] == '/'
    ensures var t := Lex(text, pos, end);
      && t.kind == Comment
      && t.payload.unquoted == text[pos + 2..t.end]
      && (forall k | pos + 2 <= k < t.end :: !IsLineTerminator(text[k]))
      && (t.end == end || IsLineTerminator(text[t.end]))
      && GetCleanText(t) == "/*" + text[pos + 2..t.end] + "*/"
  {
    assert Lex(text, pos, end) == LineComment(text, pos, end);
    RunEndIsMaximal(text, pos + 2, end, IsCommentChar);
  }

  /** The clean text of a "//" comment is not its text: it starts with a
      slash and a star where the text has two slashes. */
  lemma LineCommentCleanDiffers(text: string, pos: int, end: int)
    requires 0 <= pos && pos + 2 <= end <= |text| && text[pos] == '/' && text[pos + 1] == '/'
    ensures var t := Lex(text, pos, end);
      GetCleanText(t) != t.text
  {
    LineCommentValue(text, pos, end);
    var t := Lex(text, pos, end);
    assert t.text[1] == '/';
    assert GetCleanText(t)[1] == '*';
  }

  /** A block comment scan stops at the first closing marker: with no "*"
      followed by "/" before j, it stops at the one at j. */
  lemma {:induction false} ClosedBlockScan(text: string, valueStart: int, i: int, j: int, end: int)
    requires 0 <= valueStart <= i <= j && j + 2 <= end <= |text| && text[j] == '*' && text[j + 1] == '/'
    requires forall k | i <= k < j :: !(text[k] == '*' && text[k + 1] == '/')
    ensures BlockCommentScan(text, valueStart, i, end) == Scan(valueStart, j, j + 2)
    decreases j - i
  {
    if i < j {
      ClosedBlockScan(text, valueStart, i + 1, j, end);
    }
  }

  /** The value of a block comment holds no closing marker: the scan stops
      at the first one. */
  lemma {:induction false} BlockScanFirstClose(text: string, valueStart: int, i: int, end: int)
    requires 0 <= valueStart <= i <= end <= |text|
    ensures var r := BlockCommentScan(text, valueStart, i, end);
      forall k | i <= k < r.valueEnd && k + 1 < end :: !(text[k] == '*' && text[k + 1] == '/')
    decreases end - i
  {
    if i < end && !(text[i] == '*' && i + 1 < end && text[i + 1] == '/') {
      BlockScanFirstClose(text, valueStart, i + 1, end);
    }
  }

  /** A slash and a star start a Comment whose value lies between the
      markers; the clean text of a closed block comment is its text, and an
      unclosed one gets the closing marker added. */
  lemma BlockCommentValue(text: string, pos: int, end: int)
    requires 0 <= pos && pos + 2 <= end <= |text| && text[pos] == '/' && text[pos + 1] == '*'
    ensures var t := Lex(text, pos, end);
      var r := BlockCommentScan(text, pos + 2, pos + 2, end);
      && t.kind == Comment && t.end == r.stop
      && t.payload.unquoted == text[pos + 2..r.valueEnd]
      && (r.stop == r.valueEnd + 2 ==> GetCleanText(t) == t.text)
      && (r.stop == end == r.valueEnd ==> GetCleanText(t) == t.text + "*/")
  {
    assert Lex(text, pos, end) == BlockComment(text, pos, end);
    BlockCommentClean(text, pos, end);
  }

  /** BlockCommentValue stated about BlockComment. */
  lemma BlockCommentClean(text: string, pos: int, end: int)
    requires 0 <= pos && pos + 2 <= end <= |text| && text[pos] == '/' && text[pos + 1] == '*'
    ensures var t := BlockComment(text, pos, end);
      var r := BlockCommentScan(text, pos + 2, pos + 2, end);
      && t.kind == Comment && t.end == r.stop
      && t.payload.unquoted == text[pos + 2..r.valueEnd]
      && (r.stop == r.valueEnd + 2 ==> GetCleanText(t) == t.text)
      && (r.stop == end == r.valueEnd ==> GetCleanText(t) == t.text + "*/")
  {
    var r := BlockCommentScan(text, pos + 2, pos + 2, end);
    if r.stop == r.valueEnd + 2 {
      assert text[pos..r.stop] == "/*" + text[pos + 2..r.valueEnd] + "*/";
    } else {
      assert text[pos..r.stop] == "/*" + text[pos + 2..r.valueEnd];
    }
  }

  // ---------------------------------------------------------------------
  // Variables

  /** A brace scan stops at the first '}', or at the end when there is
      none. */
  lemma {:induction false} BraceScanFirstClose(text: string, valueStart: int, i: int, end: int)
    requires 0 <= valueStart <= i <= end <= |text|
    ensures var r := BraceScan(text, valueStart, i, end);
      forall k | i <= k < r.valueEnd :: text[k] != '}'
    decreases end - i
  {
    if i < end && text[i] != '}' {
      BraceScanFirstClose(text, valueStart, i + 1, end);
    }
  }

  /** "${" starts a Variable whose value is the text up to the first '}',
      or up to the end when the brace is not closed. */
  lemma BracedVariableValue(text: string, pos: int, end: int)
    requires 0 <= pos && pos + 2 <= end <= |text| && text[pos] == '$' && text[pos + 1] == '{'
    ensures var t := Lex(text, pos, end);
      && t.kind == Variable
      && (forall k | pos + 2 <= k < pos + 2 + |t.payload.unquoted| :: text[k] != '}')
      && t.payload.unquoted == text[pos + 2..pos + 2 + |t.payload.unquoted|]
      && ((t.end == pos + 3 + |t.payload.unquoted| && text[t.end - 1] == '}')
          || (t.end == end == pos + 2 + |t.payload.unquoted|))
  {
    BraceScanFirstClose(text, pos + 2, pos + 2, end);
    LexAtDollar(text, pos, end);
  }

  /** '$' and a letter start a Variable whose value is the letter run after
      the '$'. */
  lemma LetterVariableValue(text: string, pos: int, end: int)
    requires 0 <= pos && pos + 1 < end <= |text| && text[pos] == '$' && IsLetter(text[pos + 1])
    ensures var t := Lex(text, pos, end);
      && t.kind == Variable
      && t.payload.unquoted == text[pos + 1..t.end]
      && (forall k | pos + 1 <= k < t.end :: IsLetter(text[k]))
      && (t.end == end || !IsLetter(text[t.end]))
  {
    LexAtDollar(text, pos, end);
    RunEndIsMaximal(text, pos + 1, end, IsLetter);
  }

  /** A '$' with more input after it goes to the variable branch. */
  lemma LexAtDollar(text: string, pos: int, end: int)
    requires 0 <= pos && pos + 1 < end <= |text| && text[pos] == '$'
    ensures Lex(text, pos, end) == DollarToken(text, pos, end)
  {
    assert Lex(text, pos, end) == LexRest(text, pos, end);
  }

  // ---------------------------------------------------------------------
  // Numbers

  /** The integer a string of digits denotes, most significant first. */
  function DigitString(s: string): int
  {
    if |s| == 0 then 0 else 10 * DigitString(s[..|s| - 1]) + DigitValue(s[|s| - 1])
  }

  /** Reading more digits after y multiplies the value of x by ten per
      digit: the digit strings of x and y together denote one integer. */
  lemma {:induction false} DigitStringConcat(x: string, y: string)
    ensures DigitString(x + y) == DigitString(x) * Pow10(|y|) + DigitString(y)
    decreases |y|
  {
    if |y| > 0 {
      var y' := y[..|y| - 1];
      var d := DigitValue(y[|y| - 1]);
      assert (x + y)[..|x + y| - 1] == x + y';
      assert (x + y)[|x + y| - 1] == y[|y| - 1];
      DigitStringConcat(x, y');
      var a, q, b := DigitString(x), Pow10(|y'|), DigitString(y');
      assert Pow10(|y|) == 10 * q;
      assert DigitString(y) == 10 * b + d;
      assert 10 * (a * q) == a * Pow10(|y|);
      assert DigitString(x + y) == 10 * (a * q + b) + d;
    } else {
      assert x + y == x;
    }
  }

  /** The digit loop continues a value n0: after text[a..b] it holds n0
      shifted by the number of digits plus the value of those digits. */
  lemma {:induction false} DigitsFromIsDigitString(n0: int, text: string, a: int, b: int)
    requires 0 <= a <= b <= |text|
    ensures DigitsFrom(n0, text, a, b) == n0 * Pow10(b - a) + DigitString(text[a..b])
    decreases b - a
  {
    if b > a {
      DigitsFromIsDigitString(n0, text, a, b - 1);
      assert text[a..b][..b - a - 1] == text[a..b - 1];
      calc {
        DigitsFrom(n0, text, a, b);
        10 * DigitsFrom(n0, text, a, b - 1) + DigitValue(text[b - 1]);
        10 * (n0 * Pow10(b - 1 - a) + DigitString(text[a..b - 1])) + DigitValue(text[b - 1]);
        n0 * (10 * Pow10(b - 1 - a)) + (10 * DigitString(text[a..b - 1]) + DigitValue(text[b - 1]));
      }
    }
  }

  /** The magnitude of a number is all its digits, integer and fraction,
      read as one integer; its scale is the number of fraction digits. */
  lemma NumberValueIsAllDigits(text: string, p: int, intEnd: int, fracStart: int, fracEnd: int, signum: int)
    requires 0 <= p <= intEnd <= fracStart <= fracEnd <= |text|
    ensures var v := NumberValue(text, p, intEnd, fracStart, fracEnd, signum);
      && v.signum == signum
      && v.magnitude == DigitString(text[p..intEnd] + text[fracStart..fracEnd])
      && v.scale == fracEnd - fracStart
  {
    DigitsFromIsDigitString(0, text, p, intEnd);
    DigitsFromIsDigitString(DigitsFrom(0, text, p, intEnd), text, fracStart, fracEnd);
    DigitStringConcat(text[p..intEnd], text[fracStart..fracEnd]);
  }

  /** A number token: its digits run from the digit at p to the end of the
      integer run, then past a '.' over the fraction run; the value is those
      digits read as one integer, scaled by the number of fraction digits. */
  lemma NumberTokenValue(text: string, pos: int, p: int, end: int, signum: int)
    requires 0 <= pos <= p < end <= |text| && IsDigit(text[p])
    ensures var t := NumberToken(text, pos, p, end, signum);
      var intEnd := RunEnd(text, p, end, IsDigit);
      var dot := intEnd < end && text[intEnd] == '.';
      var fracStart := if dot then intEnd + 1 else intEnd;
      var fracEnd := if dot then RunEnd(text, fracStart, end, IsDigit) else intEnd;
      && p < intEnd <= fracStart <= fracEnd <= t.end
      && t.payload.number == Decimal(signum, DigitString(text[p..intEnd] + text[fracStart..fracEnd]), fracEnd - fracStart)
  {
    var intEnd := RunEnd(text, p, end, IsDigit);
    var dot := intEnd < end && text[intEnd] == '.';
    var fracStart := if dot then intEnd + 1 else intEnd;
    var fracEnd := if dot then RunEnd(text, fracStart, end, IsDigit) else intEnd;
    NumberValueIsAllDigits(text, p, intEnd, fracStart, fracEnd, signum);
  }

  /** A '.' after the integer digits with no digit after it is consumed and
      leaves the value that of the integer digits. */
  lemma TrailingDotKeepsValue(text: string, pos: int, p: int, end: int, signum: int)
    requires 0 <= pos <= p < end <= |text| && IsDigit(text[p])
    requires var intEnd := RunEnd(text, p, end, IsDigit);
      intEnd < end && text[intEnd] == '.' && (intEnd + 1 == end || !IsDigit(text[intEnd + 1]))
    ensures var t := NumberToken(text, pos, p, end, signum);
      var intEnd := RunEnd(text, p, end, IsDigit);
      && intEnd + 1 <= t.end
      && t.payload.number == Decimal(signum, DigitString(text[p..intEnd]), 0)
  {
    var intEnd := RunEnd(text, p, end, IsDigit);
    NumberTokenValue(text, pos, p, end, signum);
    assert RunEnd(text, intEnd + 1, end, IsDigit) == intEnd + 1;
    assert text[p..intEnd] + text[intEnd + 1..intEnd + 1] == text[p..intEnd];
  }

  /** The digit loop over digits only, from a value that is not negative,
      gives a value that is not negative. */
  lemma {:induction false} DigitsFromNonNegative(n0: int, text: string, a: int, b: int)
    requires 0 <= a <= b <= |text| && n0 >= 0
    requires forall k | a <= k < b :: IsDigit(text[k])
    ensures DigitsFrom(n0, text, a, b) >= 0
    decreases b - a
  {
    if b > a {
      DigitsFromNonNegative(n0, text, a, b - 1);
    }
  }

  /** The magnitude of every number token is never negative: the sign is
      kept apart, in the signum. */
  lemma NumberMagnitudeNonNegative(text: string, pos: int, p: int, end: int, signum: int)
    requires 0 <= pos <= p < end <= |text| && IsDigit(text[p])
    ensures NumberToken(text, pos, p, end, signum).payload.number.magnitude >= 0
  {
    var intEnd := RunEnd(text, p, end, IsDigit);
    var dot := intEnd < end && text[intEnd] == '.';
    var fracStart := if dot then intEnd + 1 else intEnd;
    var fracEnd := if dot then RunEnd(text, fracStart, end, IsDigit) else intEnd;
    RunEndIsMaximal(text, p, end, IsDigit);
    RunEndIsMaximal(text, fracStart, end, IsDigit);
    DigitsFromNonNegative(0, text, p, intEnd);
    DigitsFromNonNegative(DigitsFrom(0, text, p, intEnd), text, fracStart, fracEnd);
  }

  /** What follows the digits decides the kind: '%' a Percentage, a letter a
      Dimension whose unit is the maximal letter run, anything else a Number
      ending after the digits. */
  lemma NumberSuffixKind(text: string, pos: int, q: int, end: int, number: Decimal)
    requires 0 <= pos < q <= end <= |text|
    ensures var t := NumberSuffix(text, pos, q, end, number);
      && (t.kind == Percentage <==> q < end && text[q] == '%')
      && (t.kind == Dimension <==> q < end && IsLetter(text[q]))
      && (t.kind == Number <==> !(q < end && (text[q] == '%' || IsLetter(text[q]))))
      && (t.kind == Percentage ==> t.end == q + 1)
      && (t.kind == Number ==> t.end == q)
      && (t.kind == Dimension ==>
            && t.payload.unit == text[q..t.end]
            && t.text == text[pos..q] + t.payload.unit
            && (forall k | q <= k < t.end :: IsLetter(text[k]))
            && (t.end == end || !IsLetter(text[t.end])))
  {
    if q < end && IsLetter(text[q]) {
      var t := NumberSuffix(text, pos, q, end, number);
      RunEndIsMaximal(text, q + 1, end, IsLetter);
      assert text[pos..t.end] == text[pos..q] + text[q..t.end];
    }
  }

  // ---------------------------------------------------------------------
  // Token records

  /** A Whitespace token shows its kind name alone; any other plain token
      shows the name and its text, and its clean text is its text. */
  lemma PlainTokenStrings(t: Token)
    requires t.payload.Plain?
    ensures t.kind == Whitespace ==> ToString(t) == "whitespace"
    ensures t.kind != Whitespace ==> ToString(t) == TypeToString(t.kind) + ": " + t.text
    ensures GetCleanText(t) == t.text
  {
  }

  /** A StringValueToken shows its value after the kind name; its clean
      text rebuilds a Comment as a block comment around the value and is
      the text for every other kind. */
  lemma StringValueTokenStrings(t: Token)
    requires t.payload.StringValue?
    ensures ToString(t) == TypeToString(t.kind) + ": " + t.payload.unquoted
    ensures t.kind == Comment ==> GetCleanText(t) == "/*" + t.payload.unquoted + "*/"
    ensures t.kind != Comment ==> GetCleanText(t) == t.text
  {
  }

  /** A UriToken shows "uri: " and its value, and its clean text is its
      text. */
  lemma UriTokenStrings(start: int, end: int, text: string, prefix: string, value: string)
    ensures var t := NewUriToken(start, end, text, prefix, value);
      ToString(t) == "uri: " + value && GetCleanText(t) == text
  {
  }

  /** A numeric token shows its kind name and its text, e.g. "number: 1.5". */
  lemma NumericTokenStrings(t: Token)
    requires t.payload.Numeric? || t.payload.NumericWithUnit?
    requires t.kind == Number || t.kind == Percentage || t.kind == Dimension
    ensures ToString(t) == TypeToString(t.kind) + ": " + t.text
    ensures GetCleanText(t) == t.text
  {
  }
}
