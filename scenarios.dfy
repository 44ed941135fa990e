// Inputs of the tokenizer's own test suite (TokenizerTest.cs) and the
// tokens the engine produces for them. Each lemma takes the input as a
// parameter equal to the test's string: the kind of each token and, where
// the input is a single token, that its text is the whole input.

module Scenarios {
  import opened CharClass
  import opened TokenKinds
  import opened Tokens
  import opened Lookahead
  import opened LexerSpec
  import opened LexerProperties

  /** "{}()[]:;," is nine Delimiters. */
  lemma DelimitersScenario(s: string)
    requires s == "{}()[]:;,"
    ensures var ts := Tokenize(s, 0, |s|);
      |ts| == 9 && forall k | 0 <= k < 9 :: ts[k].kind == Delimiter
  {
    DelimiterRunTokens(s, 0, 9);
  }

  /** " \t \r\n" is one Whitespace token. */
  lemma WhitespaceScenario(s: string)
    requires s == " \t \r\n"
    ensures var t := Lex(s, 0, |s|);
      t.kind == Whitespace && t.text == s
  {
    WhitespaceIsMaximalRun(s, 0, 5);
  }

  /** "// Singleline comment" is one Comment. */
  lemma LineCommentScenario(s: string)
    requires s == "// Singleline comment"
    ensures var t := Lex(s, 0, |s|);
      t.kind == Comment && t.text == s
  {
    LineCommentValue(s, 0, 21);
  }

  /** "@import" is one AtIdentifier. */
  lemma AtIdentifierScenario(s: string)
    requires s == "@import"
    ensures var t := Lex(s, 0, |s|);
      t.kind == AtIdentifier && t.text == s
  {
    PlainNameRun(s, 2, 7, 7);
    assert IdentifierRun(s, 1, 7) == 6;
    AtIdentifierToken(s, 0, 7);
  }

  /** "someidentifier" is one Identifier. */
  lemma IdentifierScenario(s: string)
    requires s == "someidentifier"
    ensures var t := Lex(s, 0, |s|);
      t.kind == Identifier && t.text == s
  {
    PlainNameRun(s, 0, 14, 14);
    IdentifierToken(s, 0, 14);
  }

  /** "+-.*" followed by a slash is five one-character Operators: the dash
      is followed by no digit and no name. */
  lemma OperatorsScenario(s: string)
    requires s == "+-.*/"
    ensures var ts := Tokenize(s, 0, |s|);
      |ts| == 5 && forall k | 0 <= k < 5 :: ts[k].kind == Operator
  {
    OperatorTokens(s);
    var ts := Tokenize(s, 0, 5);
    assert ts == [Lex(s, 0, 5)] + Tokenize(s, 1, 5);
    assert Tokenize(s, 1, 5) == [Lex(s, 1, 5)] + Tokenize(s, 2, 5);
    assert Tokenize(s, 2, 5) == [Lex(s, 2, 5)] + Tokenize(s, 3, 5);
    assert Tokenize(s, 3, 5) == [Lex(s, 3, 5)] + Tokenize(s, 4, 5);
    assert Tokenize(s, 4, 5) == [Lex(s, 4, 5)];
  }

  /** Each character of "+-.*" and a slash, lexed where it stands, is a
      one-character Operator. */
  lemma OperatorTokens(s: string)
    requires s == "+-.*/"
    ensures Lex(s, 0, 5) == MakeToken(Operator, s, 0, 1)
    ensures Lex(s, 1, 5) == MakeToken(Operator, s, 1, 2)
    ensures Lex(s, 2, 5) == MakeToken(Operator, s, 2, 3)
    ensures Lex(s, 3, 5) == MakeToken(Operator, s, 3, 4)
    ensures Lex(s, 4, 5) == MakeToken(Operator, s, 4, 5)
  {
    FallbackOperator(s, 0, 5);
    assert LookOverName(s, 1, 5, 1) == 0;
    assert Lex(s, 1, 5) == DashNameToken(s, 1, 5);
    DotAndBackslashAreOperators(s, 2, 5);
    FallbackOperator(s, 3, 5);
  }

  /** "123.45" is one Number with magnitude 12345 and scale 2. */
  lemma NumberScenario(s: string)
    requires s == "123.45"
    ensures var t := Lex(s, 0, |s|);
      t.kind == Number && t.text == s && t.payload.number == Decimal(1, 12345, 2)
  {
    assert RunEnd(s, 0, 6, IsDigit) == 3;
    assert RunEnd(s, 4, 6, IsDigit) == 6;
  }

  /** "123.45%" is one Percentage. */
  lemma PercentageScenario(s: string)
    requires s == "123.45%"
    ensures var t := Lex(s, 0, |s|);
      t.kind == Percentage && t.text == s && t.payload.number == Decimal(1, 12345, 2)
  {
    assert RunEnd(s, 0, 7, IsDigit) == 3;
    assert RunEnd(s, 4, 7, IsDigit) == 6;
  }

  /** "123.45px" is one Dimension with the unit "px". */
  lemma DimensionScenario(s: string)
    requires s == "123.45px"
    ensures Lex(s, 0, |s|) == Token(Dimension, 0, 8, s, NumericWithUnit(Decimal(1, 12345, 2), "px"))
  {
    assert RunEnd(s, 0, 8, IsDigit) == 3;
    assert RunEnd(s, 4, 8, IsDigit) == 6;
    assert RunEnd(s, 7, 8, IsLetter) == 8;
  }

  /** "<!--" is one CDataOpen. */
  lemma CDataOpenScenario(s: string)
    requires s == "<!--"
    ensures var t := Lex(s, 0, |s|);
      t.kind == CDataOpen && t.text == s
  {
    CDataOpenToken(s, 0, 4);
  }

  /** "-->" is one CDataClose. */
  lemma CDataCloseScenario(s: string)
    requires s == "-->"
    ensures var t := Lex(s, 0, |s|);
      t.kind == CDataClose && t.text == s
  {
    CDataCloseToken(s, 0, 3);
  }

  /** "\"test\"" is one String with the value "test". */
  lemma DoubleQuotedScenario(s: string)
    requires s == "\"test\""
    ensures var t := Lex(s, 0, |s|);
      t.kind == String && t.text == s && t.payload.unquoted == "test"
  {
    QuotedStringValue(s, 0, 5, 6);
  }

  /** "'test'" is one String with the value "test". */
  lemma SingleQuotedScenario(s: string)
    requires s == "'test'"
    ensures var t := Lex(s, 0, |s|);
      t.kind == String && t.text == s && t.payload.unquoted == "test"
  {
    QuotedStringValue(s, 0, 5, 6);
  }

  /** "functionName(" is one Function. */
  lemma FunctionScenario(s: string)
    requires s == "functionName("
    ensures var t := Lex(s, 0, |s|);
      t.kind == Function && t.text == s
  {
    PlainNameRun(s, 0, 12, 13);
    assert |s[0..12]| == 12;
    FunctionToken(s, 0, 13);
  }

  /** "url(someurl)" is one Uri with the value "someurl". */
  lemma BareUrlScenario(s: string)
    requires s == "url(someurl)"
    ensures var t := Lex(s, 0, |s|);
      t.kind == Uri && t.text == s && t.payload.unquoted == "someurl"
  {
    assert s[0..4] == "url(";
    BareUrlValue(s, 0, 11, 12);
  }

  /** "url(\"someurl\")" is one Uri with the value "someurl". */
  lemma DoubleQuotedUrlScenario(s: string)
    requires s == "url(\"someurl\")"
    ensures var t := Lex(s, 0, |s|);
      t.kind == Uri && t.text == s && t.payload.unquoted == "someurl"
  {
    assert s[0..4] == "url(";
    QuotedUrlValue(s, 0, 12, 14);
  }

  /** "url('someurl')" is one Uri with the value "someurl". */
  lemma SingleQuotedUrlScenario(s: string)
    requires s == "url('someurl')"
    ensures var t := Lex(s, 0, |s|);
      t.kind == Uri && t.text == s && t.payload.unquoted == "someurl"
  {
    assert s[0..4] == "url(";
    QuotedUrlValue(s, 0, 12, 14);
  }

  /** "$variableName" is one Variable with the value "variableName". */
  lemma VariableScenario(s: string)
    requires s == "$variableName"
    ensures var t := Lex(s, 0, |s|);
      t.kind == Variable && t.text == s && t.payload.unquoted == "variableName"
  {
    LetterVariableValue(s, 0, 13);
    RunEndUnique(s, 1, 13, IsLetter, 13);
  }

  /** "#someid" is one HashName. */
  lemma HashNameScenario(s: string)
    requires s == "#someid"
    ensures var t := Lex(s, 0, |s|);
      t.kind == HashName && t.text == s
  {
    PlainNameRun(s, 1, 7, 7);
    HashNameToken(s, 0, 7);
  }
}
