# dotLessen tokenizer, modelled in Dafny

dotLessen's tokenizer is a single-pass lexer for CSS with LESS-style
extensions. It turns a string into a stream of tokens: whitespace, comments,
delimiters, operators, CDATA markers, identifiers, `@identifiers`, `#names`,
functions, `$variables` and `${variables}`, strings, URIs, numbers,
percentages, dimensions and unicode ranges. Each call of `MoveNext` looks at
the character under the cursor, tries the branches in a fixed order, builds
one token and moves the cursor past it.

The model has three layers.

- **Values** (`chars.dfy`, `token_kind.dfy`, `tokens.dfy`):
  - the character classes of the engine;
  - the 19 token kinds;
  - the token records as one datatype, a kind plus a payload (none, number,
    number with unit, string value, URI), with `TypeToString`, `ToString`
    and `GetCleanText`.
  - A number is the exact triple (sign, all digits read as one integer,
    number of fraction digits).
- **The engine as functions** (`lookahead.dfy`, `lexer_spec.dfy`):
  - the read-only `LookOver*` scanners as functions of
    `(text, next, end, offset)`;
  - `Lex(text, pos, end)`, the token `MoveNext` builds with the cursor at
    `pos`, written branch by branch in the engine's order;
  - `Tokenize`, the whole token stream.
  - Every character is read through `CharAt`, whose precondition `i < end`
    shows that nothing reads at or past the end of the range.
- **The tokenizer object** (`string_tokenizer.dfy`): class
  `StringTokenizer` with the fields `text`, `start`, `end`, the cursor
  `next` and the `current` token.
  - The cursor primitives of `StringTokenizer.cs` and the engine of the
    abstract base class (`MoveNext`, `ParseNumber`, `ParseString`,
    `ParseRestOfURI`, `SwallowWhitespace`) are methods with the engine's
    loops.
  - Each is proved to leave in `current` the token `LexerSpec` describes,
    with the cursor at that token's end.
  - The longer branches of `MoveNext` are separate methods (`LexSlash`,
    `LexDash`, `LexName`, `LexVariable`, ...). Each holds the code of one
    branch, so that each proof stays small.

`lexer_properties.dfy` proves what the engine promises about the functions:
- the tokens of a run reproduce the input;
- the priority of the branches;
- the value each kind of token carries;
- the strings of the token records.

`scenarios.dfy` restates the inputs of the tokenizer's test suite
(`TokenizerTest.cs`) with the tokens the model produces for them.

## Notes on behaviour

The model follows the code on these points:

- **Hex escapes.** A backslash followed by hex digits counts as one name step whose length is the number of hex digits, capped at six. The backslash is counted and the last hex digit is not. The last digit is then read again as an ordinary name character, so a whole name comes out the same length as with the full escape counted: `LookOverNameIsReference`.
- **URI values.** The first character after `url(` and its whitespace is always taken into a bare URI value, even when it is `)`. So `url()` has the value `)` and runs to the next whitespace or `)`: `EmptyUrlValue`.
- **Unterminated strings.** A string that meets neither its closing quote nor a line terminator runs to the end of the input with an empty value: `UnterminatedStringIsEmpty`.
- **`LookOverWhitespace(index)`** does not use its argument. It always measures the run at the cursor.
- **Numbers.** The integer and fraction digits go through one accumulator. The scale is the number of fraction digits, and a trailing `.` is consumed without changing the value.

## Model

| member | source | states |
|---|---|---|
| CharClass.NameCharsUseLetters | src/dotLessen/Tokenizers/ITokenizerBase.cs:498-513 | IsNameChar is exactly `_`, `-`, a digit, a letter or a code above 177. IsNameStartChar is exactly `_`, a letter or a code above 177, as the engine writes them with Char.IsLetter |
| CharClass.HexDigitIsNameChar | src/dotLessen/Tokenizers/ITokenizerBase.cs:486-501 | every hex digit is a name character |
| CharClass.NameStartCharFacts | src/dotLessen/Tokenizers/ITokenizerBase.cs:498-513 | a name-start character is a name character; a digit or `-` never starts a name; every code above 177 does |
| CharClass.DigitValue | src/dotLessen/Tokenizers/ITokenizerBase.cs:602 | `c - '0'` of a digit is its value, between 0 and 9 |
| TokenKinds.Ordinal | src/dotLessen/Tokens/TokenTypeEnum.cs:15-111 | each kind has its declaration index, below 19 |
| TokenKinds.FromOrdinal | src/dotLessen/Tokens/TokenTypeEnum.cs:15-111 | each index below 19 names the kind declared there |
| TokenKinds.OrdinalRoundTrip | src/dotLessen/Tokens/TokenTypeEnum.cs:15-111 | converting a kind to its index and back gives the kind |
| TokenKinds.OrdinalInjective | src/dotLessen/Tokens/TokenTypeEnum.cs:15-111 | distinct kinds have distinct indices: exactly 19 kinds |
| TokenKinds.TypeToString | src/dotLessen/Tokens/Token.cs:74-102 | every kind has a non-empty name, never "unknown" |
| TokenKinds.TypeToStringOfValue | src/dotLessen/Tokens/Token.cs:74-105 | on a raw enum value the result is "unknown" exactly outside 0..18, and otherwise the name of that kind |
| TokenKinds.TypeToStringInjective | src/dotLessen/Tokens/Token.cs:74-102 | distinct kinds have distinct names |
| Tokens.Pow10 | src/dotLessen/Tokenizers/ITokenizerBase.cs:594-624 | the divisor built by `divide *= 10` is at least 1 |
| Tokens.NewUriToken | src/dotLessen/Tokens/UriToken.cs:24-28 | a UriToken always has kind Uri and keeps start, end, text, prefix and value as given |
| Lookahead.RunEndIsMaximal | src/dotLessen/Tokenizers/ITokenizerBase.cs:795-804 | every character of a scanned run satisfies the test, and the run stops at the end or at a character that fails it |
| Lookahead.RunEndUnique | src/dotLessen/Tokenizers/ITokenizerBase.cs:795-804 | a position that ends a maximal run is where the scan stops |
| Lookahead.LookOverUnicodeCode | src/dotLessen/Tokenizers/ITokenizerBase.cs:964-973 | at most 6 characters, all before the end |
| Lookahead.HexRunCounts | src/dotLessen/Tokenizers/ITokenizerBase.cs:964-973 | the counted characters are hex digits; below the cap of 6 the scan stopped at the end or at a non-hex character |
| Lookahead.LookOverWhitespaceIgnoresIndex | src/dotLessen/Tokenizers/ITokenizerBase.cs:795-804 | the index argument does not change the result, which is the maximal whitespace run at the cursor |
| Lookahead.EscapeStep | src/dotLessen/Tokenizers/ITokenizerBase.cs:866-880 | a backslash step is positive exactly when a character other than `\r`, `\n`, `\f` follows before the end; at most 6 |
| Lookahead.LookOverNameChar | src/dotLessen/Tokenizers/ITokenizerBase.cs:892-921 | positive exactly when a name character or an escape starts at next+offset; at most 6 and within the end |
| Lookahead.LookOverNameStartChar | src/dotLessen/Tokenizers/ITokenizerBase.cs:856-885 | positive exactly when a name-start character or an escape starts there; at most 6 and within the end |
| Lookahead.LookOverName | src/dotLessen/Tokenizers/ITokenizerBase.cs:832-849 | positive exactly when the first name step is; never past the end |
| Lookahead.LookOverIdentifier | src/dotLessen/Tokenizers/ITokenizerBase.cs:811-825 | positive exactly when a name-start step matches; never past the end |
| Lookahead.LookOverUnicodeChar | src/dotLessen/Tokenizers/ITokenizerBase.cs:928-949 | positive exactly when a backslash and a hex digit start at next+offset |
| Lookahead.StepsAgree | src/dotLessen/Tokenizers/ITokenizerBase.cs:866-880 | a backslash-hex step is one shorter than the full escape and stops on a hex digit; every other step equals the full step |
| Lookahead.NameRunIsReference | src/dotLessen/Tokenizers/ITokenizerBase.cs:832-849 | the name scan equals the scan that counts every escape in full |
| Lookahead.LookOverNameIsReference | src/dotLessen/Tokenizers/ITokenizerBase.cs:832-849 | LookOverName equals the length of the name read with each escape counted in full |
| Lookahead.LookOverIdentifierIsReference | src/dotLessen/Tokenizers/ITokenizerBase.cs:811-825 | LookOverIdentifier equals the length of the identifier read with each escape counted in full |
| LexerSpec.StringScan | src/dotLessen/Tokenizers/ITokenizerBase.cs:749-779 | the scan stops right after the delimiter, or on a line terminator without taking it, or at the end with an empty value |
| LexerSpec.UriValueScan | src/dotLessen/Tokenizers/ITokenizerBase.cs:699-727 | the value lies within the scanned range |
| LexerSpec.BlockCommentScan | src/dotLessen/Tokenizers/ITokenizerBase.cs:168-200 | the value ends before a `*/` and the scan stops after it, or both stop at the end |
| LexerSpec.BraceScan | src/dotLessen/Tokenizers/ITokenizerBase.cs:377-396 | the name ends before a `}` and the scan stops after it, or both stop at the end |
| LexerSpec.NumberToken | src/dotLessen/Tokenizers/ITokenizerBase.cs:591-688 | a number gives a Number, Percentage or Dimension |
| LexerSpec.NumberSuffix | src/dotLessen/Tokenizers/ITokenizerBase.cs:637-687 | what follows the digits gives a Number, Percentage or Dimension |
| LexerSpec.SlashToken | src/dotLessen/Tokenizers/ITokenizerBase.cs:135-202 | a `/` gives a Comment or an Operator |
| LexerSpec.DollarToken | src/dotLessen/Tokenizers/ITokenizerBase.cs:374-441 | a `$` with more input gives a Variable or an Operator |
| LexerSpec.NameToken | src/dotLessen/Tokenizers/ITokenizerBase.cs:298-361 | a name-start character gives a UnicodeRange, Uri, Function or Identifier |
| LexerSpec.NamedToken | src/dotLessen/Tokenizers/ITokenizerBase.cs:327-360 | a name gives a Uri, Function or Identifier |
| LexerSpec.CallToken | src/dotLessen/Tokenizers/ITokenizerBase.cs:332-351 | a name with `(` gives a Uri or a Function |
| LexerSpec.DashToken | src/dotLessen/Tokenizers/ITokenizerBase.cs:254-297 | a `-` gives CDataClose, a number, an Identifier or an Operator |
| LexerSpec.DashNameToken | src/dotLessen/Tokenizers/ITokenizerBase.cs:282-296 | a `-` not before a digit gives an Identifier or an Operator |
| LexerSpec.PrefixedNameToken | src/dotLessen/Tokenizers/ITokenizerBase.cs:203-236 | `@` or `#` gives an AtIdentifier, HashName or Operator |
| LexerSpec.Lex | src/dotLessen/Tokenizers/ITokenizerBase.cs:88-459 | the token one MoveNext emits at pos starts at pos and ends after it, never past the end. Its text is the source span, its record class fits its kind (NumericToken only for Number and Percentage, NumericWithUnitToken only for Dimension), and it is never Invalid or Color |
| LexerSpec.LexRest | src/dotLessen/Tokenizers/ITokenizerBase.cs:237-451 | the branches after `@`/`#` emit a token with the same guarantees |
| LexerSpec.NextToken | src/dotLessen/Tokenizers/ITokenizerBase.cs:88-95 | no token exactly at the end of the input, otherwise an emitted token at the cursor |
| LexerSpec.Tokenize | src/dotLessen/Tokenizers/ITokenizerBase.cs:88-459 | a run has at most one token per character |
| LexerSpec.TokenizeStep | src/dotLessen/Tokenizers/ITokenizerBase.cs:88-459 | a run is the token of one MoveNext followed by the run from that token's end |
| LexerSpec.TokenizeTiles | src/dotLessen/Tokenizers/ITokenizerBase.cs:88-459 | the tokens of a run tile the range: each starts where the previous ended and the last ends at the end |
| LexerSpec.NumberTokenParts | src/dotLessen/Tokenizers/ITokenizerBase.cs:591-635 | the number token is determined by where its integer and fraction runs end and by the accumulated digits |
| Tokenizer.StringTokenizer.constructor | src/dotLessen/Tokenizers/StringTokenizer.cs:24-32 | keeps text, start and end; the cursor is at start and there is no current token |
| Tokenizer.StringTokenizer.FromText | src/dotLessen/Tokenizers/StringTokenizer.cs:59-62 | the range is the whole text, the cursor at 0 |
| Tokenizer.StringTokenizer.Reset | src/dotLessen/Tokenizers/StringTokenizer.cs:116-119 | moves the cursor back to start and changes nothing else |
| Tokenizer.StringTokenizer.HasMoreChar | src/dotLessen/Tokenizers/StringTokenizer.cs:127-130 | true exactly when next < end |
| Tokenizer.StringTokenizer.HasMoreCharAt | src/dotLessen/Tokenizers/StringTokenizer.cs:139-142 | true exactly when next + offset < end; for a non-negative offset this implies HasMoreChar |
| Tokenizer.StringTokenizer.GetCurrentChar | src/dotLessen/Tokenizers/StringTokenizer.cs:148-151 | the character at the cursor, read only before the end; no state changes |
| Tokenizer.StringTokenizer.GetCharRelative | src/dotLessen/Tokenizers/StringTokenizer.cs:158-161 | the character at next + offset, read only before the end; no state changes |
| Tokenizer.StringTokenizer.GetCurrentOffset | src/dotLessen/Tokenizers/StringTokenizer.cs:167-170 | the cursor |
| Tokenizer.StringTokenizer.GetText | src/dotLessen/Tokenizers/StringTokenizer.cs:200-203 | text[from..to), for 0 <= from <= to <= length |
| Tokenizer.StringTokenizer.Advance | src/dotLessen/Tokenizers/StringTokenizer.cs:185-192 | the cursor moves by exactly `by`, whatever the flush flag |
| Tokenizer.StringTokenizer.AdvanceOne | src/dotLessen/Tokenizers/StringTokenizer.cs:175-178 | the cursor moves by one |
| Tokenizer.StringTokenizer.AdvanceAndFlush | src/dotLessen/Tokenizers/ITokenizerBase.cs:581-584 | the cursor moves by exactly `by` |
| Tokenizer.StringTokenizer.Flush | src/dotLessen/Tokenizers/StringTokenizer.cs:209-212 | changes nothing |
| Tokenizer.StringTokenizer.SwallowWhitespace | src/dotLessen/Tokenizers/ITokenizerBase.cs:785-788 | the cursor moves to the end of the whitespace run |
| Tokenizer.StringTokenizer.ParseNumber | src/dotLessen/Tokenizers/ITokenizerBase.cs:591-688 | the current token is NumberToken from the first digit, the cursor at its end |
| Tokenizer.StringTokenizer.ReadNumberDigits | src/dotLessen/Tokenizers/ITokenizerBase.cs:593-633 | reads the integer run, an optional `.` and the fraction run; the accumulator holds all their digits |
| Tokenizer.StringTokenizer.ReadDigits | src/dotLessen/Tokenizers/ITokenizerBase.cs:597-609 | the cursor moves to the end of the digit run and `n = n * 10 + (c - '0')` is applied to each digit |
| Tokenizer.StringTokenizer.EmitNumber | src/dotLessen/Tokenizers/ITokenizerBase.cs:637-687 | the current token is NumberSuffix for the digits read, the cursor at its end |
| Tokenizer.StringTokenizer.SkipLetters | src/dotLessen/Tokenizers/ITokenizerBase.cs:663-666 | the cursor moves to the end of the letter run |
| Tokenizer.StringTokenizer.ParseString | src/dotLessen/Tokenizers/ITokenizerBase.cs:749-779 | returns the value StringScan finds and leaves the cursor where it stops |
| Tokenizer.StringTokenizer.ParseRestOfURI | src/dotLessen/Tokenizers/ITokenizerBase.cs:695-742 | the current token is UriToken for the prefix, the cursor at its end |
| Tokenizer.StringTokenizer.ParseUriValue | src/dotLessen/Tokenizers/ITokenizerBase.cs:699-727 | returns the value UriValueScan finds and leaves the cursor where it stops |
| Tokenizer.StringTokenizer.ParseBareUriValue | src/dotLessen/Tokenizers/ITokenizerBase.cs:711-725 | takes the first character and then the run up to whitespace or `)`, returning that text |
| Tokenizer.StringTokenizer.FinishUri | src/dotLessen/Tokenizers/ITokenizerBase.cs:729-741 | skips whitespace and an optional `)` and emits the Uri |
| Tokenizer.StringTokenizer.EmitOperator | src/dotLessen/Tokenizers/ITokenizerBase.cs:443-451 | the current token is an Operator from the token start to one past the cursor |
| Tokenizer.StringTokenizer.LexSlash | src/dotLessen/Tokenizers/ITokenizerBase.cs:135-202 | the current token is SlashToken |
| Tokenizer.StringTokenizer.LexLineComment | src/dotLessen/Tokenizers/ITokenizerBase.cs:140-166 | the current token is LineComment |
| Tokenizer.StringTokenizer.LexBlockComment | src/dotLessen/Tokenizers/ITokenizerBase.cs:168-200 | the current token is BlockComment |
| Tokenizer.StringTokenizer.LexPrefixedName | src/dotLessen/Tokenizers/ITokenizerBase.cs:203-236 | the current token is PrefixedNameToken |
| Tokenizer.StringTokenizer.LexDash | src/dotLessen/Tokenizers/ITokenizerBase.cs:254-297 | the current token is DashToken |
| Tokenizer.StringTokenizer.LexDashName | src/dotLessen/Tokenizers/ITokenizerBase.cs:282-296 | the current token is DashNameToken |
| Tokenizer.StringTokenizer.LexName | src/dotLessen/Tokenizers/ITokenizerBase.cs:298-361 | the current token is NameToken |
| Tokenizer.StringTokenizer.LexUnicodeRange | src/dotLessen/Tokenizers/ITokenizerBase.cs:300-325 | the current token is UnicodeRangeToken |
| Tokenizer.StringTokenizer.LexNamed | src/dotLessen/Tokenizers/ITokenizerBase.cs:327-360 | the current token is NamedToken |
| Tokenizer.StringTokenizer.LexCall | src/dotLessen/Tokenizers/ITokenizerBase.cs:332-351 | the current token is CallToken |
| Tokenizer.StringTokenizer.LexVariable | src/dotLessen/Tokenizers/ITokenizerBase.cs:374-441 | the current token is DollarToken |
| Tokenizer.StringTokenizer.LexBracedVariable | src/dotLessen/Tokenizers/ITokenizerBase.cs:377-408 | the current token is BracedVariable |
| Tokenizer.StringTokenizer.LexLetterVariable | src/dotLessen/Tokenizers/ITokenizerBase.cs:410-440 | the current token is LetterVariable |
| Tokenizer.StringTokenizer.LexString | src/dotLessen/Tokenizers/ITokenizerBase.cs:362-373 | the current token is StringToken |
| Tokenizer.StringTokenizer.MoveNextAt | src/dotLessen/Tokenizers/ITokenizerBase.cs:93-451 | with input left, the current token is Lex at the cursor and the cursor is at its end |
| Tokenizer.StringTokenizer.MoveNextRest | src/dotLessen/Tokenizers/ITokenizerBase.cs:237-451 | the current token is LexRest at the cursor |
| Tokenizer.StringTokenizer.MoveNext | src/dotLessen/Tokenizers/ITokenizerBase.cs:88-459 | returns true exactly when a token was read. The current token is NextToken at the old cursor, and the cursor moves to its end, strictly forward. At the end of input it returns false, with no current token and the cursor unchanged |
| Tokenizer.StringTokenizer.ReadAll | src/dotLessen/Tokenizers/ITokenizerBase.cs:88-459 | calling MoveNext until it returns false collects exactly Tokenize from the cursor and leaves the cursor at the end |
| Tokenizer.StringTokenizer.ReadTwiceFromStart | src/dotLessen/Tokenizers/StringTokenizer.cs:116-119 | after Reset two full runs give the same tokens, those of the whole range |
| LexerProperties.TilesCoverText | src/dotLessen/Tokenizers/ITokenizerBase.cs:88-459 | tiling tokens concatenate to the covered input; none is empty, Invalid or Color |
| LexerProperties.TokenizeCoversText | src/dotLessen/Tokenizers/ITokenizerBase.cs:88-459 | the texts of a whole run reproduce text[pos..end), and no token is Invalid or Color |
| LexerProperties.DelimiterRunTokens | src/dotLessen/Tokenizers/ITokenizerBase.cs:114-126 | a run of delimiter characters gives one one-character Delimiter per character |
| LexerProperties.WhitespaceIsMaximalRun | src/dotLessen/Tokenizers/ITokenizerBase.cs:97-106 | whitespace gives one Whitespace token over the maximal run |
| LexerProperties.DelimiterIsOneChar | src/dotLessen/Tokenizers/ITokenizerBase.cs:114-126 | each of `{}()[]:;,` (comma included) is a one-character Delimiter |
| LexerProperties.MatchOperators | src/dotLessen/Tokenizers/ITokenizerBase.cs:128-134 | `~=` and `\|=` are two-character Operators, `~` and `\|` otherwise one-character ones (both directions) |
| LexerProperties.CDataOpenToken | src/dotLessen/Tokenizers/ITokenizerBase.cs:237-253 | `<!--` is a CDataOpen over four characters |
| LexerProperties.CDataCloseToken | src/dotLessen/Tokenizers/ITokenizerBase.cs:254-270 | `-->` is a CDataClose, tried before a negative number and a dashed identifier |
| LexerProperties.NegativeNumber | src/dotLessen/Tokenizers/ITokenizerBase.cs:272-279 | `-` and a digit give the token read from the digit, with the same kind and end, the dash in its text and the sign negated |
| LexerProperties.SignedNumberTokens | src/dotLessen/Tokenizers/ITokenizerBase.cs:591-688 | a number read with sign -1 from a dash and the same number read with sign 1 differ only in the sign and the dash |
| LexerProperties.DashIdentifier | src/dotLessen/Tokenizers/ITokenizerBase.cs:282-296 | `-` and a name (not `->`, not a digit) is one Identifier including the dash |
| LexerProperties.AtIdentifierToken | src/dotLessen/Tokenizers/ITokenizerBase.cs:203-219 | `@` and an identifier is one AtIdentifier over both |
| LexerProperties.HashNameToken | src/dotLessen/Tokenizers/ITokenizerBase.cs:220-236 | `#` and a name is one HashName over both |
| LexerProperties.FallbackOperator | src/dotLessen/Tokenizers/ITokenizerBase.cs:443-451 | a character that starts no other branch is a one-character Operator |
| LexerProperties.DotAndBackslashAreOperators | src/dotLessen/Tokenizers/ITokenizerBase.cs:443-451 | `.` and a backslash are one-character Operators |
| LexerProperties.UnicodeRangeTokenAt | src/dotLessen/Tokenizers/ITokenizerBase.cs:300-325 | `u+` and a hex digit is a UnicodeRange over the first hex run and an optional `-` and second run |
| LexerProperties.PlainNameRun | src/dotLessen/Tokenizers/ITokenizerBase.cs:832-849 | a name without escapes is read whole, up to the first character that is neither a name character nor a backslash |
| LexerProperties.NamedAt | src/dotLessen/Tokenizers/ITokenizerBase.cs:298-361 | a name-start character that is not `u+hex` goes to the name branch |
| LexerProperties.FunctionToken | src/dotLessen/Tokenizers/ITokenizerBase.cs:332-351 | a name other than `uri`/`url` followed by `(` is a Function including the `(` |
| LexerProperties.IdentifierToken | src/dotLessen/Tokenizers/ITokenizerBase.cs:353-360 | a name not followed by `(` is an Identifier over the name |
| LexerProperties.UriOnlyForUriUrl | src/dotLessen/Tokenizers/ITokenizerBase.cs:337-340 | a Uri token is emitted only at `uri(` or `url(` (case-sensitive), with that name as prefix |
| LexerProperties.UriNamesGiveUri | src/dotLessen/Tokenizers/ITokenizerBase.cs:337-340 | `uri(` and `url(` always start a Uri, read by ParseRestOfURI with the name as prefix |
| LexerProperties.UnterminatedScanIsEmpty | src/dotLessen/Tokenizers/ITokenizerBase.cs:749-779 | a string scan that meets no delimiter or line terminator runs to the end with an empty value |
| LexerProperties.UnterminatedStringIsEmpty | src/dotLessen/Tokenizers/ITokenizerBase.cs:362-373 | an unterminated string at the end of input is a String with an empty value that runs to the end |
| LexerProperties.ClosedScan | src/dotLessen/Tokenizers/ITokenizerBase.cs:749-779 | a scan over plain characters stops just after the delimiter, with the value before it |
| LexerProperties.QuotedStringValue | src/dotLessen/Tokenizers/ITokenizerBase.cs:362-373 | a closed string without escapes ends just after the first matching quote; its value is the text between the quotes, and its text is the value between the two quotes |
| LexerProperties.ClosedStringValue | src/dotLessen/Tokenizers/ITokenizerBase.cs:362-373 | every closed string, escapes included: when the scan stops just after a matching quote, the value is the text between the quotes and the token's text is the value with both quotes around it |
| LexerProperties.BackslashSkipsNext | src/dotLessen/Tokenizers/ITokenizerBase.cs:770-775 | a backslash with input after it takes the next character, so an escaped delimiter does not close the string |
| LexerProperties.EmptyUrlValue | src/dotLessen/Tokenizers/ITokenizerBase.cs:709-725 | in `url()` the `)` is taken as the first character of the value, which is `)` |
| LexerProperties.BareUrlValue | src/dotLessen/Tokenizers/ITokenizerBase.cs:695-742 | a bare URI value is the text between the parentheses, and the token ends after the `)` |
| LexerProperties.QuotedUrlValue | src/dotLessen/Tokenizers/ITokenizerBase.cs:695-742 | a quoted URI value without escapes, closed right before `)`, is the text between the quotes, and the token ends after the `)` |
| LexerProperties.ClosedUrlValue | src/dotLessen/Tokenizers/ITokenizerBase.cs:695-742 | every closed quoted value right after `uri(`/`url(`, escapes included, is the text between the quotes, and the token runs at least past the closing quote |
| LexerProperties.QuotedUriScan | src/dotLessen/Tokenizers/ITokenizerBase.cs:699-706 | a quote right after the parenthesis makes the URI value the string ParseString reads after it |
| LexerProperties.LineCommentValue | src/dotLessen/Tokenizers/ITokenizerBase.cs:140-166 | `//` gives a Comment whose value runs to the line end (not included) or the end, and whose clean text is `/*` + value + `*/` |
| LexerProperties.LineCommentCleanDiffers | src/dotLessen/Tokens/StringValueToken.cs:59-62 | the clean text of a `//` comment differs from its text |
| LexerProperties.ClosedBlockScan | src/dotLessen/Tokenizers/ITokenizerBase.cs:175-186 | with no `*/` before a `*/` at j (other stars allowed), the block comment scan stops at j, its value ending there |
| LexerProperties.BlockScanFirstClose | src/dotLessen/Tokenizers/ITokenizerBase.cs:175-186 | the value of a block comment holds no `*/`: the scan stops at the first closing marker |
| LexerProperties.BlockCommentValue | src/dotLessen/Tokenizers/ITokenizerBase.cs:168-200 | the value lies between the markers; closed, the clean text is the text; unclosed, the clean text gains `*/` |
| LexerProperties.BraceScanFirstClose | src/dotLessen/Tokenizers/ITokenizerBase.cs:383-394 | the name of `${...}` contains no `}` |
| LexerProperties.BracedVariableValue | src/dotLessen/Tokenizers/ITokenizerBase.cs:377-408 | `${` gives a Variable whose value runs to the first `}` (the token ends after it) or to the end of input |
| LexerProperties.LetterVariableValue | src/dotLessen/Tokenizers/ITokenizerBase.cs:410-440 | `$` and a letter gives a Variable whose value is the maximal letter run |
| LexerProperties.DigitStringConcat | src/dotLessen/Tokenizers/ITokenizerBase.cs:602-623 | the value of a concatenation of digit strings is the first shifted by the second's length plus the second |
| LexerProperties.DigitsFromIsDigitString | src/dotLessen/Tokenizers/ITokenizerBase.cs:597-631 | the accumulator loop from n0 over a digit range is n0 shifted plus the digits' value |
| LexerProperties.NumberValueIsAllDigits | src/dotLessen/Tokenizers/ITokenizerBase.cs:593-635 | the value is sign times all integer and fraction digits as one integer, scaled by the number of fraction digits |
| LexerProperties.NumberTokenValue | src/dotLessen/Tokenizers/ITokenizerBase.cs:591-688 | a number token's value is that triple for the runs it reads, all within the token |
| LexerProperties.TrailingDotKeepsValue | src/dotLessen/Tokenizers/ITokenizerBase.cs:611-633 | a `.` with no digits after it is consumed and the value is the integer digits with scale 0 |
| LexerProperties.DigitsFromNonNegative | src/dotLessen/Tokenizers/ITokenizerBase.cs:597-609 | over digits the accumulator never goes negative |
| LexerProperties.NumberMagnitudeNonNegative | src/dotLessen/Tokenizers/ITokenizerBase.cs:591-635 | the magnitude of a number is never negative; the sign alone is signum |
| LexerProperties.NumberSuffixKind | src/dotLessen/Tokenizers/ITokenizerBase.cs:637-687 | `%` gives a Percentage, a letter a Dimension, anything else a Number (each both directions). A Dimension's unit is the maximal letter run and its text is the number's text followed by the unit |
| LexerProperties.PlainTokenStrings | src/dotLessen/Tokens/Token.cs:113-130 | a base token shows "whitespace" alone for Whitespace and "name: text" otherwise; its clean text is its text |
| LexerProperties.StringValueTokenStrings | src/dotLessen/Tokens/StringValueToken.cs:48-62 | a StringValueToken shows "name: value"; its clean text is `/*` + value + `*/` for a Comment and its text otherwise |
| LexerProperties.UriTokenStrings | src/dotLessen/Tokens/UriToken.cs:24-28 | a UriToken shows "uri: " + value and its clean text is its text |
| LexerProperties.NumericTokenStrings | src/dotLessen/Tokens/NumericToken.cs:24-28 | numeric tokens inherit "name: text" and the text as clean text |
| Scenarios.DelimitersScenario | src/dotLessen.Tests/TokenizerTest.cs:86-99 | `{}()[]:;,` is nine Delimiters |
| Scenarios.WhitespaceScenario | src/dotLessen.Tests/TokenizerTest.cs:105-118 | `" \t \r\n"` is one Whitespace token |
| Scenarios.LineCommentScenario | src/dotLessen.Tests/TokenizerTest.cs:146-160 | `// Singleline comment` is one Comment over the input |
| Scenarios.AtIdentifierScenario | src/dotLessen.Tests/TokenizerTest.cs:166-180 | `@import` is one AtIdentifier |
| Scenarios.IdentifierScenario | src/dotLessen.Tests/TokenizerTest.cs:186-200 | `someidentifier` is one Identifier |
| Scenarios.OperatorTokens | src/dotLessen.Tests/TokenizerTest.cs:206-219 | each character of `+-.*/` is a one-character Operator where it stands |
| Scenarios.OperatorsScenario | src/dotLessen.Tests/TokenizerTest.cs:206-219 | `+-.*/` is five Operators |
| Scenarios.NumberScenario | src/dotLessen.Tests/TokenizerTest.cs:225-239 | `123.45` is one Number with value (1, 12345, 2) |
| Scenarios.PercentageScenario | src/dotLessen.Tests/TokenizerTest.cs:245-259 | `123.45%` is one Percentage with value (1, 12345, 2) |
| Scenarios.DimensionScenario | src/dotLessen.Tests/TokenizerTest.cs:265-279 | `123.45px` is one Dimension with value (1, 12345, 2) and unit `px` |
| Scenarios.CDataOpenScenario | src/dotLessen.Tests/TokenizerTest.cs:285-299 | `<!--` is one CDataOpen |
| Scenarios.CDataCloseScenario | src/dotLessen.Tests/TokenizerTest.cs:305-319 | `-->` is one CDataClose |
| Scenarios.DoubleQuotedScenario | src/dotLessen.Tests/TokenizerTest.cs:325-339 | `"test"` is one String with value `test` |
| Scenarios.SingleQuotedScenario | src/dotLessen.Tests/TokenizerTest.cs:345-359 | `'test'` is one String with value `test` |
| Scenarios.FunctionScenario | src/dotLessen.Tests/TokenizerTest.cs:365-379 | `functionName(` is one Function |
| Scenarios.BareUrlScenario | src/dotLessen.Tests/TokenizerTest.cs:385-399 | `url(someurl)` is one Uri with value `someurl` |
| Scenarios.DoubleQuotedUrlScenario | src/dotLessen.Tests/TokenizerTest.cs:405-419 | `url("someurl")` is one Uri with value `someurl` |
| Scenarios.SingleQuotedUrlScenario | src/dotLessen.Tests/TokenizerTest.cs:425-439 | `url('someurl')` is one Uri with value `someurl` |
| Scenarios.VariableScenario | src/dotLessen.Tests/TokenizerTest.cs:445-459 | `$variableName` is one Variable with value `variableName` |
| Scenarios.HashNameScenario | src/dotLessen.Tests/TokenizerTest.cs:465-479 | `#someid` is one HashName |

## Left out

- CharClass.IsWhitespace: the .NET whitespace set without U+180E. CharClass.IsDigit and CharClass.IsLetter cover only ASCII digits and the ASCII and Latin-1 letters, because the .NET Unicode category tables are outside the model. The engine's `c - '0'` is only a digit value for ASCII digits anyway.
- Strings are Dafny `char` sequences (Unicode scalar values), not UTF-16 code units, so surrogate pairs are not modelled.
- Tokenizer.StringTokenizer.ParseNumber: the value is the exact triple (sign, digits, scale). It does not model the `double` division, its `decimal` conversion or the wrap-around of the 32-bit accumulator on long digit runs.
- `Dispose`, `OnDisposing`, the finalizer call and the non-generic `IEnumerator.Current` are lifecycle plumbing, not lexing. `Current` is the `current` field, with `None` for null.
- LexerProperties.ClosedUrlValue: stated for a quote right after `uri(` or `url(`. When whitespace comes before the quote, the value is still the string read after it, but no lemma states it.
- Tokenizer.StringTokenizer.constructor: requires `0 <= start <= end <= |text|`. The source accepts any bounds. With `start > end` it gives an empty token stream, because `HasMoreChar` is false from the start. With bounds outside the text it throws on the first character read. Neither case is modelled: the invariant `start <= next <= end` is what all the cursor proofs rest on.
- The `localTextOffset` and `TokenizerOptions` constructor arguments go to a base constructor whose code is not part of this model, and `MoveNext` never reads them. The constructors take the text and range only. TokenizerOptions.cs and ITokenizer.cs (a marker interface) are not part of this model.
- Tokenizer.StringTokenizer.Flush: only the string backing exists, where flushing does nothing. The streaming semantics of the flush flag are not modelled.
- The token records are immutable values. The public setters of `UnquotedString`, `Prefix`, `Number` and `Unit`, which nothing in the core calls, are not modelled.
- The long CSS sample (`CssTokenize`) and the three-line block comment of the test suite are not restated as scenarios. Their tokens follow from the branch lemmas (`WhitespaceIsMaximalRun`, `DelimiterIsOneChar`, `HashNameToken`, `NumberSuffixKind`, `BlockCommentValue`, ...).
- Lookahead.LookOverUnicodeChar is modelled, but the engine never calls it.
