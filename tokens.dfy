// The token records: Token, StringValueToken, NumericToken,
// NumericWithUnitToken and UriToken, as one datatype whose payload variant
// stands for the subclass, with ToString and GetCleanText.

module Tokens {
  import opened TokenKinds

  datatype Option<T> = None | Some(value: T)

  function Pow10(n: nat): (p: nat)
    ensures p >= 1
  {
    if n == 0 then 1 else 10 * Pow10(n - 1)
  }

  /** An exact decimal number: signum * magnitude / 10^scale. The engine
      builds the magnitude from digits only, so it is never negative. */
  datatype Decimal = Decimal(signum: int, magnitude: int, scale: nat)

  /** Two decimals denote the same rational number. */
  predicate SameValue(a: Decimal, b: Decimal)
  {
    a.signum * a.magnitude * Pow10(b.scale) == b.signum * b.magnitude * Pow10(a.scale)
  }

  /** What a token carries beyond kind, span and text; the variant says which
      record class the source builds. */
  datatype Payload =
    | Plain                                            // Token
    | Numeric(number: Decimal)                         // NumericToken
    | NumericWithUnit(number: Decimal, unit: string)   // NumericWithUnitToken
    | StringValue(unquoted: string)                    // StringValueToken
    | UriValue(prefix: string, unquoted: string)       // UriToken

  /** An immutable token: kind, source span [start, end) and its text. */
  datatype Token = Token(kind: TokenKind, start: int, end: int, text: string, payload: Payload)
  {
    /** The record is a StringValueToken (or its UriToken subclass). */
    predicate HasStringValue()
    {
      payload.StringValue? || payload.UriValue?
    }
  }

  /** new UriToken(start, end, text, prefix, value): the kind is always Uri. */
  function NewUriToken(start: int, end: int, text: string, prefix: string, value: string): (t: Token)
    ensures t.kind == Uri && t.start == start && t.end == end && t.text == text
    ensures t.payload.UriValue? && t.payload.prefix == prefix && t.payload.unquoted == value
  {
    Token(Uri, start, end, text, UriValue(prefix, value))
  }

  /** The UnquotedString of a StringValueToken. */
  function UnquotedString(t: Token): string
    requires t.HasStringValue()
  {
    t.payload.unquoted
  }

  /** ToString: a StringValueToken shows its value after the kind name; any
      other record shows its text, except that a Whitespace token shows the
      kind name alone. */
  function ToString(t: Token): string
  {
    if t.HasStringValue() then TypeToString(t.kind) + ": " + UnquotedString(t)
    else if t.kind == Whitespace then TypeToString(t.kind)
    else TypeToString(t.kind) + ": " + t.text
  }

  /** GetCleanText: a comment held in a StringValueToken is rebuilt as a block
      comment around its value; every other token gives its text unchanged. */
  function GetCleanText(t: Token): string
  {
    if t.HasStringValue() && t.kind == Comment then "/*" + UnquotedString(t) + "*/" else t.text
  }
}
