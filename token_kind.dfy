// The closed set of token kinds (TokenTypeEnum) and their display names
// (Token.TypeToString).

module TokenKinds {

  /** The 19 token kinds, in declaration order. Invalid and Color are
      declared but never produced by the engine. */
  datatype TokenKind =
    | Invalid
    | Whitespace
    | Comment
    | Delimiter
    | Operator
    | CDataOpen
    | CDataClose
    | Identifier
    | AtIdentifier
    | HashName
    | Function
    | Variable
    | String
    | Uri
    | Number
    | Percentage
    | Dimension
    | UnicodeRange
    | Color

  /** The integer value the enum declaration gives each kind. */
  function Ordinal(k: TokenKind): (n: nat)
    ensures n < 19
  {
    match k
    case Invalid => 0
    case Whitespace => 1
    case Comment => 2
    case Delimiter => 3
    case Operator => 4
    case CDataOpen => 5
    case CDataClose => 6
    case Identifier => 7
    case AtIdentifier => 8
    case HashName => 9
    case Function => 10
    case Variable => 11
    case String => 12
    case Uri => 13
    case Number => 14
    case Percentage => 15
    case Dimension => 16
    case UnicodeRange => 17
    case Color => 18
  }

  /** The kind an enum value in range stands for. */
  function FromOrdinal(n: nat): (k: TokenKind)
    requires n < 19
    ensures Ordinal(k) == n
  {
    [Invalid, Whitespace, Comment, Delimiter, Operator, CDataOpen, CDataClose,
     Identifier, AtIdentifier, HashName, Function, Variable, String, Uri,
     Number, Percentage, Dimension, UnicodeRange, Color][n]
  }

  /** Ordinal and FromOrdinal are inverse: the enum has exactly 19 distinct
      values 0..18. */
  lemma OrdinalRoundTrip(k: TokenKind)
    ensures FromOrdinal(Ordinal(k)) == k
  {
  }

  lemma OrdinalInjective(k1: TokenKind, k2: TokenKind)
    ensures Ordinal(k1) == Ordinal(k2) ==> k1 == k2
  {
    OrdinalRoundTrip(k1);
    OrdinalRoundTrip(k2);
  }

  /** TypeToString on a kind of the enum. */
  function TypeToString(k: TokenKind): (name: string)
    ensures name != "unknown" && |name| > 0
  {
    match k
    case Invalid => "invalid"
    case Whitespace => "whitespace"
    case Comment => "comment"
    case Delimiter => "delimiter"
    case Operator => "operator"
    case CDataOpen => "cdata-open"
    case CDataClose => "cdata-close"
    case Identifier => "identifier"
    case AtIdentifier => "@identifier"
    case HashName => "#name"
    case Function => "function"
    case Variable => "variable"
    case String => "string"
    case Uri => "uri"
    case Number => "number"
    case Percentage => "percentage"
    case Dimension => "dimension"
    case UnicodeRange => "unicode-range"
    case Color => "color"
  }

  /** TypeToString on a raw enum value: "unknown" exactly for the values that
      are not one of the 19 declared kinds. */
  function TypeToStringOfValue(v: int): (name: string)
    ensures name == "unknown" <==> !(0 <= v < 19)
    ensures 0 <= v < 19 ==> name == TypeToString(FromOrdinal(v))
  {
    if 0 <= v < 19 then TypeToString(FromOrdinal(v)) else "unknown"
  }

  /** Distinct kinds have distinct display names. */
  lemma TypeToStringInjective(k1: TokenKind, k2: TokenKind)
    ensures TypeToString(k1) == TypeToString(k2) ==> k1 == k2
  {
  }
}
