/** The token types of scanner.h: the TokenType enumeration, the plain Token
    class and its ExtendedToken instantiations for bool, int64, double and
    string values. */
module Tokens {
  import opened Wrappers
  import opened Positions

  /** TokenType; each kind is an enumerator whose value is a character. */
  datatype TokenType =
    | NIL | BOOL | INT | FLOAT | STRING
    | LSQUARE | RSQUARE | LCURLY | RCURLY | COMMA | COLON
    | COMMENT | END

  /** The character each TokenType enumerator is defined as. */
  function TypeChar(t: TokenType): char {
    match t
    case NIL => 'n'
    case BOOL => 'b'
    case INT => 'i'
    case FLOAT => 'f'
    case STRING => 's'
    case LSQUARE => '['
    case RSQUARE => ']'
    case LCURLY => '{'
    case RCURLY => '}'
    case COMMA => ','
    case COLON => ':'
    case COMMENT => 'c'
    case END => '$'
  }

  /** The characters the scanner turns into a token by casting them to
      TokenType. */
  predicate IsStructural(c: char) {
    c in "[]{},:"
  }

  /** `static_cast<TokenType>(c)` for a structural character. */
  function StructuralType(c: char): (t: TokenType)
    requires IsStructural(c)
    ensures TypeChar(t) == c
  {
    if c == '[' then LSQUARE
    else if c == ']' then RSQUARE
    else if c == '{' then LCURLY
    else if c == '}' then RCURLY
    else if c == ',' then COMMA
    else COLON
  }

  /** Distinct kinds are distinct characters, so the cast is well defined. */
  lemma TypeCharInjective(a: TokenType, b: TokenType)
    ensures TypeChar(a) == TypeChar(b) <==> a == b
  {
  }

  /** The concrete class of a token and its value: a plain Token of any kind,
      or one of the four ExtendedToken instantiations. A double is modelled
      by the exact real number it approximates. */
  datatype TokenData =
    | Plain(kind: TokenType)
    | BoolToken(b: bool)
    | IntToken(i: int)
    | FloatToken(f: real)
    | StringToken(s: string)

  /** The `type` field of a token: fixed per instantiation for extended
      tokens. */
  function TypeOf(d: TokenData): (t: TokenType)
    ensures d.BoolToken? ==> t == BOOL
    ensures d.IntToken? ==> t == INT
    ensures d.FloatToken? ==> t == FLOAT
    ensures d.StringToken? ==> t == STRING
  {
    match d
    case Plain(k) => k
    case BoolToken(_) => BOOL
    case IntToken(_) => INT
    case FloatToken(_) => FLOAT
    case StringToken(_) => STRING
  }

  /** A token with its start and end positions. */
  datatype Token = Token(data: TokenData, start: SourcePos, end: SourcePos)

  /** A token's type. */
  function Kind(t: Token): TokenType {
    TypeOf(t.data)
  }

  /** `a == b`, dispatched on the dynamic class of `a`: a plain Token
      compares types only; an extended token requires `b` to be of the same
      instantiation with an equal value. Positions are never compared. */
  predicate TokenEq(a: Token, b: Token) {
    match a.data
    case Plain(k) => k == Kind(b)
    case BoolToken(x) => b.data.BoolToken? && b.data.b == x
    case IntToken(x) => b.data.IntToken? && b.data.i == x
    case FloatToken(x) => b.data.FloatToken? && b.data.f == x
    case StringToken(x) => b.data.StringToken? && b.data.s == x
  }

  /** `!=`. */
  predicate TokenNe(a: Token, b: Token) {
    !TokenEq(a, b)
  }

  /** ExtendedToken::clone: a token of the same class, value and span. */
  function Clone(t: Token): (c: Token)
    ensures c.data == t.data && c.start == t.start && c.end == t.end
  {
    Token(t.data, t.start, t.end)
  }

  /** Equality ignores positions and is reflexive; two extended tokens are
      equal exactly when they have the same class and value. A float value
      here is a real number: a NaN, which the C++ double `==` finds unequal
      to itself, is not represented. */
  lemma TokenEqProperties(a: Token, b: Token, p: SourcePos, q: SourcePos)
    ensures TokenEq(a, a)
    ensures TokenEq(a, b) <==> TokenEq(a, b.(start := p, end := q))
    ensures !a.data.Plain? && !b.data.Plain? ==> (TokenEq(a, b) <==> a.data == b.data)
    ensures TokenEq(a, b) ==> Kind(a) == Kind(b)
    ensures TokenNe(a, b) <==> !TokenEq(a, b)
  {
  }

  /** The comparison is not symmetric: a plain token of kind INT equals every
      int token, but an int token does not equal a plain one. */
  lemma TokenEqAsymmetric(p: SourcePos)
    ensures var plain := Token(Plain(INT), p, p);
            var five := Token(IntToken(5), p, p);
            TokenEq(plain, five) && !TokenEq(five, plain)
  {
  }

  /** A clone compares equal to its original in both directions. */
  lemma CloneEqual(t: Token)
    ensures TokenEq(Clone(t), t) && TokenEq(t, Clone(t))
    ensures Same(Clone(t).start, t.start) && Same(Clone(t).end, t.end)
  {
  }
}
