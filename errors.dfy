/** The exceptions of exceptions.h, as values. Every error carries a start
    and an end position; the C++ message text of UnexpectedToken is built
    from token representations and is not modelled, the scanner's messages
    are. */
module Errors {
  import opened Positions
  import opened Tokens

  datatype Exception =
    /** TokenizerError: a message and the span it was raised for. */
    | TokenizerError(msg: string, span: (SourcePos, SourcePos))
    /** UnexpectedToken, a ParserError: the rejected token (a clone) and the
        token types that would have been accepted, in order. */
    | UnexpectedToken(token: Token, expected: seq<TokenType>)

  /** BaseException::start. A ParserError is always built with the default,
      invalid positions. */
  function Start(e: Exception): (p: SourcePos)
    ensures e.UnexpectedToken? ==> p == Invalid() && !IsValid(p)
  {
    match e
    case TokenizerError(_, span) => span.0
    case UnexpectedToken(_, _) => Invalid()
  }

  /** BaseException::end. */
  function End(e: Exception): (p: SourcePos)
    ensures e.UnexpectedToken? ==> p == Invalid() && !IsValid(p)
  {
    match e
    case TokenizerError(_, span) => span.1
    case UnexpectedToken(_, _) => Invalid()
  }

  /** The TokenizerError constructor. */
  function Tokenizer(msg: string, start: SourcePos, end: SourcePos): (e: Exception)
    ensures e.TokenizerError? && e.msg == msg
    ensures Start(e) == start && End(e) == end
  {
    TokenizerError(msg, (start, end))
  }

  /** The UnexpectedToken constructor: keeps a clone of the token and the
      expected types unchanged. */
  function Unexpected(tok: Token, expected: seq<TokenType>): (e: Exception)
    ensures e.UnexpectedToken? && e.expected == expected
    ensures TokenEq(e.token, tok) && e.token.start == tok.start && e.token.end == tok.end
    ensures Kind(e.token) == Kind(tok)
  {
    CloneEqual(tok);
    UnexpectedToken(Clone(tok), expected)
  }
}
