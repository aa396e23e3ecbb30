/** The incremental parser of parser.cpp, as a function on an abstract
    configuration: the containers still open, innermost last, and what the
    innermost one is waiting for. `StateStack` and `NodeStack` spell a configuration
    out as the two stacks the C++ class keeps, so the class can be proved
    against `Step`. */
module ParseModel {
  import opened Wrappers
  import opened Positions
  import opened Tokens
  import opened Errors
  import opened Nodes

  /** ParserState: the obligations on the `states` stack. */
  datatype ParserState =
    | JSON | JSON_END | STRING | LIST | LIST_END | PAIR | PAIR_END | OBJECT | OBJECT_END

  /** A container being filled: a list with the items read so far, or an
      object with its pairs and the key whose value is being read. */
  datatype Frame =
    | ListFrame(items: seq<Node>)
    | PairFrame(pairs: seq<Pair>, key: string)

  /** What the innermost open construct waits for. */
  datatype Top =
    /** A value (state JSON). */
    | Expect
    /** A value has been read; `pending` when its JSON_END is still on the
        stack, which is so for a list or object just closed. */
    | Complete(value: Node, pending: bool)
    /** '[' has been read: ']' or the first item. */
    | ListOpen
    /** '{' has been read: '}' or the first key. */
    | ObjOpen
    /** A key (state STRING over PAIR). */
    | KeyWait(pairs: seq<Pair>)
    /** The colon after a key (state PAIR). */
    | ColonWait(pairs: seq<Pair>, key: string)
    /** ',' or '}' after a pair (state OBJECT_END). */
    | AfterPair(pairs: seq<Pair>)
    /** The root value has been taken by pop_result. */
    | Spent

  datatype Config = Config(frames: seq<Frame>, top: Top)

  /** Only the root can have been taken away. */
  predicate WellFormed(c: Config) {
    c.top.Spent? ==> c.frames == []
  }

  /** The configuration of a new parser: states = [JSON], no nodes. */
  function Initial(): (c: Config)
    ensures WellFormed(c) && c.frames == [] && c.top.Expect?
  {
    Config([], Expect)
  }

  function FrameStates(f: Frame): seq<ParserState> {
    match f
    case ListFrame(_) => [JSON_END, LIST_END]
    case PairFrame(_, _) => [JSON_END, OBJECT_END, PAIR_END]
  }

  function FrameNodes(f: Frame): seq<Node> {
    match f
    case ListFrame(items) => [List(items)]
    case PairFrame(pairs, key) => [Object(pairs), Str(key)]
  }

  function TopStates(t: Top): seq<ParserState> {
    match t
    case Expect => [JSON]
    case Complete(_, pending) => if pending then [JSON_END] else []
    case ListOpen => [JSON_END, ParserState.LIST]
    case ObjOpen => [JSON_END, ParserState.OBJECT]
    case KeyWait(_) => [JSON_END, OBJECT_END, ParserState.PAIR, ParserState.STRING]
    case ColonWait(_, _) => [JSON_END, OBJECT_END, ParserState.PAIR]
    case AfterPair(_) => [JSON_END, OBJECT_END]
    case Spent => []
  }

  function TopNodes(t: Top): seq<Node> {
    match t
    case Complete(v, _) => [v]
    case KeyWait(pairs) => [Object(pairs)]
    case ColonWait(pairs, key) => [Object(pairs), Str(key)]
    case AfterPair(pairs) => [Object(pairs)]
    case _ => []
  }

  function FramesStates(fs: seq<Frame>): seq<ParserState> {
    if fs == [] then [] else FramesStates(fs[..|fs| - 1]) + FrameStates(fs[|fs| - 1])
  }

  function FramesNodes(fs: seq<Frame>): seq<Node> {
    if fs == [] then [] else FramesNodes(fs[..|fs| - 1]) + FrameNodes(fs[|fs| - 1])
  }

  /** The `states` stack of a configuration, bottom first. */
  function StateStack(c: Config): seq<ParserState> {
    FramesStates(c.frames) + TopStates(c.top)
  }

  /** The `nodes` stack of a configuration, bottom first. */
  function NodeStack(c: Config): seq<Node> {
    FramesNodes(c.frames) + TopNodes(c.top)
  }

  /** A token whose class matches its type: the value of a bool, int, float
      or string token is read through a cast to its ExtendedToken class. */
  predicate WellTyped(tok: Token) {
    Kind(tok) in {TokenType.BOOL, TokenType.INT, TokenType.FLOAT, TokenType.STRING} ==> !tok.data.Plain?
  }

  /** The node built from a value token. */
  function LeafNode(d: TokenData): (n: Node)
    requires !d.Plain?
    ensures d.BoolToken? ==> n == Bool(d.b)
    ensures d.IntToken? ==> n == Int(d.i)
    ensures d.FloatToken? ==> n == Float(d.f)
    ensures d.StringToken? ==> n == Str(d.s)
  {
    match d
    case BoolToken(b) => Bool(b)
    case IntToken(i) => Int(i)
    case FloatToken(f) => Float(f)
    case StringToken(s) => Str(s)
  }

  /** The kinds the JSON state lists when it rejects a token. */
  const ValueStarts: seq<TokenType> := [LSQUARE, LCURLY, TokenType.INT, TokenType.FLOAT, TokenType.STRING]

  /** How many times a token can still be re-fed from this top. */
  function TopRank(t: Top): nat {
    match t
    case Complete(_, pending) => if pending then 2 else 1
    case ListOpen => 1
    case ObjOpen => 1
    case _ => 0
  }

  /** Parser::feed on one token: the next configuration, or the
      UnexpectedToken it throws. A token that pops JSON_END or PAIR_END,
      or that opens the first item of a list or the first pair of an
      object, is fed again to the configuration that results. */
  function Step(c: Config, tok: Token): (r: Result<Config, Exception>)
    requires WellTyped(tok)
    ensures r.Failure? ==> r.error.UnexpectedToken?
    ensures r.Success? && WellFormed(c) ==> WellFormed(r.value)
    decreases TopRank(c.top)
  {
    var k := Kind(tok);
    match c.top
    case Expect =>
      if k == LSQUARE then Success(c.(top := ListOpen))
      else if k == LCURLY then Success(c.(top := ObjOpen))
      else if k == TokenType.NIL then Success(c.(top := Complete(Null, false)))
      else if k in {TokenType.BOOL, TokenType.INT, TokenType.FLOAT, TokenType.STRING} then Success(c.(top := Complete(LeafNode(tok.data), false)))
      else Failure(Unexpected(tok, ValueStarts))
    case Complete(v, pending) =>
      if pending then Step(c.(top := Complete(v, false)), tok)
      else if c.frames == [] then
        if k == END then Success(c) else Failure(Unexpected(tok, [END]))
      else
        var outer := c.frames[..|c.frames| - 1];
        match c.frames[|c.frames| - 1] {
          case ListFrame(items) =>
            if k == RSQUARE then Success(Config(outer, Complete(List(items + [v]), true)))
            else if k == COMMA then Success(Config(outer + [ListFrame(items + [v])], Expect))
            else Failure(Unexpected(tok, [RSQUARE, COMMA]))
          case PairFrame(pairs, key) =>
            Step(Config(outer, AfterPair(pairs + [Pair(key, v)])), tok)
        }
    case ListOpen =>
      if k == RSQUARE then Success(c.(top := Complete(List([]), true)))
      else Step(Config(c.frames + [ListFrame([])], Expect), tok)
    case ObjOpen =>
      if k == RCURLY then Success(c.(top := Complete(Object([]), true)))
      else Step(c.(top := KeyWait([])), tok)
    case KeyWait(pairs) =>
      if k == TokenType.STRING then Success(c.(top := ColonWait(pairs, tok.data.s)))
      else Failure(Unexpected(tok, [TokenType.STRING]))
    case ColonWait(pairs, key) =>
      if k == COLON then Success(Config(c.frames + [PairFrame(pairs, key)], Expect))
      else Failure(Unexpected(tok, [COLON]))
    case AfterPair(pairs) =>
      if k == RCURLY then Success(c.(top := Complete(Object(pairs), true)))
      else if k == COMMA then Success(c.(top := KeyWait(pairs)))
      else Failure(Unexpected(tok, [RCURLY, COMMA]))
    case Spent =>
      if k == END then Success(c) else Failure(Unexpected(tok, [END]))
  }

  /** Parser::is_finished on the configuration: one node, no obligation. */
  predicate Finished(c: Config) {
    |NodeStack(c)| == 1 && StateStack(c) == []
  }

  /** The obligation on top of the stack, when there is one. */
  function TopState(c: Config): Option<ParserState> {
    match c.top
    case Expect => Some(JSON)
    case Complete(_, pending) =>
      if pending then Some(JSON_END)
      else if c.frames == [] then None
      else if c.frames[|c.frames| - 1].ListFrame? then Some(LIST_END)
      else Some(PAIR_END)
    case ListOpen => Some(ParserState.LIST)
    case ObjOpen => Some(ParserState.OBJECT)
    case KeyWait(_) => Some(ParserState.STRING)
    case ColonWait(_, _) => Some(ParserState.PAIR)
    case AfterPair(_) => Some(OBJECT_END)
    case Spent => None
  }

  /** The stacks are non-empty exactly when there is a top obligation, and
      then `TopState` is the last entry of `states`. */
  lemma {:induction false} TopStateIsLast(c: Config)
    requires WellFormed(c)
    ensures StateStack(c) == [] <==> TopState(c).None?
    ensures StateStack(c) != [] ==> StateStack(c)[|StateStack(c)| - 1] == TopState(c).value
  {
    var fs := c.frames;
    if fs != [] {
      assert FramesStates(fs) == FramesStates(fs[..|fs| - 1]) + FrameStates(fs[|fs| - 1]);
    }
  }

  /** is_finished holds exactly for a root value whose JSON_END, if any, has
      been popped. */
  lemma {:induction false} FinishedIsRootValue(c: Config)
    requires WellFormed(c)
    ensures Finished(c) <==> c.frames == [] && c.top.Complete? && !c.top.pending
  {
    TopStateIsLast(c);
  }
}
