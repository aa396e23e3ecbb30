/** What the parser accepts and builds: the token kinds each obligation
    accepts and lists when it rejects one, and the round trip from a
    document to its tokens and back. */
module ParseFacts {
  import opened Wrappers
  import opened Positions
  import opened Tokens
  import opened Errors
  import opened Nodes
  import opened ParseModel

  /** A new parser owes a value and is not finished. */
  lemma NewParserNotFinished()
    ensures !Finished(Initial())
    ensures StateStack(Initial()) == [JSON] && NodeStack(Initial()) == []
  {
    FinishedIsRootValue(Initial());
  }

  /** The token kinds each configuration accepts, obligation by obligation. */
  function Accepted(c: Config): set<TokenType> {
    var values := {LSQUARE, LCURLY, TokenType.NIL, TokenType.BOOL, TokenType.INT, TokenType.FLOAT, TokenType.STRING};
    match c.top
    case Expect => values
    case Complete(_, _) =>
      if c.frames == [] then {END}
      else if c.frames[|c.frames| - 1].ListFrame? then {RSQUARE, COMMA}
      else {RCURLY, COMMA}
    case ListOpen => {RSQUARE} + values
    case ObjOpen => {RCURLY, TokenType.STRING}
    case KeyWait(_) => {TokenType.STRING}
    case ColonWait(_, _) => {COLON}
    case AfterPair(_) => {RCURLY, COMMA}
    case Spent => {END}
  }

  /** The kinds an UnexpectedToken lists for each configuration. */
  function Expected(c: Config): seq<TokenType> {
    match c.top
    case Expect => ValueStarts
    case Complete(_, _) =>
      if c.frames == [] then [END]
      else if c.frames[|c.frames| - 1].ListFrame? then [RSQUARE, COMMA]
      else [RCURLY, COMMA]
    case ListOpen => ValueStarts
    case ObjOpen => [TokenType.STRING]
    case KeyWait(_) => [TokenType.STRING]
    case ColonWait(_, _) => [COLON]
    case AfterPair(_) => [RCURLY, COMMA]
    case Spent => [END]
  }

  /** A token is rejected exactly when its kind is not accepted, and the
      error carries a clone of the token and the configuration's list. */
  lemma {:induction false} StepRejects(c: Config, tok: Token)
    requires WellTyped(tok)
    ensures Step(c, tok).Failure? <==> Kind(tok) !in Accepted(c)
    ensures Step(c, tok).Failure? ==> Step(c, tok).error == Unexpected(tok, Expected(c))
    decreases TopRank(c.top)
  {
    match c.top
    case Complete(v, pending) =>
      if pending {
        StepRejects(c.(top := Complete(v, false)), tok);
      } else if c.frames != [] && c.frames[|c.frames| - 1].PairFrame? {
        var f := c.frames[|c.frames| - 1];
        StepRejects(Config(c.frames[..|c.frames| - 1], AfterPair(f.pairs + [Pair(f.key, v)])), tok);
      }
    case ListOpen =>
      StepRejects(Config(c.frames + [ListFrame([])], Expect), tok);
    case ObjOpen =>
      StepRejects(c.(top := KeyWait([])), tok);
    case _ =>
  }

  /** Every kind an error lists would have been accepted; the converse
      fails only where a value is owed: null and bool tokens are accepted
      there but not listed, and so are "]" right after "[" and "}" right
      after "{". */
  lemma ExpectedAreAccepted(c: Config)
    ensures forall k :: k in Expected(c) ==> k in Accepted(c)
    ensures forall k :: k in Accepted(c) && k !in Expected(c) ==>
      (k in {TokenType.NIL, TokenType.BOOL} && (c.top.Expect? || c.top.ListOpen?)) ||
      (k == RSQUARE && c.top.ListOpen?) || (k == RCURLY && c.top.ObjOpen?)
  {
  }

  /** Feeds tokens one after the other, stopping at the first error. */
  function Run(c: Config, toks: seq<Token>): Result<Config, Exception>
    requires forall t <- toks :: WellTyped(t)
    decreases |toks|
  {
    if toks == [] then Success(c)
    else match Step(c, toks[0])
      case Failure(e) => Failure(e)
      case Success(c1) => Run(c1, toks[1..])
  }

  /** Running two token sequences in a row. */
  lemma {:induction false} RunAppend(c: Config, a: seq<Token>, b: seq<Token>)
    requires forall t <- a :: WellTyped(t)
    requires forall t <- b :: WellTyped(t)
    ensures forall t <- a + b :: WellTyped(t)
    ensures Run(c, a + b) == match Run(c, a)
      case Failure(e) => Failure(e)
      case Success(c1) => Run(c1, b)
    decreases |a|
  {
    if a == [] {
      assert a + b == b;
    } else {
      assert (a + b)[0] == a[0];
      assert (a + b)[1..] == a[1..] + b;
      if Step(c, a[0]).Success? {
        RunAppend(Step(c, a[0]).value, a[1..], b);
      }
    }
  }

  /** A tree the parser can build: pairs only inside objects. */
  predicate Document(v: Node) {
    match v
    case List(xs) => forall i :: 0 <= i < |xs| ==> Document(xs[i])
    case PairNode(_) => false
    case Object(ps) => forall i :: 0 <= i < |ps| ==> Document(ps[i].value)
    case _ => true
  }

  predicate IsContainer(v: Node) {
    v.List? || v.Object?
  }

  /** A token with both ends at `p`. */
  function At(d: TokenData, p: SourcePos): (t: Token)
    ensures t.data == d
  {
    Token(d, p, p)
  }

  /** The tokens of a document, every one positioned at `p`. */
  function TokensOf(v: Node, p: SourcePos): (r: seq<Token>)
    requires Document(v)
    ensures r != [] && Kind(r[0]) != RSQUARE && Kind(r[0]) != RCURLY
    ensures forall t <- r :: WellTyped(t)
    decreases v
  {
    match v
    case Null => [At(Plain(TokenType.NIL), p)]
    case Bool(b) => [At(BoolToken(b), p)]
    case Int(i) => [At(IntToken(i), p)]
    case Float(f) => [At(FloatToken(f), p)]
    case Str(s) => [At(StringToken(s), p)]
    case List(xs) => [At(Plain(LSQUARE), p)] + ItemTokens(xs, p) + [At(Plain(RSQUARE), p)]
    case Object(ps) => [At(Plain(LCURLY), p)] + PairTokens(ps, p) + [At(Plain(RCURLY), p)]
  }

  /** The items of a list, separated by commas. */
  function ItemTokens(xs: seq<Node>, p: SourcePos): (r: seq<Token>)
    requires forall i :: 0 <= i < |xs| ==> Document(xs[i])
    ensures xs != [] ==> r != [] && Kind(r[0]) != RSQUARE
    ensures forall t <- r :: WellTyped(t)
    decreases xs
  {
    if xs == [] then []
    else TokensOf(xs[0], p) + (if |xs| == 1 then [] else [At(Plain(COMMA), p)] + ItemTokens(xs[1..], p))
  }

  /** The pairs of an object, each a key, a colon and a value, separated by
      commas. */
  function PairTokens(ps: seq<Pair>, p: SourcePos): (r: seq<Token>)
    requires forall i :: 0 <= i < |ps| ==> Document(ps[i].value)
    ensures ps != [] ==> r != [] && Kind(r[0]) == TokenType.STRING
    ensures forall t <- r :: WellTyped(t)
    decreases ps
  {
    if ps == [] then []
    else [At(StringToken(ps[0].key), p), At(Plain(COLON), p)] + TokensOf(ps[0].value, p)
         + (if |ps| == 1 then [] else [At(Plain(COMMA), p)] + PairTokens(ps[1..], p))
  }

  /** Running one token is stepping on it. */
  lemma RunOne(c: Config, t: Token)
    requires WellTyped(t)
    ensures Run(c, [t]) == Step(c, t)
  {
    assert [t][1..] == [];
  }

  /** Tokens `a` lead from `c` to `c1`, and `t` is accepted there: the run
      goes on from where `t` leads with `rest`. */
  lemma RunThrough(c: Config, a: seq<Token>, c1: Config, t: Token, rest: seq<Token>)
    requires forall t <- a :: WellTyped(t)
    requires WellTyped(t) && forall u <- rest :: WellTyped(u)
    requires Run(c, a) == Success(c1) && Step(c1, t).Success?
    ensures forall u <- a + ([t] + rest) :: WellTyped(u)
    ensures Run(c, a + ([t] + rest)) == Run(Step(c1, t).value, rest)
  {
    var b := [t] + rest;
    assert forall t <- b :: WellTyped(t) by {
      forall i | 0 <= i < |b| ensures WellTyped(b[i]) {
        if i > 0 { assert b[i] == rest[i - 1]; }
      }
    }
    RunAppend(c, a, b);
    assert b[0] == t && b[1..] == rest;
  }

  /** After "[" any token but "]" opens the first item. */
  lemma RunListOpen(fs: seq<Frame>, toks: seq<Token>)
    requires forall t <- toks :: WellTyped(t)
    requires toks != [] && Kind(toks[0]) != RSQUARE
    ensures Run(Config(fs, ListOpen), toks) == Run(Config(fs + [ListFrame([])], Expect), toks)
  {
    ListOpenStep(fs, toks[0]);
  }

  lemma ListOpenStep(fs: seq<Frame>, t: Token)
    requires WellTyped(t) && Kind(t) != RSQUARE
    ensures Step(Config(fs, ListOpen), t) == Step(Config(fs + [ListFrame([])], Expect), t)
  {
  }

  /** After "{" any token but "}" is read as the first key. */
  lemma RunObjectOpen(fs: seq<Frame>, toks: seq<Token>)
    requires forall t <- toks :: WellTyped(t)
    requires toks != [] && Kind(toks[0]) != RCURLY
    ensures Run(Config(fs, ObjOpen), toks) == Run(Config(fs, KeyWait([])), toks)
  {
    ObjectOpenStep(fs, toks[0]);
  }

  lemma ObjectOpenStep(fs: seq<Frame>, t: Token)
    requires WellTyped(t) && Kind(t) != RCURLY
    ensures Step(Config(fs, ObjOpen), t) == Step(Config(fs, KeyWait([])), t)
  {
  }

  /** A value read inside a list is appended to it by "," or "]". */
  lemma ItemDone(fs: seq<Frame>, items: seq<Node>, x: Node, pending: bool, t: Token)
    requires WellTyped(t) && Kind(t) in {COMMA, RSQUARE}
    ensures Step(Config(fs + [ListFrame(items)], Complete(x, pending)), t) ==
      if Kind(t) == COMMA then Success(Config(fs + [ListFrame(items + [x])], Expect))
      else Success(Config(fs, Complete(List(items + [x]), true)))
  {
    assert (fs + [ListFrame(items)])[..|fs|] == fs;
  }

  /** A value read inside a pair completes the pair, which "," or "}"
      appends to the object. */
  lemma PairDone(fs: seq<Frame>, pairs: seq<Pair>, key: string, x: Node, pending: bool, t: Token)
    requires WellTyped(t) && Kind(t) in {COMMA, RCURLY}
    ensures Step(Config(fs + [PairFrame(pairs, key)], Complete(x, pending)), t) ==
      if Kind(t) == COMMA then Success(Config(fs, KeyWait(pairs + [Pair(key, x)])))
      else Success(Config(fs, Complete(Object(pairs + [Pair(key, x)]), true)))
  {
    assert (fs + [PairFrame(pairs, key)])[..|fs|] == fs;
    var after := Config(fs, AfterPair(pairs + [Pair(key, x)]));
    assert Step(Config(fs + [PairFrame(pairs, key)], Complete(x, false)), t) == Step(after, t);
  }

  /** The tokens of a document, read where a value is owed, rebuild that
      document; a list or object still has its JSON_END pending. */
  lemma {:induction false} ParseValue(fs: seq<Frame>, v: Node, p: SourcePos)
    requires Document(v)
    ensures Run(Config(fs, Expect), TokensOf(v, p)) == Success(Config(fs, Complete(v, IsContainer(v))))
    decreases v, 0
  {
    var c := Config(fs, Expect);
    match v
    case List(xs) =>
      ParseList(fs, xs, p);
    case Object(ps) =>
      ParseObject(fs, ps, p);
    case PairNode(_) =>
      assert false;
    case Null =>
      RunOne(c, TokensOf(v, p)[0]);
    case Bool(_) =>
      RunOne(c, TokensOf(v, p)[0]);
    case Int(_) =>
      RunOne(c, TokensOf(v, p)[0]);
    case Float(_) =>
      RunOne(c, TokensOf(v, p)[0]);
    case Str(_) =>
      RunOne(c, TokensOf(v, p)[0]);
  }

  /** The tokens of a list, read where a value is owed, rebuild the list. */
  lemma {:induction false} ParseList(fs: seq<Frame>, xs: seq<Node>, p: SourcePos)
    requires forall i :: 0 <= i < |xs| ==> Document(xs[i])
    ensures Run(Config(fs, Expect), TokensOf(List(xs), p)) == Success(Config(fs, Complete(List(xs), true)))
    decreases xs, 3
  {
    var c := Config(fs, Expect);
    var open := At(Plain(LSQUARE), p);
    var close := [At(Plain(RSQUARE), p)];
    assert TokensOf(List(xs), p) == [] + ([open] + (ItemTokens(xs, p) + close));
    RunThrough(c, [], c, open, ItemTokens(xs, p) + close);
    if xs == [] {
      assert ItemTokens(xs, p) + close == close;
      RunOne(Config(fs, ListOpen), close[0]);
    } else {
      RunListOpen(fs, ItemTokens(xs, p) + close);
      ParseItems(fs, [], xs, p);
      assert [] + xs == xs;
    }
  }

  /** The tokens of an object, read where a value is owed, rebuild the
      object. */
  lemma {:induction false} ParseObject(fs: seq<Frame>, ps: seq<Pair>, p: SourcePos)
    requires forall i :: 0 <= i < |ps| ==> Document(ps[i].value)
    ensures Run(Config(fs, Expect), TokensOf(Object(ps), p)) == Success(Config(fs, Complete(Object(ps), true)))
    decreases ps, 3
  {
    var c := Config(fs, Expect);
    var open := At(Plain(LCURLY), p);
    var close := [At(Plain(RCURLY), p)];
    assert TokensOf(Object(ps), p) == [] + ([open] + (PairTokens(ps, p) + close));
    RunThrough(c, [], c, open, PairTokens(ps, p) + close);
    if ps == [] {
      assert PairTokens(ps, p) + close == close;
      RunOne(Config(fs, ObjOpen), close[0]);
    } else {
      RunObjectOpen(fs, PairTokens(ps, p) + close);
      ParsePairs(fs, [], ps, p);
      assert [] + ps == ps;
    }
  }

  /** Two runs in a row. */
  lemma RunChain(c: Config, a: seq<Token>, c1: Config, b: seq<Token>, c2: Config)
    requires (forall t <- a :: WellTyped(t)) && (forall t <- b :: WellTyped(t))
    requires Run(c, a) == Success(c1) && Run(c1, b) == Success(c2)
    ensures forall t <- a + b :: WellTyped(t)
    ensures Run(c, a + b) == Success(c2)
  {
    RunAppend(c, a, b);
  }

  lemma Reassociate<T>(a: seq<T>, b: seq<T>, c: seq<T>, d: seq<T>)
    ensures (a + (b + c)) + d == a + (b + (c + d))
  {
  }

  /** The items of a non-empty list and its "]", read after the items
      `items`, close the list holding `items + xs`. */
  lemma {:induction false} ParseItems(fs: seq<Frame>, items: seq<Node>, xs: seq<Node>, p: SourcePos)
    requires xs != [] && forall i :: 0 <= i < |xs| ==> Document(xs[i])
    ensures Run(Config(fs + [ListFrame(items)], Expect), ItemTokens(xs, p) + [At(Plain(RSQUARE), p)])
            == Success(Config(fs, Complete(List(items + xs), true)))
    decreases xs, 2
  {
    if |xs| == 1 {
      ParseLastItem(fs, items, xs, p);
    } else {
      ParseNextItem(fs, items, xs, p);
    }
  }

  lemma {:induction false} ParseLastItem(fs: seq<Frame>, items: seq<Node>, xs: seq<Node>, p: SourcePos)
    requires |xs| == 1 && Document(xs[0])
    ensures Run(Config(fs + [ListFrame(items)], Expect), ItemTokens(xs, p) + [At(Plain(RSQUARE), p)])
            == Success(Config(fs, Complete(List(items + xs), true)))
    decreases xs, 1
  {
    var f := fs + [ListFrame(items)];
    var close := At(Plain(RSQUARE), p);
    var x := xs[0];
    var done := Config(f, Complete(x, IsContainer(x)));
    ParseValue(f, x, p);
    assert ItemTokens(xs, p) == TokensOf(x, p);
    ItemDone(fs, items, x, IsContainer(x), close);
    RunOne(done, close);
    assert items + [x] == items + xs;
    RunChain(Config(f, Expect), TokensOf(x, p), done, [close], Config(fs, Complete(List(items + xs), true)));
  }

  lemma {:induction false} ParseNextItem(fs: seq<Frame>, items: seq<Node>, xs: seq<Node>, p: SourcePos)
    requires |xs| > 1 && forall i :: 0 <= i < |xs| ==> Document(xs[i])
    ensures Run(Config(fs + [ListFrame(items)], Expect), ItemTokens(xs, p) + [At(Plain(RSQUARE), p)])
            == Success(Config(fs, Complete(List(items + xs), true)))
    decreases xs, 1
  {
    var f := fs + [ListFrame(items)];
    var close := At(Plain(RSQUARE), p);
    var comma := At(Plain(COMMA), p);
    var x := xs[0];
    var done := Config(f, Complete(x, IsContainer(x)));
    ParseValue(f, x, p);
    ItemDone(fs, items, x, IsContainer(x), comma);
    RunOne(done, comma);
    var tail := ItemTokens(xs[1..], p) + [close];
    var last := Config(fs, Complete(List(items + xs), true));
    ParseItems(fs, items + [x], xs[1..], p);
    assert items + [x] + xs[1..] == items + xs;
    RunChain(done, [comma], Config(fs + [ListFrame(items + [x])], Expect), tail, last);
    RunChain(Config(f, Expect), TokensOf(x, p), done, [comma] + tail, last);
    Reassociate(TokensOf(x, p), [comma], ItemTokens(xs[1..], p), [close]);
  }

  /** The pairs of a non-empty object and its "}", read after the pairs
      `pairs`, close the object holding `pairs + ps`. */
  lemma {:induction false} ParsePairs(fs: seq<Frame>, pairs: seq<Pair>, ps: seq<Pair>, p: SourcePos)
    requires ps != [] && forall i :: 0 <= i < |ps| ==> Document(ps[i].value)
    ensures Run(Config(fs, KeyWait(pairs)), PairTokens(ps, p) + [At(Plain(RCURLY), p)])
            == Success(Config(fs, Complete(Object(pairs + ps), true)))
    decreases ps, 2
  {
    if |ps| == 1 {
      ParseLastPair(fs, pairs, ps, p);
    } else {
      ParseNextPair(fs, pairs, ps, p);
    }
  }

  /** The key, colon and value of one pair, read where a key is owed,
      complete the pair's value. */
  lemma {:induction false} ParsePairHead(fs: seq<Frame>, pairs: seq<Pair>, q: Pair, p: SourcePos)
    requires Document(q.value)
    ensures var toks := [At(StringToken(q.key), p), At(Plain(COLON), p)] + TokensOf(q.value, p);
      (forall t <- toks :: WellTyped(t)) &&
      Run(Config(fs, KeyWait(pairs)), toks)
      == Success(Config(fs + [PairFrame(pairs, q.key)], Complete(q.value, IsContainer(q.value))))
    decreases q, 1
  {
    var f := fs + [PairFrame(pairs, q.key)];
    ParseKey(fs, pairs, q.key, p);
    ParseValue(f, q.value, p);
    RunChain(Config(fs, KeyWait(pairs)), [At(StringToken(q.key), p), At(Plain(COLON), p)],
             Config(f, Expect), TokensOf(q.value, p), Config(f, Complete(q.value, IsContainer(q.value))));
  }

  lemma {:induction false} ParseLastPair(fs: seq<Frame>, pairs: seq<Pair>, ps: seq<Pair>, p: SourcePos)
    requires |ps| == 1 && Document(ps[0].value)
    ensures Run(Config(fs, KeyWait(pairs)), PairTokens(ps, p) + [At(Plain(RCURLY), p)])
            == Success(Config(fs, Complete(Object(pairs + ps), true)))
    decreases ps, 1
  {
    var q := ps[0];
    var close := At(Plain(RCURLY), p);
    var head := [At(StringToken(q.key), p), At(Plain(COLON), p)] + TokensOf(q.value, p);
    var done := Config(fs + [PairFrame(pairs, q.key)], Complete(q.value, IsContainer(q.value)));
    ParsePairHead(fs, pairs, q, p);
    PairDone(fs, pairs, q.key, q.value, IsContainer(q.value), close);
    RunOne(done, close);
    assert PairTokens(ps, p) == head;
    assert pairs + [Pair(q.key, q.value)] == pairs + ps;
    RunChain(Config(fs, KeyWait(pairs)), head, done, [close], Config(fs, Complete(Object(pairs + ps), true)));
  }

  lemma {:induction false} ParseNextPair(fs: seq<Frame>, pairs: seq<Pair>, ps: seq<Pair>, p: SourcePos)
    requires |ps| > 1 && forall i :: 0 <= i < |ps| ==> Document(ps[i].value)
    ensures Run(Config(fs, KeyWait(pairs)), PairTokens(ps, p) + [At(Plain(RCURLY), p)])
            == Success(Config(fs, Complete(Object(pairs + ps), true)))
    decreases ps, 1
  {
    var q := ps[0];
    var close := At(Plain(RCURLY), p);
    var comma := At(Plain(COMMA), p);
    var head := [At(StringToken(q.key), p), At(Plain(COLON), p)] + TokensOf(q.value, p);
    var done := Config(fs + [PairFrame(pairs, q.key)], Complete(q.value, IsContainer(q.value)));
    var tail := PairTokens(ps[1..], p) + [close];
    var last := Config(fs, Complete(Object(pairs + ps), true));
    ParsePairHead(fs, pairs, q, p);
    PairDone(fs, pairs, q.key, q.value, IsContainer(q.value), comma);
    RunOne(done, comma);
    ParsePairs(fs, pairs + [q], ps[1..], p);
    NextPairsJoin(pairs, ps);
    RunChain(done, [comma], Config(fs, KeyWait(pairs + [q])), tail, last);
    RunChain(Config(fs, KeyWait(pairs)), head, done, [comma] + tail, last);
    PairTokensNext(ps, p);
    Reassociate(head, [comma], PairTokens(ps[1..], p), [close]);
  }

  lemma NextPairsJoin(pairs: seq<Pair>, ps: seq<Pair>)
    requires ps != []
    ensures pairs + [Pair(ps[0].key, ps[0].value)] + ps[1..] == pairs + ps
  {
    assert Pair(ps[0].key, ps[0].value) == ps[0];
  }

  lemma PairTokensNext(ps: seq<Pair>, p: SourcePos)
    requires |ps| > 1 && forall i :: 0 <= i < |ps| ==> Document(ps[i].value)
    ensures PairTokens(ps, p) == ([At(StringToken(ps[0].key), p), At(Plain(COLON), p)] + TokensOf(ps[0].value, p))
                                 + ([At(Plain(COMMA), p)] + PairTokens(ps[1..], p))
  {
  }

  /** A key and a colon, read where a key is owed, owe the pair's value. */
  lemma ParseKey(fs: seq<Frame>, pairs: seq<Pair>, key: string, p: SourcePos)
    ensures var head := [At(StringToken(key), p), At(Plain(COLON), p)];
      (forall t <- head :: WellTyped(t)) &&
      Run(Config(fs, KeyWait(pairs)), head) == Success(Config(fs + [PairFrame(pairs, key)], Expect))
  {
    var head := [At(StringToken(key), p), At(Plain(COLON), p)];
    RunOne(Config(fs, ColonWait(pairs, key)), head[1]);
    assert head[1..] == [head[1]];
  }

  /** A new parser fed the tokens of any document and then END is finished
      and holds exactly that document. */
  lemma ParseDocument(v: Node, p: SourcePos)
    requires Document(v)
    ensures var toks := TokensOf(v, p) + [At(Plain(END), p)];
      (forall t <- toks :: WellTyped(t)) &&
      Run(Initial(), toks) == Success(Config([], Complete(v, false))) &&
      Finished(Config([], Complete(v, false)))
  {
    var end := At(Plain(END), p);
    ParseValue([], v, p);
    RunThrough(Initial(), TokensOf(v, p), Config([], Complete(v, IsContainer(v))), end, []);
    assert TokensOf(v, p) + ([end] + []) == TokensOf(v, p) + [end];
    FinishedIsRootValue(Config([], Complete(v, false)));
  }
}

module ParseExamples {
  import opened Wrappers
  import opened Positions
  import opened Tokens
  import opened Errors
  import opened Nodes
  import opened ParseModel
  import opened ParseFacts

  /** The documents of the parser's test table: null, true, false, 1, [],
      [2], [2, 3], {}, {"a": 1}, {"a": 1, "b": 2} and {"a": [1]}. */
  function TestDocuments(): (r: seq<Node>)
    ensures forall v <- r :: Document(v)
  {
    [Null, Bool(true), Bool(false), Int(1),
     List([]), List([Int(2)]), List([Int(2), Int(3)]),
     Object([]), Object([Pair("a", Int(1))]),
     Object([Pair("a", Int(1)), Pair("b", Int(2))]),
     Object([Pair("a", List([Int(1)]))])]
  }

  /** Each test document, fed to a new parser as tokens followed by END,
      leaves the parser finished with that document as its result. */
  lemma ParsesTestDocuments()
    ensures forall v <- TestDocuments() ::
      var toks := TokensOf(v, Pos(0, 0)) + [At(Plain(END), Pos(0, 0))];
      (forall t <- toks :: WellTyped(t)) && Run(Initial(), toks) == Success(Config([], Complete(v, false)))
  {
    forall v <- TestDocuments()
      ensures var toks := TokensOf(v, Pos(0, 0)) + [At(Plain(END), Pos(0, 0))];
        (forall t <- toks :: WellTyped(t)) && Run(Initial(), toks) == Success(Config([], Complete(v, false)))
    {
      ParseDocument(v, Pos(0, 0));
    }
  }

  /** The tokens of `{[]: 1}` with their columns on line 0. */
  function ListAsKey(): (r: seq<Token>)
    ensures |r| == 7 && forall t <- r :: WellTyped(t)
  {
    [At(Plain(LCURLY), Pos(0, 0)), At(Plain(LSQUARE), Pos(0, 1)), At(Plain(RSQUARE), Pos(0, 2)),
     At(Plain(COLON), Pos(0, 3)), At(IntToken(1), Pos(0, 5)), At(Plain(RCURLY), Pos(0, 6)),
     At(Plain(END), Pos(0, 7))]
  }

  /** A list where an object key is owed is rejected: the error names the
      "[" at column 1 and expects a STRING. */
  lemma RejectsListAsKey()
    ensures Run(Initial(), ListAsKey()) == Failure(UnexpectedToken(ListAsKey()[1], [TokenType.STRING]))
    ensures Kind(ListAsKey()[1]) == LSQUARE && ListAsKey()[1].start == Pos(0, 1)
  {
    var toks := ListAsKey();
    var open := Config([], ObjOpen);
    assert Step(Initial(), toks[0]) == Success(open);
    assert Step(open, toks[1]) == Failure(UnexpectedToken(toks[1], [TokenType.STRING]));
    assert toks[1..][0] == toks[1];
  }
}
