/** The Parser class of parser.h and parser.cpp: the obligation stack
    `states` and the partial-node stack `nodes`, changed one token at a time
    by `Feed`. A ghost configuration of ParseModel records what the stacks
    stand for; every method is proved to move it as `ParseModel.Step` does. */
module Parsing {
  import opened Wrappers
  import opened Tokens
  import opened Errors
  import opened Nodes
  import opened ParseModel

  /** Pushing a frame adds its entries on top of both stacks. */
  lemma FramesPush(fs: seq<Frame>, f: Frame)
    ensures FramesStates(fs + [f]) == FramesStates(fs) + FrameStates(f)
    ensures FramesNodes(fs + [f]) == FramesNodes(fs) + FrameNodes(f)
  {
    assert (fs + [f])[..|fs|] == fs;
  }

  /** State JSON: "[" and "{" turn the obligation into JSON_END and push the
      container's own obligation above it. */
  lemma ValueOpen(c: Config, tok: Token)
    requires WellFormed(c) && c.top == Expect && WellTyped(tok)
    requires Kind(tok) == LSQUARE || Kind(tok) == LCURLY
    ensures var s := StateStack(c);
      var t := if Kind(tok) == LSQUARE then ListOpen else ObjOpen;
      |s| > 0 && Step(c, tok) == Success(c.(top := t)) &&
      StateStack(c.(top := t)) == s[..|s| - 1] + [JSON_END] + [if Kind(tok) == LSQUARE then ParserState.LIST else ParserState.OBJECT] &&
      NodeStack(c.(top := t)) == NodeStack(c)
  {
    var s := StateStack(c);
    assert s == FramesStates(c.frames) + [JSON];
    assert s[..|s| - 1] == FramesStates(c.frames);
  }

  /** State JSON: a scalar token pushes its node and ends the obligation. */
  lemma ValueLeaf(c: Config, tok: Token, n: Node)
    requires WellFormed(c) && c.top == Expect && WellTyped(tok)
    requires (Kind(tok) == TokenType.NIL && n == Null) ||
             (Kind(tok) in {TokenType.BOOL, TokenType.INT, TokenType.FLOAT, TokenType.STRING} && n == LeafNode(tok.data))
    ensures var s := StateStack(c);
      |s| > 0 && Step(c, tok) == Success(c.(top := Complete(n, false))) &&
      StateStack(c.(top := Complete(n, false))) == (s[..|s| - 1] + [JSON_END])[..|s| - 1] &&
      NodeStack(c.(top := Complete(n, false))) == NodeStack(c) + [n]
  {
    var s := StateStack(c);
    assert s == FramesStates(c.frames) + [JSON];
    assert (s[..|s| - 1] + [JSON_END])[..|s| - 1] == FramesStates(c.frames);
  }

  /** State JSON: any other token is refused. */
  lemma ValueOther(c: Config, tok: Token)
    requires WellFormed(c) && c.top == Expect && WellTyped(tok)
    requires Kind(tok) !in {LSQUARE, LCURLY, TokenType.NIL, TokenType.BOOL, TokenType.INT, TokenType.FLOAT, TokenType.STRING}
    ensures Step(c, tok) == Failure(Unexpected(tok, ValueStarts))
  {
  }

  /** State JSON_END pops itself and leaves the token to the value below. */
  lemma ValueEndTransition(c: Config, tok: Token)
    requires WellFormed(c) && c.top.Complete? && c.top.pending && WellTyped(tok)
    ensures var s := StateStack(c); var c1 := c.(top := Complete(c.top.value, false));
      |s| > 0 && Step(c, tok) == Step(c1, tok) && WellFormed(c1) &&
      StateStack(c1) == s[..|s| - 1] && NodeStack(c1) == NodeStack(c)
  {
    assert StateStack(c) == FramesStates(c.frames) + [JSON_END];
  }

  /** State STRING: a string token is the key of the pair being read. */
  lemma KeyTransition(c: Config, tok: Token)
    requires WellFormed(c) && c.top.KeyWait? && WellTyped(tok)
    ensures var s := StateStack(c);
      |s| > 0 &&
      (Kind(tok) == TokenType.STRING ==>
         var c1 := c.(top := ColonWait(c.top.pairs, tok.data.s));
         Step(c, tok) == Success(c1) &&
         StateStack(c1) == s[..|s| - 1] && NodeStack(c1) == NodeStack(c) + [Str(tok.data.s)]) &&
      (Kind(tok) != TokenType.STRING ==> Step(c, tok) == Failure(Unexpected(tok, [TokenType.STRING])))
  {
    assert StateStack(c) == FramesStates(c.frames) + [JSON_END, OBJECT_END, ParserState.PAIR, ParserState.STRING];
  }

  /** State LIST: the new list is pushed; "]" ends it, any other token
      starts its first item. */
  lemma ListOpenTransition(c: Config, tok: Token)
    requires WellFormed(c) && c.top == ListOpen && WellTyped(tok)
    ensures var s := StateStack(c); var n := NodeStack(c) + [List([])];
      |s| > 0 &&
      (Kind(tok) == RSQUARE ==>
         var c1 := c.(top := Complete(List([]), true));
         Step(c, tok) == Success(c1) && StateStack(c1) == s[..|s| - 1] && NodeStack(c1) == n) &&
      (Kind(tok) != RSQUARE ==>
         var c1 := Config(c.frames + [ListFrame([])], Expect);
         Step(c, tok) == Step(c1, tok) && WellFormed(c1) &&
         StateStack(c1) == s[..|s| - 1] + [LIST_END, JSON] && NodeStack(c1) == n)
  {
    ListOpenStacks(c);
  }

  /** The stacks in state LIST and once the new list is pushed, closed at
      once or owing its first item. */
  lemma ListOpenStacks(c: Config)
    requires c.top == ListOpen
    ensures var s := StateStack(c); var n := NodeStack(c) + [List([])];
      var c1 := c.(top := Complete(List([]), true));
      var c2 := Config(c.frames + [ListFrame([])], Expect);
      |s| > 0 &&
      StateStack(c1) == s[..|s| - 1] && NodeStack(c1) == n &&
      StateStack(c2) == s[..|s| - 1] + [LIST_END, JSON] && NodeStack(c2) == n
  {
    var a := FramesStates(c.frames);
    var c2 := Config(c.frames + [ListFrame([])], Expect);
    ConfigStacks(c2, c.frames, ListFrame([]));
    var s := StateStack(c);
    assert s == a + [JSON_END, ParserState.LIST];
    assert s[..|s| - 1] == a + [JSON_END];
  }

  /** The node stack once the finished item on top is appended to the list
      below it. */
  function WithItem(n: seq<Node>): seq<Node>
    requires |n| >= 2 && n[|n| - 2].List?
  {
    n[..|n| - 2] + [List(n[|n| - 2].items + [n[|n| - 1]])]
  }

  /** The node stack once the value and the key on top are appended as a
      pair to the object below them. */
  function WithPair(n: seq<Node>): seq<Node>
    requires |n| >= 3 && n[|n| - 2].Str? && n[|n| - 3].Object?
  {
    n[..|n| - 3] + [Object(n[|n| - 3].pairs + [Pair(n[|n| - 2].s, n[|n| - 1])])]
  }

  /** In state LIST_END the node stack is the frames' nodes, the list being
      filled and its finished item; appending the item leaves the frames'
      nodes and the longer list. */
  lemma ListEndNodes(outer: seq<Frame>, items: seq<Node>, v: Node)
    ensures var n := FramesNodes(outer) + [List(items), v];
      |n| >= 2 && n[|n| - 2].List? && WithItem(n) == FramesNodes(outer) + [List(items + [v])]
  {
    var n := FramesNodes(outer) + [List(items), v];
    assert n[..|n| - 2] == FramesNodes(outer);
  }

  /** State LIST_END: the finished item on top sits above the list it
      belongs to. */
  lemma ListEndShape(c: Config)
    requires WellFormed(c) && c.top.Complete? && !c.top.pending
    requires c.frames != [] && c.frames[|c.frames| - 1].ListFrame?
    ensures |NodeStack(c)| >= 2 && NodeStack(c)[|NodeStack(c)| - 2].List?
  {
    ListEndBase(c);
    ListEndNodes(c.frames[..|c.frames| - 1], c.frames[|c.frames| - 1].items, c.top.value);
  }

  /** The stacks of a configuration whose frames end in `f`. */
  lemma ConfigStacks(c: Config, outer: seq<Frame>, f: Frame)
    requires c.frames == outer + [f]
    ensures StateStack(c) == FramesStates(outer) + FrameStates(f) + TopStates(c.top)
    ensures NodeStack(c) == FramesNodes(outer) + FrameNodes(f) + TopNodes(c.top)
  {
    FramesPush(outer, f);
  }

  /** Replacing the LIST_END obligation on top by LIST_END and JSON. */
  lemma ListEndStatesNext(a: seq<ParserState>)
    ensures var s := a + [JSON_END, LIST_END] + [];
      |s| > 0 && s[..|s| - 1] + [LIST_END, JSON] == a + [JSON_END, LIST_END] + [JSON]
  {
    var s := a + [JSON_END, LIST_END] + [];
    assert s[..|s| - 1] == a + [JSON_END];
  }

  /** Popping the LIST_END obligation on top. */
  lemma ListEndStatesClose(a: seq<ParserState>)
    ensures var s := a + [JSON_END, LIST_END] + [];
      |s| > 0 && s[..|s| - 1] == a + [JSON_END]
  {
  }

  /** The stacks in state LIST_END: the frames' entries, then the list being
      filled and its finished item. */
  lemma ListEndBase(c: Config)
    requires c.top.Complete? && !c.top.pending
    requires c.frames != [] && c.frames[|c.frames| - 1].ListFrame?
    ensures var outer := c.frames[..|c.frames| - 1];
      StateStack(c) == FramesStates(outer) + [JSON_END, LIST_END] + [] &&
      NodeStack(c) == FramesNodes(outer) + [List(c.frames[|c.frames| - 1].items), c.top.value]
  {
    var outer := c.frames[..|c.frames| - 1];
    var f := c.frames[|c.frames| - 1];
    assert c.frames == outer + [f];
    ConfigStacks(c, outer, f);
  }

  /** The stacks once the finished item is appended and the list closed. */
  lemma ListEndStacksClose(c: Config)
    requires c.top.Complete? && !c.top.pending
    requires c.frames != [] && c.frames[|c.frames| - 1].ListFrame?
    ensures |StateStack(c)| > 0 && |NodeStack(c)| >= 2 && NodeStack(c)[|NodeStack(c)| - 2].List?
    ensures var c1 := Config(c.frames[..|c.frames| - 1], Complete(List(c.frames[|c.frames| - 1].items + [c.top.value]), true));
      StateStack(c1) == StateStack(c)[..|StateStack(c)| - 1] && NodeStack(c1) == WithItem(NodeStack(c))
  {
    var outer := c.frames[..|c.frames| - 1];
    ListEndBase(c);
    ListEndNodes(outer, c.frames[|c.frames| - 1].items, c.top.value);
    ListEndStatesClose(FramesStates(outer));
  }

  /** The stacks once the finished item is appended and another is owed. */
  lemma ListEndStacksNext(c: Config)
    requires c.top.Complete? && !c.top.pending
    requires c.frames != [] && c.frames[|c.frames| - 1].ListFrame?
    ensures |StateStack(c)| > 0 && |NodeStack(c)| >= 2 && NodeStack(c)[|NodeStack(c)| - 2].List?
    ensures var c1 := Config(c.frames[..|c.frames| - 1] + [ListFrame(c.frames[|c.frames| - 1].items + [c.top.value])], Expect);
      StateStack(c1) == StateStack(c)[..|StateStack(c)| - 1] + [LIST_END, JSON] && NodeStack(c1) == WithItem(NodeStack(c))
  {
    var outer := c.frames[..|c.frames| - 1];
    var f1 := ListFrame(c.frames[|c.frames| - 1].items + [c.top.value]);
    ListEndBase(c);
    ListEndNodes(outer, c.frames[|c.frames| - 1].items, c.top.value);
    ConfigStacks(Config(outer + [f1], Expect), outer, f1);
    ListEndStatesNext(FramesStates(outer));
  }

  /** State LIST_END: the item on top is appended to the list below it and
      "]" ends the list. */
  lemma ListEndClose(c: Config, tok: Token)
    requires WellFormed(c) && c.top.Complete? && !c.top.pending && WellTyped(tok) && Kind(tok) == RSQUARE
    requires c.frames != [] && c.frames[|c.frames| - 1].ListFrame?
    ensures |StateStack(c)| > 0 && |NodeStack(c)| >= 2 && NodeStack(c)[|NodeStack(c)| - 2].List?
    ensures var c1 := Config(c.frames[..|c.frames| - 1], Complete(List(c.frames[|c.frames| - 1].items + [c.top.value]), true));
      Step(c, tok) == Success(c1) && WellFormed(c1) &&
      StateStack(c1) == StateStack(c)[..|StateStack(c)| - 1] && NodeStack(c1) == WithItem(NodeStack(c))
  {
    ListEndStacksClose(c);
  }

  /** State LIST_END: the item on top is appended to the list below it and
      "," owes another item. */
  lemma ListEndNext(c: Config, tok: Token)
    requires WellFormed(c) && c.top.Complete? && !c.top.pending && WellTyped(tok) && Kind(tok) == COMMA
    requires c.frames != [] && c.frames[|c.frames| - 1].ListFrame?
    ensures |StateStack(c)| > 0 && |NodeStack(c)| >= 2 && NodeStack(c)[|NodeStack(c)| - 2].List?
    ensures var c1 := Config(c.frames[..|c.frames| - 1] + [ListFrame(c.frames[|c.frames| - 1].items + [c.top.value])], Expect);
      Step(c, tok) == Success(c1) && WellFormed(c1) &&
      StateStack(c1) == StateStack(c)[..|StateStack(c)| - 1] + [LIST_END, JSON] && NodeStack(c1) == WithItem(NodeStack(c))
  {
    ListEndStacksNext(c);
  }

  /** State LIST_END: any token but "]" and "," is refused. */
  lemma ListEndOther(c: Config, tok: Token)
    requires WellFormed(c) && c.top.Complete? && !c.top.pending && WellTyped(tok)
    requires Kind(tok) != RSQUARE && Kind(tok) != COMMA
    requires c.frames != [] && c.frames[|c.frames| - 1].ListFrame?
    ensures Step(c, tok) == Failure(Unexpected(tok, [RSQUARE, COMMA]))
  {
  }

  /** State OBJECT: the new object is pushed; "}" ends it, any other token
      starts its first pair. */
  lemma ObjectOpenTransition(c: Config, tok: Token)
    requires WellFormed(c) && c.top == ObjOpen && WellTyped(tok)
    ensures var s := StateStack(c); var n := NodeStack(c) + [Object([])];
      |s| > 0 &&
      (Kind(tok) == RCURLY ==>
         var c1 := c.(top := Complete(Object([]), true));
         Step(c, tok) == Success(c1) && StateStack(c1) == s[..|s| - 1] && NodeStack(c1) == n) &&
      (Kind(tok) != RCURLY ==>
         var c1 := c.(top := KeyWait([]));
         Step(c, tok) == Step(c1, tok) && WellFormed(c1) &&
         StateStack(c1) == s[..|s| - 1] + [OBJECT_END, ParserState.PAIR, ParserState.STRING] &&
         NodeStack(c1) == n)
  {
    assert StateStack(c) == FramesStates(c.frames) + [JSON_END, ParserState.OBJECT];
  }

  /** State OBJECT_END: "}" ends the object, "," owes another pair. */
  lemma ObjectEndTransition(c: Config, tok: Token)
    requires WellFormed(c) && c.top.AfterPair? && WellTyped(tok)
    ensures var s := StateStack(c);
      |s| > 0 &&
      (Kind(tok) == RCURLY ==>
         var c1 := c.(top := Complete(Object(c.top.pairs), true));
         Step(c, tok) == Success(c1) && StateStack(c1) == s[..|s| - 1] && NodeStack(c1) == NodeStack(c)) &&
      (Kind(tok) == COMMA ==>
         var c1 := c.(top := KeyWait(c.top.pairs));
         Step(c, tok) == Success(c1) &&
         StateStack(c1) == s[..|s| - 1] + [OBJECT_END, ParserState.PAIR, ParserState.STRING] &&
         NodeStack(c1) == NodeStack(c)) &&
      (Kind(tok) != RCURLY && Kind(tok) != COMMA ==>
         Step(c, tok) == Failure(Unexpected(tok, [RCURLY, COMMA])))
  {
    assert StateStack(c) == FramesStates(c.frames) + [JSON_END, OBJECT_END];
  }

  /** State PAIR: after the colon the obligation becomes PAIR_END and a
      value is owed. */
  lemma ColonTransition(c: Config, tok: Token)
    requires WellFormed(c) && c.top.ColonWait? && WellTyped(tok)
    ensures var s := StateStack(c);
      |s| > 0 &&
      (Kind(tok) == COLON ==>
         var c1 := Config(c.frames + [PairFrame(c.top.pairs, c.top.key)], Expect);
         Step(c, tok) == Success(c1) && WellFormed(c1) &&
         StateStack(c1) == s[..|s| - 1] + [PAIR_END] + [JSON] && NodeStack(c1) == NodeStack(c)) &&
      (Kind(tok) != COLON ==> Step(c, tok) == Failure(Unexpected(tok, [COLON])))
  {
    ColonStacks(c);
  }

  /** The stacks in state PAIR and once the colon has been read. */
  lemma ColonStacks(c: Config)
    requires c.top.ColonWait?
    ensures var s := StateStack(c);
      var c1 := Config(c.frames + [PairFrame(c.top.pairs, c.top.key)], Expect);
      |s| > 0 && StateStack(c1) == s[..|s| - 1] + [PAIR_END] + [JSON] && NodeStack(c1) == NodeStack(c)
  {
    var a := FramesStates(c.frames);
    var f := PairFrame(c.top.pairs, c.top.key);
    ConfigStacks(Config(c.frames + [f], Expect), c.frames, f);
    var s := StateStack(c);
    assert s == a + [JSON_END, OBJECT_END, ParserState.PAIR];
    assert s[..|s| - 1] == a + [JSON_END, OBJECT_END];
  }

  /** In state PAIR_END the node stack is the frames' nodes, the object
      being filled, the key and the finished value; appending the pair
      leaves the frames' nodes and the longer object. */
  lemma PairEndNodes(outer: seq<Frame>, pairs: seq<Pair>, key: string, v: Node)
    ensures var n := FramesNodes(outer) + [Object(pairs), Str(key), v];
      |n| >= 3 && n[|n| - 2].Str? && n[|n| - 3].Object? &&
      WithPair(n) == FramesNodes(outer) + [Object(pairs + [Pair(key, v)])]
  {
    var n := FramesNodes(outer) + [Object(pairs), Str(key), v];
    assert n[..|n| - 3] == FramesNodes(outer);
  }

  /** State PAIR_END: the value and then the key are popped and appended as
      a pair to the object below them. */
  lemma PairEndStacks(c: Config)
    requires WellFormed(c) && c.top.Complete? && !c.top.pending
    requires c.frames != [] && c.frames[|c.frames| - 1].PairFrame?
    ensures var n := NodeStack(c);
      |StateStack(c)| > 0 && |n| >= 3 && n[|n| - 2].Str? && n[|n| - 3].Object?
    ensures var f := c.frames[|c.frames| - 1];
      var c1 := Config(c.frames[..|c.frames| - 1], AfterPair(f.pairs + [Pair(f.key, c.top.value)]));
      WellFormed(c1) && StateStack(c1) == StateStack(c)[..|StateStack(c)| - 1] && NodeStack(c1) == WithPair(NodeStack(c))
  {
    var outer := c.frames[..|c.frames| - 1];
    var f := c.frames[|c.frames| - 1];
    assert c.frames == outer + [f];
    FramesPush(outer, f);
    assert StateStack(c) == FramesStates(outer) + [JSON_END, OBJECT_END, PAIR_END];
    assert NodeStack(c) == FramesNodes(outer) + [Object(f.pairs), Str(f.key), c.top.value];
    PairEndNodes(outer, f.pairs, f.key, c.top.value);
  }

  /** State PAIR_END: once the pair is appended the token is fed again. */
  lemma PairEndTransition(c: Config, tok: Token)
    requires WellFormed(c) && c.top.Complete? && !c.top.pending && WellTyped(tok)
    requires c.frames != [] && c.frames[|c.frames| - 1].PairFrame?
    ensures var f := c.frames[|c.frames| - 1];
      Step(c, tok) == Step(Config(c.frames[..|c.frames| - 1], AfterPair(f.pairs + [Pair(f.key, c.top.value)])), tok)
  {
  }

  class Parser {
    var states: seq<ParserState>
    var nodes: seq<Node>
    ghost var config: Config

    /** The stacks spell out a well-formed configuration. */
    ghost predicate Valid()
      reads this
    {
      WellFormed(config) && states == StateStack(config) && nodes == NodeStack(config)
    }

    /** A new parser owes one JSON value and holds no node. */
    constructor()
      ensures Valid() && config == Initial()
      ensures states == [JSON] && nodes == []
    {
      states := [JSON];
      nodes := [];
      config := Initial();
    }

    /** is_finished: exactly one node and no obligation left, which is a
        root value whose closing token has been followed by another. */
    function IsFinished(): (f: bool)
      requires Valid()
      reads this
      ensures (f <==> config.frames == [] && config.top.Complete? && !config.top.pending)
    {
      FinishedIsRootValue(config);
      |nodes| == 1 && states == []
    }

    /** pop_result: hands over the root value and leaves no node. */
    method PopResult() returns (node: Node)
      requires Valid() && IsFinished()
      modifies this
      ensures node == old(config).top.value
      ensures states == [] && nodes == []
      ensures config == Config([], Spent) && Valid()
    {
      node := nodes[|nodes| - 1];
      nodes := nodes[..|nodes| - 1];
      config := Config([], Spent);
    }

    /** enter_json. */
    method EnterJson()
      modifies this
      ensures states == old(states) + [JSON]
      ensures nodes == old(nodes) && config == old(config)
    {
      states := states + [JSON];
    }

    /** enter_list. */
    method EnterList()
      modifies this
      ensures states == old(states) + [ParserState.LIST]
      ensures nodes == old(nodes) && config == old(config)
    {
      states := states + [ParserState.LIST];
    }

    /** enter_list_item: the top obligation becomes LIST_END, and a value is
        owed above it. */
    method EnterListItem()
      requires states != []
      modifies this
      ensures states == old(states)[..|old(states)| - 1] + [LIST_END, JSON]
      ensures nodes == old(nodes) && config == old(config)
    {
      states := states[..|states| - 1] + [LIST_END];
      EnterJson();
    }

    /** enter_object. */
    method EnterObject()
      modifies this
      ensures states == old(states) + [ParserState.OBJECT]
      ensures nodes == old(nodes) && config == old(config)
    {
      states := states + [ParserState.OBJECT];
    }

    /** enter_pair: a key string and then the rest of a pair are owed. */
    method EnterPair()
      modifies this
      ensures states == old(states) + [ParserState.PAIR, ParserState.STRING]
      ensures nodes == old(nodes) && config == old(config)
    {
      states := states + [ParserState.PAIR];
      states := states + [ParserState.STRING];
    }

    /** enter_object_item: the top obligation becomes OBJECT_END, and a pair
        is owed above it. */
    method EnterObjectItem()
      requires states != []
      modifies this
      ensures states == old(states)[..|old(states)| - 1] + [OBJECT_END, ParserState.PAIR, ParserState.STRING]
      ensures nodes == old(nodes) && config == old(config)
    {
      states := states[..|states| - 1] + [OBJECT_END];
      EnterPair();
    }

    /** The finished item on top of the node stack is appended to the list
        below it. */
    method AppendItem()
      requires |nodes| >= 2 && nodes[|nodes| - 2].List?
      modifies this
      ensures nodes == WithItem(old(nodes))
      ensures states == old(states) && config == old(config)
    {
      var node := nodes[|nodes| - 1];
      nodes := nodes[..|nodes| - 1];
      var list := nodes[|nodes| - 1];
      nodes := nodes[..|nodes| - 1] + [List(list.items + [node])];
    }

    /** The value and then the key on top of the node stack are popped and
        appended as a pair to the object below them. */
    method AppendPair()
      requires |nodes| >= 3 && nodes[|nodes| - 2].Str? && nodes[|nodes| - 3].Object?
      modifies this
      ensures nodes == WithPair(old(nodes))
      ensures states == old(states) && config == old(config)
    {
      var value := nodes[|nodes| - 1];
      nodes := nodes[..|nodes| - 1];
      var key := nodes[|nodes| - 1];
      nodes := nodes[..|nodes| - 1];
      var obj := nodes[|nodes| - 1];
      nodes := nodes[..|nodes| - 1] + [Object(obj.pairs + [Pair(key.s, value)])];
    }

    /** The node built from a scalar token is pushed and the JSON_END
        obligation that replaced JSON is popped. */
    method PushLeaf(node: Node)
      requires states != []
      modifies this
      ensures nodes == old(nodes) + [node] && states == old(states)[..|old(states)| - 1]
      ensures config == old(config)
    {
      nodes := nodes + [node];
      states := states[..|states| - 1];
    }

    /** feed: acts on the obligation on top of the stack as ParseModel.Step
        says, and returns the UnexpectedToken it would throw. After an
        error the stacks are left as they are at the throw, which the model
        does not describe. The branch for each obligation is a method of
        its own below. */
    method Feed(tok: Token) returns (err: Option<Exception>)
      requires Valid() && WellTyped(tok)
      modifies this
      ensures Step(old(config), tok) == if err.None? then Success(config) else Failure(err.value)
      ensures err.None? ==> Valid()
      decreases TopRank(config.top), 1
    {
      TopStateIsLast(config);
      if states == [] {
        if Kind(tok) != END {
          err := Some(Unexpected(tok, [END]));
          return;
        }
        err := None;
      } else {
        var top := states[|states| - 1];
        match top
        case JSON => err := FeedValue(tok);
        case JSON_END => err := FeedValueEnd(tok);
        case STRING => err := FeedKey(tok);
        case LIST => err := FeedListOpen(tok);
        case LIST_END => err := FeedListEnd(tok);
        case OBJECT => err := FeedObjectOpen(tok);
        case OBJECT_END => err := FeedObjectEnd(tok);
        case PAIR => err := FeedColon(tok);
        case PAIR_END => err := FeedPairEnd(tok);
      }
    }

    /** State JSON: a scalar token becomes a node and ends the obligation;
        "[" and "{" open a container whose JSON_END stays below it. */
    method FeedValue(tok: Token) returns (err: Option<Exception>)
      requires states != [] && states[|states| - 1] == JSON
      requires Valid() && WellTyped(tok)
      modifies this
      ensures Step(old(config), tok) == if err.None? then Success(config) else Failure(err.value)
      ensures err.None? ==> Valid()
      decreases TopRank(config.top), 0
    {
      ghost var c := config;
      TopStateIsLast(c);
      var k := Kind(tok);
      states := states[..|states| - 1] + [JSON_END];
      if k == LSQUARE {
        ValueOpen(c, tok);
        EnterList();
        config := c.(top := ListOpen);
      } else if k == LCURLY {
        ValueOpen(c, tok);
        EnterObject();
        config := c.(top := ObjOpen);
      } else if k == TokenType.NIL {
        ValueLeaf(c, tok, Null);
        PushLeaf(Null);
        config := c.(top := Complete(Null, false));
      } else if k in {TokenType.BOOL, TokenType.INT, TokenType.FLOAT, TokenType.STRING} {
        var node := LeafNode(tok.data);
        ValueLeaf(c, tok, node);
        PushLeaf(node);
        config := c.(top := Complete(node, false));
      } else {
        ValueOther(c, tok);
        err := Some(Unexpected(tok, ValueStarts));
        return;
      }
      err := None;
    }

    /** State JSON_END: pops itself and feeds the token again. */
    method FeedValueEnd(tok: Token) returns (err: Option<Exception>)
      requires states != [] && states[|states| - 1] == JSON_END
      requires Valid() && WellTyped(tok)
      modifies this
      ensures Step(old(config), tok) == if err.None? then Success(config) else Failure(err.value)
      ensures err.None? ==> Valid()
      decreases TopRank(config.top), 0
    {
      ghost var c := config;
      TopStateIsLast(c);
      ValueEndTransition(c, tok);
      states := states[..|states| - 1];
      config := c.(top := Complete(c.top.value, false));
      err := Feed(tok);
    }

    /** State STRING: the key of a pair. */
    method FeedKey(tok: Token) returns (err: Option<Exception>)
      requires states != [] && states[|states| - 1] == ParserState.STRING
      requires Valid() && WellTyped(tok)
      modifies this
      ensures Step(old(config), tok) == if err.None? then Success(config) else Failure(err.value)
      ensures err.None? ==> Valid()
      decreases TopRank(config.top), 0
    {
      ghost var c := config;
      TopStateIsLast(c);
      KeyTransition(c, tok);
      if Kind(tok) == TokenType.STRING {
        nodes := nodes + [Str(tok.data.s)];
        states := states[..|states| - 1];
        config := c.(top := ColonWait(c.top.pairs, tok.data.s));
        err := None;
      } else {
        err := Some(Unexpected(tok, [TokenType.STRING]));
      }
    }

    /** State LIST: pushes the new list; "]" closes it at once, any other
        token starts the first item and is fed again. */
    method FeedListOpen(tok: Token) returns (err: Option<Exception>)
      requires states != [] && states[|states| - 1] == ParserState.LIST
      requires Valid() && WellTyped(tok)
      modifies this
      ensures Step(old(config), tok) == if err.None? then Success(config) else Failure(err.value)
      ensures err.None? ==> Valid()
      decreases TopRank(config.top), 0
    {
      ghost var c := config;
      TopStateIsLast(c);
      ListOpenTransition(c, tok);
      nodes := nodes + [List([])];
      if Kind(tok) == RSQUARE {
        states := states[..|states| - 1];
        config := c.(top := Complete(List([]), true));
        err := None;
      } else {
        EnterListItem();
        config := Config(c.frames + [ListFrame([])], Expect);
        err := Feed(tok);
      }
    }

    /** State LIST_END: appends the finished item to the list below it,
        then accepts "]" or ",". The item is appended before the token is
        looked at. */
    method FeedListEnd(tok: Token) returns (err: Option<Exception>)
      requires states != [] && states[|states| - 1] == LIST_END
      requires Valid() && WellTyped(tok)
      modifies this
      ensures Step(old(config), tok) == if err.None? then Success(config) else Failure(err.value)
      ensures err.None? ==> Valid()
      decreases TopRank(config.top), 0
    {
      ghost var c := config;
      TopStateIsLast(c);
      ghost var outer := c.frames[..|c.frames| - 1];
      ghost var items := c.frames[|c.frames| - 1].items + [c.top.value];
      ListEndShape(c);
      AppendItem();
      var k := Kind(tok);
      if k == RSQUARE {
        ListEndClose(c, tok);
        states := states[..|states| - 1];
        config := Config(outer, Complete(List(items), true));
        err := None;
      } else if k == COMMA {
        ListEndNext(c, tok);
        EnterListItem();
        config := Config(outer + [ListFrame(items)], Expect);
        err := None;
      } else {
        ListEndOther(c, tok);
        err := Some(Unexpected(tok, [RSQUARE, COMMA]));
      }
    }

    /** State OBJECT: pushes the new object; "}" closes it at once, any other
        token starts the first pair and is fed again. */
    method FeedObjectOpen(tok: Token) returns (err: Option<Exception>)
      requires states != [] && states[|states| - 1] == ParserState.OBJECT
      requires Valid() && WellTyped(tok)
      modifies this
      ensures Step(old(config), tok) == if err.None? then Success(config) else Failure(err.value)
      ensures err.None? ==> Valid()
      decreases TopRank(config.top), 0
    {
      ghost var c := config;
      TopStateIsLast(c);
      ObjectOpenTransition(c, tok);
      nodes := nodes + [Object([])];
      if Kind(tok) == RCURLY {
        states := states[..|states| - 1];
        config := c.(top := Complete(Object([]), true));
        err := None;
      } else {
        EnterObjectItem();
        config := c.(top := KeyWait([]));
        err := Feed(tok);
      }
    }

    /** State OBJECT_END: "}" closes the object, "," starts another pair. */
    method FeedObjectEnd(tok: Token) returns (err: Option<Exception>)
      requires states != [] && states[|states| - 1] == OBJECT_END
      requires Valid() && WellTyped(tok)
      modifies this
      ensures Step(old(config), tok) == if err.None? then Success(config) else Failure(err.value)
      ensures err.None? ==> Valid()
      decreases TopRank(config.top), 0
    {
      ghost var c := config;
      TopStateIsLast(c);
      ObjectEndTransition(c, tok);
      var k := Kind(tok);
      if k == RCURLY {
        states := states[..|states| - 1];
        config := c.(top := Complete(Object(c.top.pairs), true));
        err := None;
      } else if k == COMMA {
        EnterObjectItem();
        config := c.(top := KeyWait(c.top.pairs));
        err := None;
      } else {
        err := Some(Unexpected(tok, [RCURLY, COMMA]));
      }
    }

    /** State PAIR: the colon after a key; a value is owed next. */
    method FeedColon(tok: Token) returns (err: Option<Exception>)
      requires states != [] && states[|states| - 1] == ParserState.PAIR
      requires Valid() && WellTyped(tok)
      modifies this
      ensures Step(old(config), tok) == if err.None? then Success(config) else Failure(err.value)
      ensures err.None? ==> Valid()
      decreases TopRank(config.top), 0
    {
      ghost var c := config;
      TopStateIsLast(c);
      ColonTransition(c, tok);
      if Kind(tok) == COLON {
        states := states[..|states| - 1] + [PAIR_END];
        EnterJson();
        config := Config(c.frames + [PairFrame(c.top.pairs, c.top.key)], Expect);
        err := None;
      } else {
        err := Some(Unexpected(tok, [COLON]));
      }
    }

    /** State PAIR_END: pops the value and then the key, appends the pair to
        the object below them and pops the obligation. */
    method EndPair()
      requires Valid() && config.top.Complete? && !config.top.pending
      requires config.frames != [] && config.frames[|config.frames| - 1].PairFrame?
      modifies this
      ensures var c := old(config); var f := c.frames[|c.frames| - 1];
        config == Config(c.frames[..|c.frames| - 1], AfterPair(f.pairs + [Pair(f.key, c.top.value)]))
      ensures Valid()
    {
      ghost var c := config;
      PairEndStacks(c);
      ghost var f := c.frames[|c.frames| - 1];
      ghost var pairs := f.pairs + [Pair(f.key, c.top.value)];
      AppendPair();
      states := states[..|states| - 1];
      config := Config(c.frames[..|c.frames| - 1], AfterPair(pairs));
    }

    /** State PAIR_END: the pair is appended to the object below it and the
        token is fed again. */
    method FeedPairEnd(tok: Token) returns (err: Option<Exception>)
      requires states != [] && states[|states| - 1] == PAIR_END
      requires Valid() && WellTyped(tok)
      modifies this
      ensures Step(old(config), tok) == if err.None? then Success(config) else Failure(err.value)
      ensures err.None? ==> Valid()
      decreases TopRank(config.top), 0
    {
      ghost var c := config;
      TopStateIsLast(c);
      PairEndTransition(c, tok);
      EndPair();
      err := Feed(tok);
    }
  }
}
