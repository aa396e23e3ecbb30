/** The document tree of node.h and node.cpp: eight kinds of node, with the
    order-sensitive structural equality, the deep clone and the indented
    `repr` of node.cpp. A tree held by `unique_ptr`s is a value, so it is
    modelled as a datatype. */
module Nodes {

  /** NodeType. */
  datatype NodeType = NIL | BOOL | INT | FLOAT | STRING | LIST | PAIR | OBJECT

  /** A node: NodeNull, the four SimpleNode instantiations (a double is the
      exact real it approximates), NodeList, NodePair and NodeObject. */
  datatype Node =
    | Null
    | Bool(b: bool)
    | Int(i: int)
    | Float(f: real)
    | Str(s: string)
    | List(items: seq<Node>)
    | PairNode(pair: Pair)
    | Object(pairs: seq<Pair>)

  /** NodePair: a string key and a value. */
  datatype Pair = Pair(key: string, value: Node)

  /** The `type` field. */
  function TypeOf(n: Node): NodeType {
    match n
    case Null => NIL
    case Bool(_) => BOOL
    case Int(_) => INT
    case Float(_) => FLOAT
    case Str(_) => STRING
    case List(_) => LIST
    case PairNode(_) => PAIR
    case Object(_) => OBJECT
  }

  /** `a == b`, dispatched on the class of `a`: NodeNull compares types; a
      SimpleNode requires the same instantiation and an equal value; a list
      or an object requires the same class, the same length and equal
      children at every index; a pair requires equal keys and values. */
  predicate NodeEq(a: Node, b: Node)
    decreases a
  {
    match a
    case Null => TypeOf(b) == NIL
    case Bool(x) => b.Bool? && b.b == x
    case Int(x) => b.Int? && b.i == x
    case Float(x) => b.Float? && b.f == x
    case Str(x) => b.Str? && b.s == x
    case List(xs) =>
      b.List? && |xs| == |b.items| && forall i :: 0 <= i < |xs| ==> NodeEq(xs[i], b.items[i])
    case PairNode(p) => b.PairNode? && PairEq(p, b.pair)
    case Object(ps) =>
      b.Object? && |ps| == |b.pairs| && forall i :: 0 <= i < |ps| ==> PairEq(ps[i], b.pairs[i])
  }

  /** NodePair::operator== on two pairs. */
  predicate PairEq(p: Pair, q: Pair)
    decreases p
  {
    p.key == q.key && NodeEq(p.value, q.value)
  }

  /** Node::operator!=. */
  predicate NodeNe(a: Node, b: Node) {
    !NodeEq(a, b)
  }

  /** The C++ equality is exactly equality of the trees: same shape, same
      order, same values; in particular Int 1 differs from Float 1.0, and
      the order and repetition of keys matter. A float value here is a
      real number: a NaN, which the C++ double `==` finds unequal to
      itself, is not represented. */
  lemma {:induction false} NodeEqIsEquality(a: Node, b: Node)
    ensures NodeEq(a, b) <==> a == b
    ensures NodeNe(a, b) <==> a != b
    decreases a
  {
    match a
    case List(xs) =>
      if b.List? && |xs| == |b.items| {
        forall i | 0 <= i < |xs| ensures NodeEq(xs[i], b.items[i]) <==> xs[i] == b.items[i] {
          NodeEqIsEquality(xs[i], b.items[i]);
        }
        if forall i :: 0 <= i < |xs| ==> xs[i] == b.items[i] {
          assert xs == b.items;
        }
      }
    case PairNode(p) =>
      if b.PairNode? {
        NodeEqIsEquality(p.value, b.pair.value);
      }
    case Object(ps) =>
      if b.Object? && |ps| == |b.pairs| {
        forall i | 0 <= i < |ps| ensures PairEq(ps[i], b.pairs[i]) <==> ps[i] == b.pairs[i] {
          NodeEqIsEquality(ps[i].value, b.pairs[i].value);
        }
        if forall i :: 0 <= i < |ps| ==> ps[i] == b.pairs[i] {
          assert ps == b.pairs;
        }
      }
    case _ =>
  }

  /** Equality is an equivalence. */
  lemma NodeEqEquivalence(a: Node, b: Node, c: Node)
    ensures NodeEq(a, a)
    ensures NodeEq(a, b) ==> NodeEq(b, a)
    ensures NodeEq(a, b) && NodeEq(b, c) ==> NodeEq(a, c)
  {
    NodeEqIsEquality(a, a);
    NodeEqIsEquality(a, b);
    NodeEqIsEquality(b, a);
    NodeEqIsEquality(b, c);
    NodeEqIsEquality(a, c);
  }

  /** `clone`: a fresh copy of the node and, for lists, pairs and objects,
      of every node below it. */
  function Clone(n: Node): Node
    decreases n
  {
    match n
    case List(xs) => List(seq(|xs|, i requires 0 <= i < |xs| => Clone(xs[i])))
    case PairNode(p) => PairNode(ClonePair(p))
    case Object(ps) => Object(seq(|ps|, i requires 0 <= i < |ps| => ClonePair(ps[i])))
    case _ => n
  }

  /** NodePair::clone. */
  function ClonePair(p: Pair): Pair
    decreases p
  {
    Pair(p.key, Clone(p.value))
  }

  /** A clone is the same tree, so it compares equal to its source; this is
      also what clone_node returns, typed as the source's class. */
  lemma {:induction false} CloneIsCopy(n: Node)
    ensures Clone(n) == n
    ensures NodeEq(Clone(n), n) && NodeEq(n, Clone(n))
    ensures TypeOf(Clone(n)) == TypeOf(n)
    decreases n
  {
    match n {
    case List(xs) =>
      forall i | 0 <= i < |xs| ensures Clone(xs[i]) == xs[i] {
        CloneIsCopy(xs[i]);
      }
      assert Clone(n).items == xs;
    case PairNode(p) =>
      CloneIsCopy(p.value);
    case Object(ps) =>
      forall i | 0 <= i < |ps| ensures ClonePair(ps[i]) == ps[i] {
        CloneIsCopy(ps[i].value);
      }
      assert Clone(n).pairs == ps;
    case _ =>
    }
    NodeEqIsEquality(n, n);
  }

  /** `n` spaces. */
  function Spaces(n: nat): (r: string)
    ensures |r| == n && forall i :: 0 <= i < n ==> r[i] == ' '
  {
    seq(n, _ => ' ')
  }

  /** `repr(indent)`. The text of a bool, int, float or string value,
      which the code writes with `::repr(value)`, is not part of this
      model; it is the parameter `leaf`. Null, lists, pairs and objects are laid out as
      node.cpp does: each child on its own lines one level deeper. */
  function Repr(n: Node, indent: nat, leaf: Node -> string): string
    decreases n
  {
    var pad := Spaces(indent * 4);
    match n
    case Null => pad + "null"
    case List(xs) => pad + "[\n" + ReprItems(xs, indent + 1, leaf) + pad + "]"
    case PairNode(p) => ReprPair(p, indent, leaf)
    case Object(ps) => pad + "{\n" + ReprPairs(ps, indent + 1, leaf) + pad + "}"
    case _ => pad + leaf(n)
  }

  /** The loop of NodeList::repr over the children: each child followed by
      ",\n", the last by "\n". */
  function ReprItems(xs: seq<Node>, indent: nat, leaf: Node -> string): string
    decreases xs
  {
    if xs == [] then ""
    else Repr(xs[0], indent, leaf) + (if |xs| != 1 then ",\n" else "\n")
         + ReprItems(xs[1..], indent, leaf)
  }

  /** NodePair::repr: the key as its string node prints at indent 0, a colon
      and a newline, then the value one level deeper. */
  function ReprPair(p: Pair, indent: nat, leaf: Node -> string): string
    decreases p
  {
    Spaces(indent * 4) + leaf(Str(p.key)) + ":\n" + Repr(p.value, indent + 1, leaf)
  }

  /** The loop of NodeObject::repr over the pairs. */
  function ReprPairs(ps: seq<Pair>, indent: nat, leaf: Node -> string): string
    decreases ps
  {
    if ps == [] then ""
    else ReprPair(ps[0], indent, leaf) + (if |ps| != 1 then ",\n" else "\n")
         + ReprPairs(ps[1..], indent, leaf)
  }

  /** `parts` separated by `sep`. */
  function Join(parts: seq<string>, sep: string): string {
    if parts == [] then "" else if |parts| == 1 then parts[0]
    else parts[0] + sep + Join(parts[1..], sep)
  }

  /** The child loop of NodeList::repr is the children's texts joined by
      ",\n" and followed by a final "\n". */
  lemma {:induction false} ReprItemsIsJoin(xs: seq<Node>, indent: nat, leaf: Node -> string)
    requires xs != []
    ensures ReprItems(xs, indent, leaf)
            == Join(seq(|xs|, i requires 0 <= i < |xs| => Repr(xs[i], indent, leaf)), ",\n") + "\n"
    decreases |xs|
  {
    var parts := seq(|xs|, i requires 0 <= i < |xs| => Repr(xs[i], indent, leaf));
    if |xs| > 1 {
      ReprItemsIsJoin(xs[1..], indent, leaf);
      assert parts[1..] == seq(|xs| - 1, i requires 0 <= i < |xs| - 1 => Repr(xs[1..][i], indent, leaf));
    }
  }

  /** The layout of a list: 4 * indent spaces and "[" on the first line,
      then, when there are children, their texts at indent + 1 joined by
      ",\n" and a newline, then 4 * indent spaces and "]". */
  lemma ReprListLayout(xs: seq<Node>, indent: nat, leaf: Node -> string)
    ensures xs == [] ==>
      Repr(List(xs), indent, leaf) == Spaces(indent * 4) + "[\n" + Spaces(indent * 4) + "]"
    ensures xs != [] ==>
      Repr(List(xs), indent, leaf) ==
        Spaces(indent * 4) + "[\n"
        + Join(seq(|xs|, i requires 0 <= i < |xs| => Repr(xs[i], indent + 1, leaf)), ",\n")
        + "\n" + Spaces(indent * 4) + "]"
  {
    if xs != [] {
      ReprItemsIsJoin(xs, indent + 1, leaf);
    }
  }

  /** The pair loop of NodeObject::repr is the pairs' texts joined by
      ",\n" and followed by a final "\n". */
  lemma {:induction false} ReprPairsIsJoin(ps: seq<Pair>, indent: nat, leaf: Node -> string)
    requires ps != []
    ensures ReprPairs(ps, indent, leaf)
            == Join(seq(|ps|, i requires 0 <= i < |ps| => ReprPair(ps[i], indent, leaf)), ",\n") + "\n"
    decreases |ps|
  {
    var parts := seq(|ps|, i requires 0 <= i < |ps| => ReprPair(ps[i], indent, leaf));
    if |ps| > 1 {
      ReprPairsIsJoin(ps[1..], indent, leaf);
      assert parts[1..] == seq(|ps| - 1, i requires 0 <= i < |ps| - 1 => ReprPair(ps[1..][i], indent, leaf));
    }
  }

  /** The layout of an object: 4 * indent spaces and "{" on the first line;
      then, when there are pairs, each pair one level deeper (its key's
      text, a colon, a line break and its value two levels deeper), joined
      by ",\n" and followed by a newline; then 4 * indent spaces and "}". */
  lemma ReprObjectLayout(ps: seq<Pair>, indent: nat, leaf: Node -> string)
    ensures ps == [] ==>
      Repr(Object(ps), indent, leaf) == Spaces(indent * 4) + "{\n" + Spaces(indent * 4) + "}"
    ensures ps != [] ==>
      Repr(Object(ps), indent, leaf) ==
        Spaces(indent * 4) + "{\n"
        + Join(seq(|ps|, i requires 0 <= i < |ps| =>
                 Spaces((indent + 1) * 4) + leaf(Str(ps[i].key)) + ":\n" + Repr(ps[i].value, indent + 2, leaf)), ",\n")
        + "\n" + Spaces(indent * 4) + "}"
  {
    if ps != [] {
      ReprPairsIsJoin(ps, indent + 1, leaf);
      assert seq(|ps|, i requires 0 <= i < |ps| => ReprPair(ps[i], indent + 1, leaf))
          == seq(|ps|, i requires 0 <= i < |ps| =>
                 Spaces((indent + 1) * 4) + leaf(Str(ps[i].key)) + ":\n" + Repr(ps[i].value, indent + 2, leaf));
    }
  }

  /** Every node's text starts with 4 * indent spaces. */
  lemma ReprIndented(n: Node, indent: nat, leaf: Node -> string)
    ensures Spaces(indent * 4) <= Repr(n, indent, leaf)
  {
  }
}
