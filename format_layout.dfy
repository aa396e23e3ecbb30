/** The layout rules of the formatter, stated as lemmas about `Render`:
    inline and block layout of lists and objects in terms of `Join`, the
    indentation every rendering starts with, and when a node fits on one
    line. */
module FormatLayout {
  import opened Nodes
  import opened Formatting
  import opened FormatText

  /** The renderings of the children of a list in context `c`. */
  function Texts(o: Options, floatText: real -> string, xs: seq<Node>, c: ContextData): (r: seq<string>)
    ensures |r| == |xs|
  {
    seq(|xs|, i requires 0 <= i < |xs| => Render(o, floatText, xs[i], c))
  }

  /** The renderings of the pairs of an object in context `c`. */
  function PairTexts(o: Options, floatText: real -> string, ps: seq<Pair>, c: ContextData): (r: seq<string>)
    ensures |r| == |ps|
  {
    seq(|ps|, i requires 0 <= i < |ps| => RenderPair(o, floatText, ps[i], c))
  }

  /** What do_list_like writes between two children. */
  function Sep(inline: bool): string {
    if inline then ", " else ",\n"
  }

  /** The first `k` of `parts`, each followed by do_list_like's separator;
      the shape of RenderItems and RenderPairs over given texts. */
  function Series(parts: seq<string>, k: nat, inline: bool): string
    requires k <= |parts|
  {
    if k == 0 then [] else Series(parts, k - 1, inline) + parts[k - 1] + Separator(k - 1, |parts|, inline)
  }

  lemma {:induction false} RenderItemsSeries(o: Options, floatText: real -> string, xs: seq<Node>, k: nat, c: ContextData, inline: bool)
    requires k <= |xs|
    ensures RenderItems(o, floatText, xs, k, c, inline) == Series(Texts(o, floatText, xs, c), k, inline)
    decreases k
  {
    if k > 0 {
      RenderItemsSeries(o, floatText, xs, k - 1, c, inline);
      assert Texts(o, floatText, xs, c)[k - 1] == Render(o, floatText, xs[k - 1], c);
    }
  }

  lemma {:induction false} RenderPairsSeries(o: Options, floatText: real -> string, ps: seq<Pair>, k: nat, c: ContextData, inline: bool)
    requires k <= |ps|
    ensures RenderPairs(o, floatText, ps, k, c, inline) == Series(PairTexts(o, floatText, ps, c), k, inline)
    decreases k
  {
    if k > 0 {
      RenderPairsSeries(o, floatText, ps, k - 1, c, inline);
    }
  }

  /** Joining one more part appends the separator and the part. */
  lemma {:induction false} JoinSnoc(parts: seq<string>, p: string, sep: string)
    requires parts != []
    ensures Join(parts + [p], sep) == Join(parts, sep) + sep + p
    decreases |parts|
  {
    if |parts| == 1 {
      assert (parts + [p])[1..] == [p];
    } else {
      JoinSnoc(parts[1..], p, sep);
      assert (parts + [p])[1..] == parts[1..] + [p];
    }
  }

  /** The first k >= 1 parts with their separators: the parts joined, then
      the separator after part k - 1. */
  lemma {:induction false} SeriesPrefix(parts: seq<string>, k: nat, inline: bool)
    requires 1 <= k <= |parts|
    ensures Series(parts, k, inline) == Join(parts[..k], Sep(inline)) + Separator(k - 1, |parts|, inline)
    decreases k
  {
    if k == 1 {
      assert parts[..1] == [parts[0]];
    } else {
      SeriesPrefix(parts, k - 1, inline);
      assert parts[..k] == parts[..k - 1] + [parts[k - 1]];
      JoinSnoc(parts[..k - 1], parts[k - 1], Sep(inline));
    }
  }

  /** The whole loop of do_list_like: the parts joined by ", " when inline,
      otherwise joined by ",\n" and followed by "\n"; nothing when there are
      none. */
  lemma SeriesJoin(parts: seq<string>, inline: bool)
    ensures parts == [] ==> Series(parts, |parts|, inline) == ""
    ensures parts != [] && inline ==> Series(parts, |parts|, inline) == Join(parts, ", ")
    ensures parts != [] && !inline ==> Series(parts, |parts|, inline) == Join(parts, ",\n") + "\n"
  {
    if parts != [] {
      SeriesPrefix(parts, |parts|, inline);
      assert parts[..|parts|] == parts;
    }
  }

  /** do_list on an inline list: the indentation, "[", the children joined
      by ", " on the list's line, "]". */
  lemma InlineListLayout(o: Options, floatText: real -> string, xs: seq<Node>, d: ContextData)
    requires InlineList(xs)
    ensures Render(o, floatText, List(xs), d)
            == IndentText(o, d) + "[" + Join(Texts(o, floatText, xs, ContextData(d.level, false)), ", ") + "]"
  {
    var c := ContextData(d.level, false);
    RenderItemsSeries(o, floatText, xs, |xs|, c, true);
    SeriesJoin(Texts(o, floatText, xs, c), true);
  }

  /** An inline list on a fresh line is its indentation followed by the
      same list on a continued line. */
  lemma InlineListIndented(o: Options, floatText: real -> string, xs: seq<Node>, d: ContextData)
    requires InlineList(xs)
    ensures Render(o, floatText, List(xs), d)
            == IndentText(o, d) + Render(o, floatText, List(xs), ContextData(d.level, false))
  {
    var c := ContextData(d.level, false);
    var j := Join(Texts(o, floatText, xs, c), ", ");
    InlineListLayout(o, floatText, xs, d);
    InlineListLayout(o, floatText, xs, c);
    assert IndentText(o, c) == [];
    assert IndentText(o, d) + "[" + j + "]" == IndentText(o, d) + ([] + "[" + j + "]");
  }

  /** do_list on a list in block form: the indentation, "[" and a line
      break, the children one level deeper on fresh lines joined by ",\n",
      a line break, and "]" on a fresh line at the list's level. */
  lemma BlockListLayout(o: Options, floatText: real -> string, xs: seq<Node>, d: ContextData)
    requires !InlineList(xs)
    ensures |xs| >= 2
    ensures Render(o, floatText, List(xs), d)
            == IndentText(o, d) + "[\n" + Join(Texts(o, floatText, xs, ContextData(d.level + 1, true)), ",\n") + "\n"
               + IndentText(o, ContextData(d.level, true)) + "]"
  {
    var c := ContextData(d.level + 1, true);
    RenderItemsSeries(o, floatText, xs, |xs|, c, false);
    SeriesJoin(Texts(o, floatText, xs, c), false);
  }

  /** do_object's choice: an object is laid out inline exactly when it is
      empty, since a pair is never simple. */
  lemma ObjectInlineIffEmpty(ps: seq<Pair>)
    ensures InlineObject(ps) <==> ps == []
  {
    if ps != [] {
      assert !IsSimple(PairNode(ps[0]));
    }
  }

  /** An empty object: "{}" after the indentation. */
  lemma EmptyObject(o: Options, floatText: real -> string, d: ContextData)
    ensures Render(o, floatText, Object([]), d) == IndentText(o, d) + "{}"
  {
    var c := Inner(d, true);
    assert RenderPairs(o, floatText, [], 0, c, true) == [];
    var open := OpenText(o, d, '{', true);
    var close := CloseText(o, d, '}', true);
    assert open == IndentText(o, d) + "{" && close == "}";
    assert Render(o, floatText, Object([]), d) == open + [] + close;
  }

  /** do_list_like in block form around children already joined. */
  lemma BlockListLike(o: Options, d: ContextData, open: char, close: char, joined: string)
    ensures ListLike(o, d, open, close, false, joined + "\n")
            == IndentText(o, d) + [open, '\n'] + joined + "\n" + IndentText(o, ContextData(d.level, true)) + [close]
  {
  }

  lemma BlockObjectOpen(o: Options, floatText: real -> string, ps: seq<Pair>, d: ContextData)
    requires ps != []
    ensures Render(o, floatText, Object(ps), d)
            == ListLike(o, d, '{', '}', false, RenderPairs(o, floatText, ps, |ps|, ContextData(d.level + 1, true), false))
  {
    ObjectInlineIffEmpty(ps);
  }

  /** A non-empty object in block form: the indentation, "{" and a line
      break, the pairs one level deeper on fresh lines joined by ",\n", a
      line break, and "}" on a fresh line at the object's level. */
  lemma BlockObject(o: Options, floatText: real -> string, ps: seq<Pair>, d: ContextData)
    requires ps != []
    ensures Render(o, floatText, Object(ps), d)
            == IndentText(o, d) + "{\n" + Join(PairTexts(o, floatText, ps, ContextData(d.level + 1, true)), ",\n") + "\n"
               + IndentText(o, ContextData(d.level, true)) + "}"
  {
    var c := ContextData(d.level + 1, true);
    BlockObjectOpen(o, floatText, ps, d);
    RenderPairsSeries(o, floatText, ps, |ps|, c, false);
    SeriesJoin(PairTexts(o, floatText, ps, c), false);
    BlockListLike(o, d, '{', '}', Join(PairTexts(o, floatText, ps, c), ",\n"));
  }

  /** do_object: an empty object is "{}" after the indentation; any other
      object is in block form, its pairs one level deeper on fresh lines. */
  lemma ObjectLayout(o: Options, floatText: real -> string, ps: seq<Pair>, d: ContextData)
    ensures ps == [] ==> Render(o, floatText, Object(ps), d) == IndentText(o, d) + "{}"
    ensures ps != [] ==>
      Render(o, floatText, Object(ps), d)
      == IndentText(o, d) + "{\n" + Join(PairTexts(o, floatText, ps, ContextData(d.level + 1, true)), ",\n") + "\n"
         + IndentText(o, ContextData(d.level, true)) + "}"
  {
    if ps == [] {
      EmptyObject(o, floatText, d);
    } else {
      BlockObject(o, floatText, ps, d);
    }
  }

  /** do_pair: the indentation, the quoted key, ": ", and the value on the
      same line. */
  lemma PairLayout(o: Options, floatText: real -> string, p: Pair, d: ContextData)
    ensures RenderPair(o, floatText, p, d)
            == IndentText(o, d) + Quote(p.key) + ": " + Render(o, floatText, p.value, ContextData(d.level, false))
  {
    assert Render(o, floatText, Str(p.key), ContextData(d.level, false)) == Quote(p.key);
  }

  /** Every rendering starts with the indentation of its context: nothing
      on a continued line, the level's tabs or spaces on a fresh one. */
  lemma RenderIndented(o: Options, floatText: real -> string, n: Node, d: ContextData)
    ensures var ind := IndentText(o, d);
      |ind| <= |Render(o, floatText, n, d)| && Render(o, floatText, n, d)[..|ind|] == ind
  {
  }

  /** A float text on one line. */
  ghost predicate OneLineFloats(floatText: real -> string) {
    forall f: real :: '\n' !in floatText(f)
  }

  /** Quoted text never holds a raw line break. */
  lemma {:induction false} QuoteCharsOneLine(s: string)
    ensures '\n' !in QuoteChars(s)
    decreases |s|
  {
    if s != [] {
      QuoteCharsOneLine(s[..|s| - 1]);
      QuoteCharSafe(s[|s| - 1]);
    }
  }

  lemma IntTextOneLine(i: int)
    ensures '\n' !in IntText(i)
  {
    var ds := Digits(if i < 0 then -i else i);
    assert '\n' !in ds;
    assert IntText(i) == ds || IntText(i) == "-" + ds;
  }

  /** Joined texts with no line break, joined by ", ", hold none. */
  lemma {:induction false} JoinOneLine(parts: seq<string>)
    requires forall i :: 0 <= i < |parts| ==> '\n' !in parts[i]
    ensures '\n' !in Join(parts, ", ")
    decreases |parts|
  {
    if |parts| > 1 {
      JoinOneLine(parts[1..]);
    }
  }

  /** A simple node rendered on a continued line takes one line: a leaf, an
      empty container, or a one-child list of a simple node. */
  lemma {:induction false} SimpleOneLine(o: Options, floatText: real -> string, n: Node, d: ContextData)
    requires IsSimple(n) && !d.newline && OneLineFloats(floatText)
    ensures '\n' !in Render(o, floatText, n, d)
    decreases n
  {
    match n
    case Null =>
    case Bool(_) =>
    case Int(i) => IntTextOneLine(i);
    case Float(f) =>
    case Str(s) => QuoteCharsOneLine(s);
    case List(xs) =>
      InlineOneLine(o, floatText, xs, d);
    case Object(ps) =>
      ObjectLayout(o, floatText, ps, d);
  }

  /** A list whose children are all simple, rendered on a continued line,
      takes one line, e.g. [1, {}, []]. */
  lemma {:induction false} InlineOneLine(o: Options, floatText: real -> string, xs: seq<Node>, d: ContextData)
    requires (forall i :: 0 <= i < |xs| ==> IsSimple(xs[i])) && !d.newline && OneLineFloats(floatText)
    ensures '\n' !in Render(o, floatText, List(xs), d)
    decreases xs
  {
    var c := ContextData(d.level, false);
    var texts := Texts(o, floatText, xs, c);
    forall i | 0 <= i < |xs|
      ensures '\n' !in texts[i]
    {
      SimpleOneLine(o, floatText, xs[i], c);
    }
    JoinOneLine(texts);
    InlineListLayout(o, floatText, xs, d);
  }
}
