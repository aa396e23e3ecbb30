/** The formatter's test cases, stated as lemmas about `Render` from the
    top-level context of format_node. */
module FormatExamples {
  import opened Unicode
  import opened Nodes
  import opened Formatting
  import opened FormatText
  import opened FormatLayout

  /** The default FormatOption: four spaces, no tabs. */
  const Default: Options := Options(4, false)

  /** format_node: a node rendered from level 0 on a continued line. */
  function FormatNode(o: Options, floatText: real -> string, n: Node): string {
    Render(o, floatText, n, ContextData(0, false))
  }

  /** A one-digit integer leaf: its indentation and its digit. */
  lemma RenderDigit(o: Options, floatText: real -> string, k: nat, d: ContextData)
    requires k < 10
    ensures Render(o, floatText, Int(k), d) == IndentText(o, d) + [DigitByte(k)]
  {
  }

  /** Leaves are written with no indentation at the top level. */
  lemma FormatsLeaves(floatText: real -> string)
    ensures FormatNode(Default, floatText, Int(1)) == "1"
    ensures FormatNode(Default, floatText, Null) == "null"
    ensures FormatNode(Default, floatText, Bool(true)) == "true"
    ensures FormatNode(Default, floatText, Bool(false)) == "false"
  {
    RenderDigit(Default, floatText, 1, ContextData(0, false));
  }

  /** A plain string is written between quotation marks. */
  lemma FormatsPlainString(floatText: real -> string)
    ensures FormatNode(Default, floatText, Str("asdf")) == "\"asdf\""
  {
    QuotePlain("asdf");
    RenderStr(Default, floatText, "asdf", ContextData(0, false));
  }

  /** The texts of two and three children. */
  lemma Texts2(o: Options, floatText: real -> string, a: Node, b: Node, c: ContextData)
    ensures Texts(o, floatText, [a, b], c) == [Render(o, floatText, a, c), Render(o, floatText, b, c)]
  {
  }

  lemma Texts3(o: Options, floatText: real -> string, a: Node, b: Node, x: Node, c: ContextData)
    ensures Texts(o, floatText, [a, b, x], c)
            == [Render(o, floatText, a, c), Render(o, floatText, b, c), Render(o, floatText, x, c)]
  {
  }

  lemma Join2(a: string, b: string, sep: string)
    ensures Join([a, b], sep) == a + sep + b
  {
    assert [a, b][1..] == [b];
  }

  lemma Join3(a: string, b: string, x: string, sep: string)
    ensures Join([a, b, x], sep) == a + sep + b + sep + x
  {
    assert [a, b, x][1..] == [b, x];
    Join2(b, x, sep);
  }

  /** A one-child list on a continued line: the child between brackets. */
  lemma Singleton(o: Options, floatText: real -> string, x: Node, level: nat)
    ensures Render(o, floatText, List([x]), ContextData(level, false))
            == "[" + Render(o, floatText, x, ContextData(level, false)) + "]"
  {
    var c := ContextData(level, false);
    InlineListLayout(o, floatText, [x], c);
    assert Texts(o, floatText, [x], c) == [Render(o, floatText, x, c)];
  }

  /** [] and {} at the top level. */
  lemma FormatsEmpty(floatText: real -> string)
    ensures FormatNode(Default, floatText, List([])) == "[]"
    ensures FormatNode(Default, floatText, Object([])) == "{}"
  {
    InlineListLayout(Default, floatText, [], ContextData(0, false));
    EmptyObject(Default, floatText, ContextData(0, false));
  }

  /** The children of [1, 2, 3] on a continued line. */
  lemma OneTwoThreeTexts(o: Options, floatText: real -> string, c: ContextData)
    requires !c.newline
    ensures Texts(o, floatText, [Int(1), Int(2), Int(3)], c) == ["1", "2", "3"]
  {
    Texts3(o, floatText, Int(1), Int(2), Int(3), c);
    RenderDigit(o, floatText, 1, c);
    RenderDigit(o, floatText, 2, c);
    RenderDigit(o, floatText, 3, c);
    assert Render(o, floatText, Int(1), c) == "1";
    assert Render(o, floatText, Int(2), c) == "2";
    assert Render(o, floatText, Int(3), c) == "3";
  }

  /** [1, 2, 3] on a continued line, at any level and with any options. */
  lemma OneTwoThree(o: Options, floatText: real -> string, d: ContextData)
    requires !d.newline
    ensures Render(o, floatText, List([Int(1), Int(2), Int(3)]), d) == "[1, 2, 3]"
  {
    var c := ContextData(d.level, false);
    InlineListLayout(o, floatText, [Int(1), Int(2), Int(3)], d);
    OneTwoThreeTexts(o, floatText, c);
    InlineText3(Render(o, floatText, List([Int(1), Int(2), Int(3)]), d), IndentText(o, d),
                Texts(o, floatText, [Int(1), Int(2), Int(3)], c), "1", "2", "3");
  }

  /** An inline list of three texts on a continued line, regrouped. */
  lemma InlineText3(t: string, ind: string, texts: seq<string>, a: string, b: string, x: string)
    requires ind == [] && texts == [a, b, x] && t == ind + "[" + Join(texts, ", ") + "]"
    ensures t == "[" + a + ", " + b + ", " + x + "]"
  {
    Join3(a, b, x, ", ");
  }

  /** [1, 2, 3] stays on one line. */
  lemma FormatsFlatList(floatText: real -> string)
    ensures FormatNode(Default, floatText, List([Int(1), Int(2), Int(3)])) == "[1, 2, 3]"
  {
    OneTwoThree(Default, floatText, ContextData(0, false));
  }

  /** [1, {}, []] stays on one line: every child is simple. */
  lemma FormatsMixedInline(floatText: real -> string)
    ensures FormatNode(Default, floatText, List([Int(1), Object([]), List([])])) == "[1, {}, []]"
  {
    var xs := [Int(1), Object([]), List([])];
    var c := ContextData(0, false);
    assert InlineList(xs);
    InlineListLayout(Default, floatText, xs, c);
    Texts3(Default, floatText, Int(1), Object([]), List([]), c);
    RenderDigit(Default, floatText, 1, c);
    FormatsEmpty(floatText);
    assert Render(Default, floatText, Int(1), c) == "1";
    assert Render(Default, floatText, Object([]), c) == "{}";
    assert Render(Default, floatText, List([]), c) == "[]";
    assert Texts(Default, floatText, xs, c) == ["1", "{}", "[]"];
    Join3("1", "{}", "[]", ", ");
  }

  /** [[[[]]]] and [[[[{}]]]] stay on one line: each list has one child. */
  lemma FormatsNested(floatText: real -> string)
    ensures FormatNode(Default, floatText, List([List([List([List([])])])])) == "[[[[]]]]"
    ensures FormatNode(Default, floatText, List([List([List([List([Object([])])])])])) == "[[[[{}]]]]"
  {
    var c := ContextData(0, false);
    InlineListLayout(Default, floatText, [], c);
    EmptyObject(Default, floatText, c);
    Singleton(Default, floatText, List([]), 0);
    Singleton(Default, floatText, List([List([])]), 0);
    Singleton(Default, floatText, List([List([List([])])]), 0);
    Singleton(Default, floatText, Object([]), 0);
    Singleton(Default, floatText, List([Object([])]), 0);
    Singleton(Default, floatText, List([List([Object([])])]), 0);
    Singleton(Default, floatText, List([List([List([Object([])])])]), 0);
  }

  /** A list of two one-digit integers on a continued line, at any level
      and with any options. */
  lemma TwoDigits(o: Options, floatText: real -> string, x: nat, y: nat, d: ContextData)
    requires x < 10 && y < 10 && !d.newline
    ensures Render(o, floatText, List([Int(x), Int(y)]), d) == ['[', DigitByte(x), ',', ' ', DigitByte(y), ']']
  {
    var c := ContextData(d.level, false);
    InlineListLayout(o, floatText, [Int(x), Int(y)], d);
    Texts2(o, floatText, Int(x), Int(y), c);
    RenderDigit(o, floatText, x, c);
    RenderDigit(o, floatText, y, c);
    Join2([DigitByte(x)], [DigitByte(y)], ", ");
  }

  /** The indentation of a fresh line at level 1. */
  lemma Indent1(o: Options)
    ensures IndentText(o, ContextData(1, true)) == if o.useTab then "\t" else Repeat(' ', o.indent)
    ensures IndentText(o, ContextData(0, true)) == ""
  {
  }

  /** The children of [[4, 5], 2, 3], each on a line of its own at level
      1. */
  lemma BlockListTexts(floatText: real -> string)
    ensures Texts(Default, floatText, [List([Int(4), Int(5)]), Int(2), Int(3)], ContextData(1, true))
            == ["    [4, 5]", "    2", "    3"]
  {
    var inner := List([Int(4), Int(5)]);
    var c1 := ContextData(1, true);
    Indent1(Default);
    assert Repeat(' ', 4) == "    ";
    TwoDigits(Default, floatText, 4, 5, ContextData(1, false));
    assert Render(Default, floatText, inner, c1) == "    " + "[4, 5]" == "    [4, 5]";
    Texts3(Default, floatText, inner, Int(2), Int(3), c1);
    RenderDigit(Default, floatText, 2, c1);
    RenderDigit(Default, floatText, 3, c1);
    assert Render(Default, floatText, Int(2), c1) == "    2";
    assert Render(Default, floatText, Int(3), c1) == "    3";
  }

  /** [[4, 5], 2, 3]: a child that is not simple puts every child on a
      line of its own, four spaces deep. */
  lemma FormatsBlockList(floatText: real -> string)
    ensures FormatNode(Default, floatText, List([List([Int(4), Int(5)]), Int(2), Int(3)]))
            == "[\n" + "    [4, 5],\n" + "    2,\n" + "    3\n" + "]"
  {
    var xs := [List([Int(4), Int(5)]), Int(2), Int(3)];
    assert !IsSimple(xs[0]);
    BlockListLayout(Default, floatText, xs, ContextData(0, false));
    Indent1(Default);
    BlockListTexts(floatText);
    BlockListText(FormatNode(Default, floatText, List(xs)), IndentText(Default, ContextData(0, false)),
                  IndentText(Default, ContextData(0, true)), Texts(Default, floatText, xs, ContextData(1, true)));
  }

  lemma BlockListText(t: string, open: string, close: string, texts: seq<string>)
    requires open == [] && close == [] && texts == ["    [4, 5]", "    2", "    3"]
    requires t == open + "[\n" + Join(texts, ",\n") + "\n" + close + "]"
    ensures t == "[\n" + "    [4, 5],\n" + "    2,\n" + "    3\n" + "]"
  {
    Join3("    [4, 5]", "    2", "    3", ",\n");
  }

  /** [[1, 2, 3], 4] with any options: two lines for the children, each
      after the indentation of level 1. */
  lemma FormatsWithOptions(o: Options, floatText: real -> string)
    ensures var ind := IndentText(o, ContextData(1, true));
      FormatNode(o, floatText, List([List([Int(1), Int(2), Int(3)]), Int(4)]))
      == "[\n" + ind + "[1, 2, 3]" + ",\n" + ind + "4" + "\n" + "]"
  {
    var inner := List([Int(1), Int(2), Int(3)]);
    var xs := [inner, Int(4)];
    var c1 := ContextData(1, true);
    var ind := IndentText(o, c1);
    assert !IsSimple(xs[0]);
    var a := Render(o, floatText, inner, c1);
    OneTwoThree(o, floatText, ContextData(1, false));
    InlineListIndented(o, floatText, [Int(1), Int(2), Int(3)], c1);
    assert a == ind + "[1, 2, 3]";
    var b := Render(o, floatText, Int(4), c1);
    RenderDigit(o, floatText, 4, c1);
    assert b == ind + "4";
    Texts2(o, floatText, inner, Int(4), c1);
    Join2(a, b, ",\n");
    BlockListLayout(o, floatText, xs, ContextData(0, false));
    Indent1(o);
    assert FormatNode(o, floatText, List(xs)) == [] + "[\n" + (a + ",\n" + b) + "\n" + "" + "]";
    TwoLines(FormatNode(o, floatText, List(xs)), ind, a, b);
  }

  /** The text of [[1, 2, 3], 4] in block form, regrouped. */
  lemma TwoLines(t: string, ind: string, a: string, b: string)
    requires a == ind + "[1, 2, 3]" && b == ind + "4"
    requires t == [] + "[\n" + (a + ",\n" + b) + "\n" + "" + "]"
    ensures t == "[\n" + ind + "[1, 2, 3]" + ",\n" + ind + "4" + "\n" + "]"
  {
  }

  /** The same text with a given indentation. */
  lemma TwoLinesIndented(t: string, ind: string)
    requires t == "[\n" + ind + "[1, 2, 3]" + ",\n" + ind + "4" + "\n" + "]"
    ensures ind == "  " ==> t == "[\n  [1, 2, 3],\n  4\n]"
    ensures ind == "\t" ==> t == "[\n\t[1, 2, 3],\n\t4\n]"
  {
  }

  /** The indent option: two spaces. */
  lemma FormatsIndentTwo(floatText: real -> string)
    ensures FormatNode(Options(2, false), floatText, List([List([Int(1), Int(2), Int(3)]), Int(4)]))
            == "[\n  [1, 2, 3],\n  4\n]"
  {
    var o := Options(2, false);
    FormatsWithOptions(o, floatText);
    Indent1(o);
    assert Repeat(' ', 2) == "  ";
    TwoLinesIndented(FormatNode(o, floatText, List([List([Int(1), Int(2), Int(3)]), Int(4)])), "  ");
  }

  /** The use_tab option: one tab per level. */
  lemma FormatsTab(floatText: real -> string)
    ensures FormatNode(Options(4, true), floatText, List([List([Int(1), Int(2), Int(3)]), Int(4)]))
            == "[\n\t[1, 2, 3],\n\t4\n]"
  {
    var o := Options(4, true);
    FormatsWithOptions(o, floatText);
    Indent1(o);
    TwoLinesIndented(FormatNode(o, floatText, List([List([Int(1), Int(2), Int(3)]), Int(4)])), "\t");
  }

  /** The pair "a": 123 at the start of a fresh line at level 1. */
  lemma PairA(o: Options, floatText: real -> string)
    ensures RenderPair(o, floatText, Pair("a", Int(123)), ContextData(1, true))
            == IndentText(o, ContextData(1, true)) + "\"a\"" + ": " + "123"
  {
    PairLayout(o, floatText, Pair("a", Int(123)), ContextData(1, true));
    QuoteKey('a');
    Int123(o, floatText, ContextData(1, false));
  }

  /** 123 on a continued line. */
  lemma Int123(o: Options, floatText: real -> string, d: ContextData)
    requires !d.newline
    ensures Render(o, floatText, Int(123), d) == "123"
  {
    assert Digits(123) == "123";
  }

  /** {"a": 123}: a pair is never simple, so an object that has one is in
      block form, its pair on a line of its own one level deep. */
  lemma FormatsObject(floatText: real -> string)
    ensures FormatNode(Default, floatText, Object([Pair("a", Int(123))])) == "{\n" + "    \"a\": 123\n" + "}"
  {
    var ps := [Pair("a", Int(123))];
    var c1 := ContextData(1, true);
    BlockObject(Default, floatText, ps, ContextData(0, false));
    PairA(Default, floatText);
    Indent1(Default);
    assert Repeat(' ', 4) == "    ";
    var texts := PairTexts(Default, floatText, ps, c1);
    assert texts == [RenderPair(Default, floatText, ps[0], c1)];
    ObjectText(FormatNode(Default, floatText, Object(ps)), IndentText(Default, ContextData(0, false)),
               IndentText(Default, ContextData(0, true)), texts, IndentText(Default, c1));
  }

  lemma ObjectText(t: string, open: string, close: string, texts: seq<string>, ind: string)
    requires open == [] && close == [] && ind == "    " && texts == [ind + "\"a\"" + ": " + "123"]
    requires t == open + "{\n" + Join(texts, ",\n") + "\n" + close + "}"
    ensures t == "{\n" + "    \"a\": 123\n" + "}"
  {
  }

  /** A one-character string: its quoted character between quotation
      marks. */
  lemma QuotedOne(floatText: real -> string, ch: char)
    ensures FormatNode(Default, floatText, Str([ch])) == "\"" + QuoteChar(ch) + "\""
  {
    RenderStr(Default, floatText, [ch], ContextData(0, false));
    assert [ch][..0] == [];
  }

  /** A line break is written as the escape \n, and other control
      characters as \u and four hexadecimal digits. */
  lemma FormatsEscapes(floatText: real -> string)
    ensures FormatNode(Default, floatText, Str("\n")) == "\"\\n\""
    ensures FormatNode(Default, floatText, Str([1 as char])) == "\"\\u0001\""
    ensures FormatNode(Default, floatText, Str([0 as char])) == "\"\\u0000\""
  {
    QuotedOne(floatText, '\n');
    QuotedOne(floatText, 1 as char);
    QuotedOne(floatText, 0 as char);
    assert Hex4(1) == "0001";
    assert Hex4(0) == "0000";
  }

  /** U+554A is written as its three UTF-8 bytes E5 95 8A. */
  lemma FormatsUtf8(floatText: real -> string)
    ensures FormatNode(Default, floatText, Str([0x554A as char]))
            == "\"" + [0xE5 as char, 0x95 as char, 0x8A as char] + "\""
  {
    var ch := 0x554A as char;
    QuotedOne(floatText, ch);
    CodePoint(ch);
    assert ch as int as bv32 == 0x554A;
    var e := Encode(0x554A);
    assert e == [0xE5, 0x95, 0x8A];
    assert Utf8(ch) == [0xE5 as char, 0x95 as char, 0x8A as char];
  }

  /** A block of two texts after an opening that starts the line,
      regrouped. */
  lemma Block2(t: string, ind0: string, open: string, texts: seq<string>, a: string, b: string, ind: string, close: string)
    requires ind0 == [] && texts == [a, b]
    requires t == ind0 + open + Join(texts, ",\n") + "\n" + ind + close
    ensures t == open + a + ",\n" + b + "\n" + ind + close
  {
    Join2(a, b, ",\n");
  }

  /** Fresh-line indentation with the default options. */
  lemma DefaultIndents()
    ensures IndentText(Default, ContextData(1, true)) == "    "
    ensures IndentText(Default, ContextData(2, true)) == "        "
    ensures IndentText(Default, ContextData(3, true)) == "            "
  {
    assert Repeat(' ', 4) == "    ";
    assert Repeat(' ', 8) == "        ";
    assert Repeat(' ', 12) == "            ";
  }

  /** [1, [2, 3]] as the value of a pair at level 2: not simple, since its
      second child has two children. */
  lemma NestedList(floatText: real -> string)
    ensures Render(Default, floatText, List([Int(1), List([Int(2), Int(3)])]), ContextData(2, false))
            == "[\n" + "            1,\n" + "            [2, 3]\n" + "        ]"
  {
    var inner := List([Int(2), Int(3)]);
    var xs := [Int(1), inner];
    var c3 := ContextData(3, true);
    assert !IsSimple(xs[1]);
    BlockListLayout(Default, floatText, xs, ContextData(2, false));
    DefaultIndents();
    RenderDigit(Default, floatText, 1, c3);
    var a := Render(Default, floatText, Int(1), c3);
    assert a == "            1";
    TwoDigits(Default, floatText, 2, 3, ContextData(3, false));
    InlineListIndented(Default, floatText, [Int(2), Int(3)], c3);
    var b := Render(Default, floatText, inner, c3);
    assert b == "            [2, 3]";
    Texts2(Default, floatText, Int(1), inner, c3);
    var t := Render(Default, floatText, List(xs), ContextData(2, false));
    Block2(t, IndentText(Default, ContextData(2, false)), "[\n", Texts(Default, floatText, xs, c3), a, b, "        ", "]");
    NestedListText(t, a, b);
  }

  lemma NestedListText(t: string, a: string, b: string)
    requires a == "            1" && b == "            [2, 3]"
    requires t == "[\n" + a + ",\n" + b + "\n" + "        " + "]"
    ensures t == "[\n" + "            1,\n" + "            [2, 3]\n" + "        ]"
  {
  }

  /** A one-letter key between quotation marks. */
  lemma QuoteKey(k: char)
    requires 'a' <= k <= 'z'
    ensures Quote([k]) == ['"', k, '"']
  {
    QuotePlain([k]);
  }

  /** The object {"b": null, "c": [1, [2, 3]]} as the value of a pair at
      level 1: its pairs at level 2, the list on the line of its key. */
  lemma NestedObject(floatText: real -> string)
    ensures Render(Default, floatText, Object([Pair("b", Null), Pair("c", List([Int(1), List([Int(2), Int(3)])]))]), ContextData(1, false))
            == "{\n" + "        \"b\": null,\n" + "        \"c\": [\n" + "            1,\n" + "            [2, 3]\n"
               + "        ]\n" + "    }"
  {
    var l := List([Int(1), List([Int(2), Int(3)])]);
    var ps := [Pair("b", Null), Pair("c", l)];
    var c2 := ContextData(2, true);
    var line := ContextData(2, false);
    BlockObject(Default, floatText, ps, ContextData(1, false));
    DefaultIndents();
    QuoteKey('b');
    QuoteKey('c');
    PairLayout(Default, floatText, ps[0], c2);
    var a := RenderPair(Default, floatText, ps[0], c2);
    assert a == "        " + "\"b\"" + ": " + "null";
    PairLayout(Default, floatText, ps[1], c2);
    NestedList(floatText);
    var b := RenderPair(Default, floatText, ps[1], c2);
    var tl := "[\n" + "            1,\n" + "            [2, 3]\n" + "        ]";
    assert b == "        " + "\"c\"" + ": " + tl;
    var texts := PairTexts(Default, floatText, ps, c2);
    assert texts == [a, b];
    var t := Render(Default, floatText, Object(ps), ContextData(1, false));
    Block2(t, IndentText(Default, ContextData(1, false)), "{\n", texts, a, b, "    ", "}");
    NestedObjectText(t, a, b, tl);
  }

  lemma NestedObjectText(t: string, a: string, b: string, tl: string)
    requires a == "        " + "\"b\"" + ": " + "null"
    requires tl == "[\n" + "            1,\n" + "            [2, 3]\n" + "        ]"
    requires b == "        " + "\"c\"" + ": " + tl
    requires t == "{\n" + a + ",\n" + b + "\n" + "    " + "}"
    ensures t == "{\n" + "        \"b\": null,\n" + "        \"c\": [\n" + "            1,\n" + "            [2, 3]\n"
                 + "        ]\n" + "    }"
  {
  }

  /** The nested document of the formatter's tests: each object in block
      form one level deeper than its key, [1, [2, 3]] in block form, and
      [4, 5] inline after its key. */
  lemma FormatsNestedDocument(floatText: real -> string)
    ensures FormatNode(Default, floatText,
              Object([Pair("a", Object([Pair("b", Null), Pair("c", List([Int(1), List([Int(2), Int(3)])]))])),
                      Pair("d", List([Int(4), Int(5)]))]))
            == "{\n" + "    \"a\": {\n" + "        \"b\": null,\n" + "        \"c\": [\n" + "            1,\n"
               + "            [2, 3]\n" + "        ]\n" + "    },\n" + "    \"d\": [4, 5]\n" + "}"
  {
    var inner := Object([Pair("b", Null), Pair("c", List([Int(1), List([Int(2), Int(3)])]))]);
    var ps := [Pair("a", inner), Pair("d", List([Int(4), Int(5)]))];
    var c1 := ContextData(1, true);
    var line := ContextData(1, false);
    BlockObject(Default, floatText, ps, ContextData(0, false));
    DefaultIndents();
    Indent1(Default);
    QuoteKey('a');
    QuoteKey('d');
    PairLayout(Default, floatText, ps[0], c1);
    NestedObject(floatText);
    var to := "{\n" + "        \"b\": null,\n" + "        \"c\": [\n" + "            1,\n" + "            [2, 3]\n"
              + "        ]\n" + "    }";
    var a := RenderPair(Default, floatText, ps[0], c1);
    assert a == "    " + "\"a\"" + ": " + to;
    PairLayout(Default, floatText, ps[1], c1);
    TwoDigits(Default, floatText, 4, 5, line);
    var b := RenderPair(Default, floatText, ps[1], c1);
    assert b == "    " + "\"d\"" + ": " + "[4, 5]";
    var texts := PairTexts(Default, floatText, ps, c1);
    assert texts == [a, b];
    var t := FormatNode(Default, floatText, Object(ps));
    Block2(t, IndentText(Default, ContextData(0, false)), "{\n", texts, a, b, "", "}");
    NestedDocumentText(t, a, b, to);
  }

  lemma NestedDocumentText(t: string, a: string, b: string, to: string)
    requires to == "{\n" + "        \"b\": null,\n" + "        \"c\": [\n" + "            1,\n" + "            [2, 3]\n"
                   + "        ]\n" + "    }"
    requires a == "    " + "\"a\"" + ": " + to
    requires b == "    " + "\"d\"" + ": " + "[4, 5]"
    requires t == "{\n" + a + ",\n" + b + "\n" + "" + "}"
    ensures t == "{\n" + "    \"a\": {\n" + "        \"b\": null,\n" + "        \"c\": [\n" + "            1,\n"
                 + "            [2, 3]\n" + "        ]\n" + "    },\n" + "    \"d\": [4, 5]\n" + "}"
  {
  }
}
