/** The pretty-printer of formatter.h / formatter.cpp.

    The C++ formatter writes bytes to an ostream. Here the output is a
    `string` whose characters each hold one byte (0 to 255), as a C++
    `std::string` does; every `Do` method returns the text it writes, is
    proved to return exactly what the layout function `Render` says, and
    leaves the context's level, newline flag and saved stack as it found
    them. */
module Formatting {
  import opened Unicode
  import opened Nodes

  /** The texts of the null and boolean leaves. */
  const NullText: string := "null"
  const TrueText: string := "true"
  const FalseText: string := "false"

  /** The option values a formatting run reads. */
  datatype Options = Options(indent: nat, useTab: bool)

  /** FormatOption: two options with chainable setters. */
  class FormatOption {
    var indent: nat
    var useTab: bool

    constructor ()
      ensures indent == 4 && !useTab
    {
      indent := 4;
      useTab := false;
    }

    /** The setter `indent(value)`: changes the indent only and returns the
        same option object, so that setters chain. */
    method SetIndent(value: nat) returns (self: FormatOption)
      modifies this
      ensures self == this && indent == value && useTab == old(useTab)
    {
      indent := value;
      self := this;
    }

    /** The setter `use_tab(value)`. */
    method SetUseTab(value: bool) returns (self: FormatOption)
      modifies this
      ensures self == this && useTab == value && indent == old(indent)
    {
      useTab := value;
      self := this;
    }

    function Value(): Options
      reads this
    {
      Options(indent, useTab)
    }
  }

  /** FormatContextData: the nesting level and whether the current line is
      a fresh one that still needs its indentation. */
  datatype ContextData = ContextData(level: nat, newline: bool)

  /** FormatContext: the current data and a stack of saved copies. */
  class FormatContext {
    var level: nat
    var newline: bool
    var stack: seq<ContextData>
    const opt: Options

    constructor (opt: Options)
      ensures this.opt == opt && level == 0 && !newline && stack == []
    {
      this.opt := opt;
      level := 0;
      newline := false;
      stack := [];
    }

    function Data(): ContextData
      reads this
    {
      ContextData(level, newline)
    }

    /** Saves the current level and newline flag. */
    method Push()
      modifies this
      ensures stack == old(stack) + [old(Data())]
      ensures level == old(level) && newline == old(newline)
    {
      stack := stack + [Data()];
    }

    /** Restores the most recently saved level and newline flag; the saved
        stack must not be empty. */
    method Pop()
      requires stack != []
      modifies this
      ensures Data() == old(stack[|stack| - 1]) && stack == old(stack[..|stack| - 1])
    {
      level := stack[|stack| - 1].level;
      newline := stack[|stack| - 1].newline;
      stack := stack[..|stack| - 1];
    }
  }

  function Repeat(c: char, n: nat): (r: string)
    ensures |r| == n && forall x <- r :: x == c
  {
    if n == 0 then "" else Repeat(c, n - 1) + [c]
  }

  /** do_indent: on a fresh line, `level` tabs or `level * indent` spaces;
      otherwise nothing. */
  function IndentText(o: Options, d: ContextData): (r: string)
    ensures |r| == if !d.newline then 0 else if o.useTab then d.level else d.level * o.indent
    ensures forall b <- r :: b == if o.useTab then '\t' else ' '
  {
    if !d.newline then []
    else if o.useTab then Repeat('\t', d.level)
    else Repeat(' ', d.level * o.indent)
  }

  /** is_simple_node: a leaf, a list that is empty or holds one simple
      child, or an empty object. A pair is never simple. */
  predicate IsSimple(n: Node)
    decreases n, 1
  {
    match n
    case List(xs) => IsSimpleList(xs)
    case Object(ps) => ps == []
    case PairNode(_) => false
    case _ => true
  }

  /** is_simple_list. */
  predicate IsSimpleList(xs: seq<Node>)
    decreases xs, 0
  {
    xs == [] || (|xs| == 1 && IsSimple(xs[0]))
  }

  /** do_list's choice: the children go on one line when there is at most
      one or all are simple. */
  predicate InlineList(xs: seq<Node>) {
    |xs| <= 1 || forall i :: 0 <= i < |xs| ==> IsSimple(xs[i])
  }

  /** do_object's choice: the pairs go on one line when there are none or
      all are simple. */
  predicate InlineObject(ps: seq<Pair>) {
    ps == [] || forall i :: 0 <= i < |ps| ==> IsSimple(PairNode(ps[i]))
  }

  /** The context do_list_like renders the children in. */
  function Inner(d: ContextData, inline: bool): ContextData {
    if inline then ContextData(d.level, false) else ContextData(d.level + 1, true)
  }

  /** What do_list_like writes after child `i` of `n`. */
  function Separator(i: nat, n: nat, inline: bool): string {
    if i != n - 1 then (if inline then ", " else ",\n")
    else if inline then [] else "\n"
  }

  /** What do_list_like writes before the children: the indentation and
      the opening bracket, followed by a line break unless inline. */
  function OpenText(o: Options, d: ContextData, open: char, inline: bool): string {
    IndentText(o, d) + (if inline then [open] else [open, '\n'])
  }

  /** What do_list_like writes after the children: unless inline, the
      indentation of a fresh line at the list's own level; then the closing
      bracket. */
  function CloseText(o: Options, d: ContextData, close: char, inline: bool): string {
    (if inline then [] else IndentText(o, ContextData(d.level, true))) + [close]
  }

  /** do_list_like around the text `body` of the children. */
  function ListLike(o: Options, d: ContextData, open: char, close: char, inline: bool, body: string): string {
    OpenText(o, d, open, inline) + body + CloseText(o, d, close, inline)
  }

  /** The lower-case hexadecimal digit of `v`. */
  function HexDigit(v: nat): (b: char)
    requires v < 16
  {
    if v < 10 then (0x30 + v) as char else (0x61 + v - 10) as char
  }

  /** `%04x`: four lower-case hexadecimal digits. */
  function Hex4(v: nat): (r: string)
    requires v < 0x1_0000
    ensures |r| == 4
  {
    [HexDigit(v / 0x1000), HexDigit(v / 0x100 % 0x10), HexDigit(v / 0x10 % 0x10), HexDigit(v % 0x10)]
  }

  /** quote_char: the bytes written for one character of a string. */
  function QuoteChar(ch: char): (r: string)
    ensures r != []
  {
    if ch == '"' then "\\\""
    else if ch == '\\' then "\\\\"
    else if ch == '/' then "/"
    else if ch as int == 0x08 then "\\b"
    else if ch as int == 0x0C then "\\f"
    else if ch == '\n' then "\\n"
    else if ch == '\t' then "\\t"
    else if ch as int < 0x20 then "\\u" + Hex4(ch as int)
    else Utf8(ch)
  }

  /** u8_encode of one character, as chars. */
  function Utf8(ch: char): (r: string)
  {
    var e := Encode(ch as int as bv32);
    seq(|e|, i requires 0 <= i < |e| => e[i] as int as char)
  }

  /** The quoted characters of `s`, in order. */
  function QuoteChars(s: string): string {
    if s == [] then [] else QuoteChars(s[..|s| - 1]) + QuoteChar(s[|s| - 1])
  }

  /** One more quoted character after the text `head`. */
  lemma QuoteCharsNext(head: string, s: string, i: nat)
    requires i < |s|
    ensures head + QuoteChars(s[..i + 1]) == (head + QuoteChars(s[..i])) + QuoteChar(s[i])
  {
    assert s[..i + 1][..i] == s[..i];
  }

  /** The body of do_string after the indentation. */
  function Quote(s: string): string {
    "\"" + QuoteChars(s) + "\""
  }

  function DigitByte(d: nat): char
    requires d < 10
  {
    (0x30 + d) as char
  }

  /** The decimal digits of `n`, most significant first. */
  function Digits(n: nat): (r: string)
    ensures r != [] && forall b <- r :: '0' <= b <= '9'
  {
    if n < 10 then [DigitByte(n)] else Digits(n / 10) + [DigitByte(n % 10)]
  }

  /** to_string of an integer: a minus sign for a negative value, then the
      digits of its magnitude. */
  function IntText(i: int): (r: string)
    ensures r != [] && (r[0] == '-' <==> i < 0)
  {
    if i < 0 then "-" + Digits(-i) else var r := Digits(i); assert r[0] in r; r
  }

  /** do_node with context `d`. Floats are written by `floatText`. A string
      leaf recurses no further, which lets a pair render its key as one. */
  function Render(o: Options, floatText: real -> string, n: Node, d: ContextData): string
    decreases if n.Str? then 0 else 1, n, 2
  {
    match n
    case Null => IndentText(o, d) + NullText
    case Bool(b) => IndentText(o, d) + (if b then TrueText else FalseText)
    case Int(i) => IndentText(o, d) + IntText(i)
    case Float(f) => IndentText(o, d) + floatText(f)
    case Str(s) => IndentText(o, d) + Quote(s)
    case List(xs) =>
      var inline := InlineList(xs);
      ListLike(o, d, '[', ']', inline, RenderItems(o, floatText, xs, |xs|, Inner(d, inline), inline))
    case PairNode(p) => RenderPair(o, floatText, p, d)
    case Object(ps) =>
      var inline := InlineObject(ps);
      ListLike(o, d, '{', '}', inline, RenderPairs(o, floatText, ps, |ps|, Inner(d, inline), inline))
  }

  /** do_pair: the indentation, the quoted key, ": " and the value, which
      continues the key's line. */
  function RenderPair(o: Options, floatText: real -> string, p: Pair, d: ContextData): string
    decreases 1, p, 2
  {
    var line := ContextData(d.level, false);
    IndentText(o, d) + Render(o, floatText, Str(p.key), line) + ": " + Render(o, floatText, p.value, line)
  }

  /** The first `k` children of a list, each followed by its separator. */
  function RenderItems(o: Options, floatText: real -> string, xs: seq<Node>, k: nat, c: ContextData, inline: bool): string
    requires k <= |xs|
    decreases 1, xs, k
  {
    if k == 0 then []
    else RenderItems(o, floatText, xs, k - 1, c, inline) + Render(o, floatText, xs[k - 1], c) + Separator(k - 1, |xs|, inline)
  }

  /** The first `k` pairs of an object, each followed by its separator. */
  function RenderPairs(o: Options, floatText: real -> string, ps: seq<Pair>, k: nat, c: ContextData, inline: bool): string
    requires k <= |ps|
    decreases 1, ps, k
  {
    if k == 0 then []
    else RenderPairs(o, floatText, ps, k - 1, c, inline) + RenderPair(o, floatText, ps[k - 1], c) + Separator(k - 1, |ps|, inline)
  }

  /** A string leaf: the indentation, then the quoted characters between
      double quotes. */
  lemma RenderStr(o: Options, floatText: real -> string, s: string, d: ContextData)
    ensures Render(o, floatText, Str(s), d) == ((IndentText(o, d) + "\"") + QuoteChars(s)) + "\""
  {
  }

  /** The rendering of the first i + 1 children extends that of the first i. */
  lemma RenderItemsNext(o: Options, floatText: real -> string, xs: seq<Node>, i: nat, c: ContextData, inline: bool)
    requires i < |xs|
    ensures RenderItems(o, floatText, xs, i + 1, c, inline)
            == RenderItems(o, floatText, xs, i, c, inline) + Render(o, floatText, xs[i], c) + Separator(i, |xs|, inline)
  {
  }

  /** The rendering of the first i + 1 pairs extends that of the first i. */
  lemma RenderPairsNext(o: Options, floatText: real -> string, ps: seq<Pair>, i: nat, c: ContextData, inline: bool)
    requires i < |ps|
    ensures RenderPairs(o, floatText, ps, i + 1, c, inline)
            == RenderPairs(o, floatText, ps, i, c, inline) + RenderPair(o, floatText, ps[i], c) + Separator(i, |ps|, inline)
  {
  }

  /** Formatter: the options it was made with. */
  class Formatter {
    const opt: Options
    const floatText: real -> string

    constructor (opt: Options, floatText: real -> string)
      ensures this.opt == opt && this.floatText == floatText
    {
      this.opt := opt;
      this.floatText := floatText;
    }

    /** format: renders `n` in a fresh context. */
    method Format(n: Node) returns (text: string)
      ensures text == Render(opt, floatText, n, ContextData(0, false))
    {
      var ctx := new FormatContext(opt);
      text := DoNode(n, ctx);
    }

    /** do_node: dispatches on the node's type. */
    method DoNode(n: Node, ctx: FormatContext) returns (text: string)
      requires ctx.opt == opt
      modifies ctx
      ensures text == Render(opt, floatText, n, old(ctx.Data()))
      ensures ctx.Data() == old(ctx.Data()) && ctx.stack == old(ctx.stack)
      decreases if n.Str? then 0 else 1, n, 2
    {
      if n.List? {
        text := DoList(n.items, ctx);
      } else if n.Object? {
        text := DoObject(n.pairs, ctx);
      } else if n.PairNode? {
        text := DoPair(n.pair, ctx);
      } else {
        text := DoLeaf(n, ctx);
      }
    }

    /** The leaf cases of do_node. */
    method DoLeaf(n: Node, ctx: FormatContext) returns (text: string)
      requires ctx.opt == opt && !n.List? && !n.Object? && !n.PairNode?
      ensures text == Render(opt, floatText, n, ctx.Data())
    {
      match n
      case Null => text := DoNull(ctx);
      case Bool(b) => text := DoBool(b, ctx);
      case Int(i) => text := DoInt(i, ctx);
      case Float(f) => text := DoFloat(f, ctx);
      case Str(s) => text := DoString(s, ctx);
    }

    /** do_null. */
    method DoNull(ctx: FormatContext) returns (text: string)
      requires ctx.opt == opt
      ensures text == IndentText(opt, ctx.Data()) + NullText
    {
      text := DoIndent(ctx);
      text := text + NullText;
    }

    /** do_bool. */
    method DoBool(b: bool, ctx: FormatContext) returns (text: string)
      requires ctx.opt == opt
      ensures text == IndentText(opt, ctx.Data()) + (if b then TrueText else FalseText)
    {
      text := DoIndent(ctx);
      text := text + if b then TrueText else FalseText;
    }

    /** do_int. */
    method DoInt(i: int, ctx: FormatContext) returns (text: string)
      requires ctx.opt == opt
      ensures text == IndentText(opt, ctx.Data()) + IntText(i)
    {
      text := DoIndent(ctx);
      text := text + IntText(i);
    }

    /** do_float, with the text of the value left to `floatText`. */
    method DoFloat(f: real, ctx: FormatContext) returns (text: string)
      requires ctx.opt == opt
      ensures text == IndentText(opt, ctx.Data()) + floatText(f)
    {
      text := DoIndent(ctx);
      text := text + floatText(f);
    }

    /** do_indent. */
    method DoIndent(ctx: FormatContext) returns (text: string)
      requires ctx.opt == opt
      ensures text == IndentText(opt, ctx.Data())
    {
      text := "";
      if ctx.newline {
        if ctx.opt.useTab {
          text := Repeat('\t', ctx.level);
        } else {
          text := Repeat(' ', ctx.level * ctx.opt.indent);
        }
      }
    }

    /** do_string: the indentation, then the quoted characters one by one
        between double quotes. */
    method DoString(s: string, ctx: FormatContext) returns (text: string)
      requires ctx.opt == opt
      ensures text == Render(opt, floatText, Str(s), ctx.Data())
    {
      text := DoIndent(ctx);
      text := text + "\"";
      var head := text;
      var i := 0;
      while i < |s|
        invariant 0 <= i <= |s|
        invariant text == head + QuoteChars(s[..i])
      {
        QuoteCharsNext(head, s, i);
        text := text + QuoteChar(s[i]);
        i := i + 1;
      }
      assert s[..i] == s;
      RenderStr(opt, floatText, s, ctx.Data());
      text := text + "\"";
    }

    /** do_pair: the key and the value on one line, in a saved context. */
    method DoPair(p: Pair, ctx: FormatContext) returns (text: string)
      requires ctx.opt == opt
      modifies ctx
      ensures text == RenderPair(opt, floatText, p, old(ctx.Data()))
      ensures ctx.Data() == old(ctx.Data()) && ctx.stack == old(ctx.stack)
      decreases 1, p, 2
    {
      ctx.Push();
      text := DoIndent(ctx);
      ctx.newline := false;
      var key := DoString(p.key, ctx);
      text := text + key + ": ";
      var value := DoNode(p.value, ctx);
      text := text + value;
      ctx.Pop();
    }

    /** do_list. */
    method DoList(xs: seq<Node>, ctx: FormatContext) returns (text: string)
      requires ctx.opt == opt
      modifies ctx
      ensures text == Render(opt, floatText, List(xs), old(ctx.Data()))
      ensures ctx.Data() == old(ctx.Data()) && ctx.stack == old(ctx.stack)
      decreases 1, xs, 2
    {
      var simpleChild := |xs| <= 1 || forall i :: 0 <= i < |xs| ==> IsSimple(xs[i]);
      text := DoListLikeItems(xs, ctx, '[', ']', simpleChild);
    }

    /** do_object. */
    method DoObject(ps: seq<Pair>, ctx: FormatContext) returns (text: string)
      requires ctx.opt == opt
      modifies ctx
      ensures text == Render(opt, floatText, Object(ps), old(ctx.Data()))
      ensures ctx.Data() == old(ctx.Data()) && ctx.stack == old(ctx.stack)
      decreases 1, ps, 2
    {
      var simpleChild := ps == [] || forall i :: 0 <= i < |ps| ==> IsSimple(PairNode(ps[i]));
      text := DoListLikePairs(ps, ctx, '{', '}', simpleChild);
    }

    /** The start of do_list_like: the indentation and the opening bracket,
        then the context the children are written in. */
    method DoOpen(ctx: FormatContext, open: char, simpleChild: bool) returns (text: string)
      requires ctx.opt == opt
      modifies ctx
      ensures text == OpenText(opt, old(ctx.Data()), open, simpleChild)
      ensures ctx.Data() == Inner(old(ctx.Data()), simpleChild) && ctx.stack == old(ctx.stack)
    {
      text := DoIndent(ctx);
      if simpleChild {
        text := text + [open];
        ctx.newline := false;
      } else {
        text := text + [open, '\n'];
        ctx.newline := true;
        ctx.level := ctx.level + 1;
      }
    }

    /** The end of do_list_like, in the context DoOpen left for list
        context `d`: back at the list's level on a fresh line, then the
        closing bracket. */
    method DoClose(ctx: FormatContext, close: char, simpleChild: bool) returns (text: string)
      requires ctx.opt == opt
      requires ctx.newline == !simpleChild && (ctx.newline ==> ctx.level >= 1)
      modifies ctx
      ensures text == CloseText(opt, ContextData(old(ctx.level) - (if simpleChild then 0 else 1), false), close, simpleChild)
      ensures ctx.stack == old(ctx.stack)
    {
      text := "";
      if ctx.newline {
        ctx.level := ctx.level - 1;
        text := DoIndent(ctx);
      }
      text := text + [close];
    }

    /** do_list_like for the children of a list. */
    method DoListLikeItems(xs: seq<Node>, ctx: FormatContext, open: char, close: char, simpleChild: bool)
      returns (text: string)
      requires ctx.opt == opt
      modifies ctx
      ensures text == ListLike(opt, old(ctx.Data()), open, close, simpleChild,
                               RenderItems(opt, floatText, xs, |xs|, Inner(old(ctx.Data()), simpleChild), simpleChild))
      ensures ctx.Data() == old(ctx.Data()) && ctx.stack == old(ctx.stack)
      decreases 1, xs, 1
    {
      ctx.Push();
      var before := DoOpen(ctx, open, simpleChild);
      var body := DoItems(xs, ctx, simpleChild);
      var after := DoClose(ctx, close, simpleChild);
      text := before + body + after;
      ctx.Pop();
    }

    /** The loop of do_list_like over the children of a list, each followed by its
        separator, in the context the children are written in. */
    method DoItems(xs: seq<Node>, ctx: FormatContext, simpleChild: bool) returns (text: string)
      requires ctx.opt == opt
      modifies ctx
      ensures text == RenderItems(opt, floatText, xs, |xs|, old(ctx.Data()), simpleChild)
      ensures ctx.Data() == old(ctx.Data()) && ctx.stack == old(ctx.stack)
      decreases 1, xs, 0
    {
      text := "";
      var i := 0;
      while i < |xs|
        invariant 0 <= i <= |xs|
        invariant ctx.Data() == old(ctx.Data()) && ctx.stack == old(ctx.stack)
        invariant text == RenderItems(opt, floatText, xs, i, old(ctx.Data()), simpleChild)
      {
        var child := DoNode(xs[i], ctx);
        var sep := "";
        if i != |xs| - 1 {
          if simpleChild {
            sep := ", ";
          } else {
            sep := ",\n";
          }
        } else {
          if !simpleChild {
            sep := "\n";
          }
        }
        RenderItemsNext(opt, floatText, xs, i, old(ctx.Data()), simpleChild);
        text := text + child + sep;
        i := i + 1;
      }
    }

    /** do_list_like for the pairs of an object. */
    method DoListLikePairs(ps: seq<Pair>, ctx: FormatContext, open: char, close: char, simpleChild: bool)
      returns (text: string)
      requires ctx.opt == opt
      modifies ctx
      ensures text == ListLike(opt, old(ctx.Data()), open, close, simpleChild,
                               RenderPairs(opt, floatText, ps, |ps|, Inner(old(ctx.Data()), simpleChild), simpleChild))
      ensures ctx.Data() == old(ctx.Data()) && ctx.stack == old(ctx.stack)
      decreases 1, ps, 1
    {
      ctx.Push();
      var before := DoOpen(ctx, open, simpleChild);
      var body := DoPairs(ps, ctx, simpleChild);
      var after := DoClose(ctx, close, simpleChild);
      text := before + body + after;
      ctx.Pop();
    }

    /** The loop of do_list_like over the pairs of an object, each followed by its
        separator, in the context the children are written in. */
    method DoPairs(ps: seq<Pair>, ctx: FormatContext, simpleChild: bool) returns (text: string)
      requires ctx.opt == opt
      modifies ctx
      ensures text == RenderPairs(opt, floatText, ps, |ps|, old(ctx.Data()), simpleChild)
      ensures ctx.Data() == old(ctx.Data()) && ctx.stack == old(ctx.stack)
      decreases 1, ps, 0
    {
      text := "";
      var i := 0;
      while i < |ps|
        invariant 0 <= i <= |ps|
        invariant ctx.Data() == old(ctx.Data()) && ctx.stack == old(ctx.stack)
        invariant text == RenderPairs(opt, floatText, ps, i, old(ctx.Data()), simpleChild)
      {
        var child := DoPair(ps[i], ctx);
        var sep := "";
        if i != |ps| - 1 {
          if simpleChild {
            sep := ", ";
          } else {
            sep := ",\n";
          }
        } else {
          if !simpleChild {
            sep := "\n";
          }
        }
        RenderPairsNext(opt, floatText, ps, i, old(ctx.Data()), simpleChild);
        text := text + child + sep;
        i := i + 1;
      }
    }
  }
}
