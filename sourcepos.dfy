/** SourcePos (sourcepos.h, sourcepos.cpp): a (line, column) position in the
    input, advanced one character at a time. The struct is copied by value
    wherever it is stored, so it is modelled as a datatype and `add_char` as
    a function returning the advanced value. */
module Positions {

  /** `lineno` and `rowno` are the public line and column; `lastNewline` is
      the private flag saying that the previous character was a newline or
      that no character has been counted yet. */
  datatype SourcePos = SourcePos(lineno: int, rowno: int, lastNewline: bool)

  /** The two-argument constructor: the given line and column, with the flag
      at its initial value. */
  function Pos(lineno: int, rowno: int): (p: SourcePos)
    ensures p.lineno == lineno && p.rowno == rowno
    ensures p.lastNewline
  {
    SourcePos(lineno, rowno, true)
  }

  /** The default constructor: the invalid position (-1, -1). */
  function Invalid(): (p: SourcePos)
    ensures !IsValid(p)
    ensures Same(p, Pos(-1, -1))
  {
    SourcePos(-1, -1, true)
  }

  /** operator==: compares line and column only. */
  predicate Same(a: SourcePos, b: SourcePos) {
    a.lineno == b.lineno && a.rowno == b.rowno
  }

  /** operator!=. */
  predicate Differ(a: SourcePos, b: SourcePos) {
    !Same(a, b)
  }

  /** is_valid. */
  predicate IsValid(p: SourcePos) {
    p.lineno >= 0 && p.rowno >= 0
  }

  /** add_char: a character after a newline (or the first character) starts
      a new line at column 0, any other moves one column right; the flag
      then records whether `ch` itself is a newline. */
  function AddChar(p: SourcePos, ch: char): (q: SourcePos)
    ensures q.lastNewline <==> ch == '\n'
    ensures p.lastNewline ==> q.lineno == p.lineno + 1 && q.rowno == 0
    ensures !p.lastNewline ==> q.lineno == p.lineno && q.rowno == p.rowno + 1
  {
    var moved := if p.lastNewline then p.(lineno := p.lineno + 1, rowno := 0)
                 else p.(rowno := p.rowno + 1);
    moved.(lastNewline := ch == '\n')
  }

  /** `a` comes no later than `b` in reading order. */
  predicate NotAfter(a: SourcePos, b: SourcePos) {
    a.lineno < b.lineno || (a.lineno == b.lineno && a.rowno <= b.rowno)
  }

  /** Equality ignores the private flag and is an equivalence, and `!=` is
      its negation. */
  lemma SameIsEquivalence(a: SourcePos, b: SourcePos, c: SourcePos)
    ensures Same(a, a)
    ensures Same(a, b) ==> Same(b, a)
    ensures Same(a, b) && Same(b, c) ==> Same(a, c)
    ensures Same(a, a.(lastNewline := !a.lastNewline))
    ensures Differ(a, b) <==> !Same(a, b)
  {
  }

  /** Counting a character moves strictly forward in reading order, and
      keeps a valid position valid. */
  lemma AddCharAdvances(p: SourcePos, ch: char)
    ensures NotAfter(p, AddChar(p, ch)) && !Same(p, AddChar(p, ch))
    ensures IsValid(p) ==> IsValid(AddChar(p, ch))
  {
  }

  /** The first character counted from the default position is at (0, 0). */
  lemma FirstCharAtOrigin(ch: char)
    ensures Same(AddChar(Invalid(), ch), Pos(0, 0))
    ensures IsValid(AddChar(Invalid(), ch))
  {
  }

  /** The position after counting every character of `s`, starting from `p`. */
  function AddChars(p: SourcePos, s: string): SourcePos
    decreases |s|
  {
    if s == [] then p else AddChars(AddChar(p, s[0]), s[1..])
  }

  /** The number of newlines in `s`. */
  function Newlines(s: string): nat {
    if s == [] then 0 else Newlines(s[..|s| - 1]) + (if s[|s| - 1] == '\n' then 1 else 0)
  }

  /** The number of characters of `s` after its last newline. */
  function Column(s: string): nat {
    if s == [] || s[|s| - 1] == '\n' then 0 else Column(s[..|s| - 1]) + 1
  }

  /** Counting `a + b` is counting `a` and then `b`. */
  lemma {:induction false} AddCharsAppend(p: SourcePos, a: string, b: string)
    ensures AddChars(p, a + b) == AddChars(AddChars(p, a), b)
    decreases |a|
  {
    if a == [] {
      assert a + b == b;
    } else {
      assert (a + b)[0] == a[0] && (a + b)[1..] == a[1..] + b;
      AddCharsAppend(AddChar(p, a[0]), a[1..], b);
    }
  }

  lemma {:induction false} AddCharsSnoc(p: SourcePos, s: string, ch: char)
    ensures AddChars(p, s + [ch]) == AddChar(AddChars(p, s), ch)
    decreases |s|
  {
    if s == [] {
      assert [ch][1..] == [];
    } else {
      assert (s + [ch])[1..] == s[1..] + [ch];
      AddCharsSnoc(AddChar(p, s[0]), s[1..], ch);
    }
  }

  /** Counting `s + [ch]` from the default position puts `ch` on the line
      numbered by the newlines before it and at the column numbered by the
      characters since the last of them: a newline belongs to the line it
      ends. */
  lemma {:induction false} PositionOfChar(s: string, ch: char)
    ensures AddChars(Invalid(), s + [ch]).lineno == Newlines(s)
    ensures AddChars(Invalid(), s + [ch]).rowno == Column(s)
    ensures AddChars(Invalid(), s + [ch]).lastNewline <==> ch == '\n'
    decreases |s|
  {
    AddCharsSnoc(Invalid(), s, ch);
    if s != [] {
      var t, c := s[..|s| - 1], s[|s| - 1];
      assert s == t + [c];
      PositionOfChar(t, c);
    }
  }
}
