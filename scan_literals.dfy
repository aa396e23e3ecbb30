/** Number and string literals read by the scanner as whole texts: a
    literal of the grammar st_number implements, fed from INIT, leaves the
    number automaton holding exactly its parts; a terminator after it emits
    one token carrying the literal's value; and the malformed shapes raise
    the automaton's errors at the offending character. */
module ScanLiterals {
  import opened Wrappers
  import opened Positions
  import opened Tokens
  import opened Errors
  import opened ScanModel
  import opened ScanFacts

  /** The exponent part of a number: `e` or `E`, an optional sign, digits. */
  datatype Exponent = Exponent(mark: char, sign: string, digits: string)

  /** A number literal by its parts: an optional sign, the integer digits,
      whether a dot follows them, the fraction digits and an optional
      exponent. */
  datatype Literal = Literal(sign: string, intDigits: string, dot: bool, fracDigits: string,
                             exp: Option<Exponent>)

  /** Every character of `d` is a decimal digit. */
  predicate AllDigits(d: string) {
    forall i :: 0 <= i < |d| ==> IsDigit(d[i])
  }

  /** Digits followed by digits are digits. */
  lemma DigitsAllDigits(a: string, b: string)
    requires AllDigits(a) && AllDigits(b)
    ensures AllDigits(a + b)
  {
  }

  /** The literals st_number accepts:
      [+-]? (digit+ ('.' digit*)? | '.' digit+) ([eE] [+-]? digit+)? */
  predicate ValidLiteral(l: Literal) {
    l.sign in {"", "+", "-"} && AllDigits(l.intDigits) && AllDigits(l.fracDigits) &&
    (!l.dot ==> l.fracDigits == []) &&
    (l.intDigits != [] || l.fracDigits != []) &&
    (l.exp.Some? ==>
       (l.exp.value.mark == 'e' || l.exp.value.mark == 'E') &&
       l.exp.value.sign in {"", "+", "-"} &&
       l.exp.value.digits != [] && AllDigits(l.exp.value.digits))
  }

  /** The digits and the dot of the mantissa. */
  function MantissaText(l: Literal): string {
    l.intDigits + (if l.dot then "." + l.fracDigits else "")
  }

  /** The exponent part as written. */
  function ExponentText(l: Literal): string {
    if l.exp.Some? then [l.exp.value.mark] + l.exp.value.sign + l.exp.value.digits else ""
  }

  /** The text of a literal. */
  function Text(l: Literal): (t: string)
    ensures ValidLiteral(l) ==> t != []
  {
    l.sign + MantissaText(l) + ExponentText(l)
  }

  /** The literal has an exponent with a minus sign. */
  predicate NegativeExponent(l: Literal) {
    l.exp.Some? && l.exp.value.sign == "-"
  }

  /** The value a literal denotes in decimal notation: all its mantissa
      digits read as one integer and divided by 10 for each fraction digit,
      scaled by the exponent, with the sign. */
  function LiteralValue(l: Literal): real
    requires ValidLiteral(l)
  {
    DigitsAllDigits(l.intDigits, l.fracDigits);
    Scaled(DigitsValue(l.intDigits + l.fracDigits) as real / Pow10(|l.fracDigits|) as real,
           if l.exp.Some? then DigitsValue(l.exp.value.digits) else 0,
           NegativeExponent(l), l.sign == "-")
  }

  /** The number state that holds the parts of a literal. */
  function LiteralState(l: Literal): NumberState {
    NumberState(if l.exp.Some? then ExpDigit else if l.dot then Dotted else IntDigit,
                l.intDigits, l.fracDigits,
                if l.exp.Some? then l.exp.value.digits else "",
                if l.sign == "-" then -1 else 1,
                if NegativeExponent(l) then -1 else 1,
                l.dot)
  }

  /** The number state after an optional sign. */
  function SignedNumber(sign: string): NumberState {
    FreshNumber().(sub := Signed, numSign := if sign == "-" then -1 else 1)
  }

  /** `s` with the positions feed counts over `text`. */
  function Moved(s: Scan, text: string): Scan {
    if text == [] then s
    else s.(prevPos := AddChars(s.curPos, text[..|text| - 1]), curPos := AddChars(s.curPos, text))
  }

  /** Counting over `a` and then over `b` is counting over `a + b`. */
  lemma MovedAppend(s: Scan, a: string, b: string)
    ensures Moved(Moved(s, a), b) == Moved(s, a + b)
  {
    if b == [] {
      assert a + b == a;
    } else if a == [] {
      assert a + b == b;
    } else {
      AddCharsAppend(s.curPos, a, b);
      AddCharsAppend(s.curPos, a, b[..|b| - 1]);
      assert (a + b)[..|a + b| - 1] == a + b[..|b| - 1];
    }
  }

  /** In NUMBER, feed counts the character and takes one step of the
      number automaton. */
  lemma FeedNumber(y: Scan, c: char)
    requires WellFormed(y) && y.state == InNumber
    ensures Feed(y, c) == StNumber(y.(prevPos := y.curPos, curPos := AddChar(y.curPos, c)), c)
  {
  }

  /** A text of one character read normally. */
  lemma ReadSingle(y: Scan, text: string, t: Scan)
    requires WellFormed(y) && |text| == 1
    requires Feed(y, text[0]) == Outcome(t, None)
    ensures FeedText(y, text) == Outcome(t, None)
  {
    FeedTextStep(y, text, t);
  }

  /** Counting over one character. */
  lemma MovedOne(y: Scan, c: char)
    ensures Moved(y, [c]) == y.(prevPos := y.curPos, curPos := AddChar(y.curPos, c))
  {
    assert [c][1..] == [] && [c][..0] == [] && [c][0] == c;
    assert AddChars(y.curPos, [c]) == AddChars(AddChar(y.curPos, c), []);
  }

  /** One character read normally, as a text of length one. */
  lemma ReadOne(y: Scan, c: char, n: NumberState)
    requires WellFormed(y)
    requires Feed(y, c) == Outcome(y.(prevPos := y.curPos, curPos := AddChar(y.curPos, c), num := n), None)
    ensures FeedText(y, [c]) == Outcome(Moved(y, [c]).(num := n), None)
  {
    ReadSingle(y, [c], y.(prevPos := y.curPos, curPos := AddChar(y.curPos, c), num := n));
    MovedOne(y, c);
  }

  /** Reading `a` and then `b`, each of which only counts positions and
      sets the number state, reads `a + b`. */
  lemma ReadBoth(x: Scan, a: string, b: string, n1: NumberState, n2: NumberState)
    requires WellFormed(x)
    requires FeedText(x, a) == Outcome(Moved(x, a).(num := n1), None)
    requires FeedText(Moved(x, a).(num := n1), b) ==
             Outcome(Moved(Moved(x, a).(num := n1), b).(num := n2), None)
    ensures FeedText(x, a + b) == Outcome(Moved(x, a + b).(num := n2), None)
  {
    FeedTextAppend(x, a, b);
    MovedAppend(x, a, b);
  }

  /** One step of the number automaton that only sets the number state. */
  lemma Step(y: Scan, c: char, n: NumberState)
    requires WellFormed(y) && y.state == InNumber
    requires StNumber(y.(prevPos := y.curPos, curPos := AddChar(y.curPos, c)), c) ==
             Outcome(y.(prevPos := y.curPos, curPos := AddChar(y.curPos, c), num := n), None)
    ensures FeedText(y, [c]) == Outcome(Moved(y, [c]).(num := n), None)
  {
    FeedNumber(y, c);
    ReadOne(y, c, n);
  }

  /** After the sign or an integer digit, a digit is an integer digit. */
  lemma StepInt(y: Scan, c: char)
    requires WellFormed(y) && y.state == InNumber && y.num.sub in {Signed, IntDigit} && IsDigit(c)
    ensures FeedText(y, [c]) ==
            Outcome(Moved(y, [c]).(num := y.num.(intDigits := y.num.intDigits + [c], sub := IntDigit)), None)
  {
    Step(y, c, y.num.(intDigits := y.num.intDigits + [c], sub := IntDigit));
  }

  /** After a dot or a fraction digit, a digit is a fraction digit. */
  lemma StepFrac(y: Scan, c: char)
    requires WellFormed(y) && y.state == InNumber && y.num.sub in {LeadingDot, Dotted} && IsDigit(c)
    ensures FeedText(y, [c]) ==
            Outcome(Moved(y, [c]).(num := y.num.(dotDigits := y.num.dotDigits + [c], sub := Dotted)), None)
  {
    Step(y, c, y.num.(dotDigits := y.num.dotDigits + [c], sub := Dotted));
  }

  /** After `e`, its sign or an exponent digit, a digit is an exponent digit. */
  lemma StepExp(y: Scan, c: char)
    requires WellFormed(y) && y.state == InNumber && y.num.sub in {Exp, ExpSigned, ExpDigit} && IsDigit(c)
    ensures FeedText(y, [c]) ==
            Outcome(Moved(y, [c]).(num := y.num.(expDigits := y.num.expDigits + [c], sub := ExpDigit)), None)
  {
    Step(y, c, y.num.(expDigits := y.num.expDigits + [c], sub := ExpDigit));
  }

  /** A dot after the integer digits. */
  lemma StepDot(y: Scan)
    requires WellFormed(y) && y.state == InNumber && y.num.sub == IntDigit
    ensures FeedText(y, ".") == Outcome(Moved(y, ".").(num := y.num.(hasDot := true, sub := Dotted)), None)
  {
    Step(y, '.', y.num.(hasDot := true, sub := Dotted));
  }

  /** A dot right after the sign. */
  lemma StepLeadingDot(y: Scan)
    requires WellFormed(y) && y.state == InNumber && y.num.sub == Signed
    ensures FeedText(y, ".") == Outcome(Moved(y, ".").(num := y.num.(hasDot := true, sub := LeadingDot)), None)
  {
    Step(y, '.', y.num.(hasDot := true, sub := LeadingDot));
  }

  /** `e` or `E` after a complete mantissa. */
  lemma StepMark(y: Scan, c: char)
    requires WellFormed(y) && y.state == InNumber && y.num.sub in {IntDigit, Dotted} && c in "eE"
    ensures FeedText(y, [c]) == Outcome(Moved(y, [c]).(num := y.num.(sub := Exp)), None)
  {
    if c == 'e' {
      Step(y, 'e', y.num.(sub := Exp));
    } else {
      Step(y, 'E', y.num.(sub := Exp));
    }
  }

  /** The sign of the exponent. */
  lemma StepExpSign(y: Scan, c: char)
    requires WellFormed(y) && y.state == InNumber && y.num.sub == Exp && c in "+-"
    ensures FeedText(y, [c]) ==
            Outcome(Moved(y, [c]).(num := y.num.(sub := ExpSigned, expSign := if c == '-' then -1 else y.num.expSign)), None)
  {
    if c == '-' {
      Step(y, '-', y.num.(sub := ExpSigned, expSign := -1));
    } else {
      Step(y, '+', y.num.(sub := ExpSigned));
    }
  }

  /** Further integer digits are appended to the integer digits. */
  lemma {:induction false} ReadIntDigits(y: Scan, d: string)
    requires WellFormed(y) && y.state == InNumber && y.num.sub == IntDigit && AllDigits(d)
    ensures FeedText(y, d) == Outcome(Moved(y, d).(num := y.num.(intDigits := y.num.intDigits + d)), None)
    decreases |d|
  {
    if d == [] {
      assert y.num.intDigits + d == y.num.intDigits;
    } else {
      var n1 := y.num.(intDigits := y.num.intDigits + [d[0]]);
      StepInt(y, d[0]);
      ReadIntDigits(Moved(y, [d[0]]).(num := n1), d[1..]);
      assert [d[0]] + d[1..] == d;
      assert n1.intDigits + d[1..] == y.num.intDigits + d;
      ReadBoth(y, [d[0]], d[1..], n1, y.num.(intDigits := y.num.intDigits + d));
    }
  }

  /** Further fraction digits are appended to the fraction digits. */
  lemma {:induction false} ReadFracDigits(y: Scan, d: string)
    requires WellFormed(y) && y.state == InNumber && y.num.sub == Dotted && AllDigits(d)
    ensures FeedText(y, d) == Outcome(Moved(y, d).(num := y.num.(dotDigits := y.num.dotDigits + d)), None)
    decreases |d|
  {
    if d == [] {
      assert y.num.dotDigits + d == y.num.dotDigits;
    } else {
      var n1 := y.num.(dotDigits := y.num.dotDigits + [d[0]]);
      StepFrac(y, d[0]);
      ReadFracDigits(Moved(y, [d[0]]).(num := n1), d[1..]);
      assert [d[0]] + d[1..] == d;
      assert n1.dotDigits + d[1..] == y.num.dotDigits + d;
      ReadBoth(y, [d[0]], d[1..], n1, y.num.(dotDigits := y.num.dotDigits + d));
    }
  }

  /** Further exponent digits are appended to the exponent digits. */
  lemma {:induction false} ReadExpDigits(y: Scan, d: string)
    requires WellFormed(y) && y.state == InNumber && y.num.sub == ExpDigit && AllDigits(d)
    ensures FeedText(y, d) == Outcome(Moved(y, d).(num := y.num.(expDigits := y.num.expDigits + d)), None)
    decreases |d|
  {
    if d == [] {
      assert y.num.expDigits + d == y.num.expDigits;
    } else {
      var n1 := y.num.(expDigits := y.num.expDigits + [d[0]]);
      StepExp(y, d[0]);
      ReadExpDigits(Moved(y, [d[0]]).(num := n1), d[1..]);
      assert [d[0]] + d[1..] == d;
      assert n1.expDigits + d[1..] == y.num.expDigits + d;
      ReadBoth(y, [d[0]], d[1..], n1, y.num.(expDigits := y.num.expDigits + d));
    }
  }

  /** The integer digits after the sign. */
  lemma ReadInteger(y: Scan, i: string)
    requires WellFormed(y) && y.state == InNumber && y.num.sub == Signed
    requires i != [] && AllDigits(i)
    ensures FeedText(y, i) == Outcome(Moved(y, i).(num := y.num.(intDigits := i, sub := IntDigit)), None)
  {
    var n1 := y.num.(intDigits := [i[0]], sub := IntDigit);
    StepInt(y, i[0]);
    ReadIntDigits(Moved(y, [i[0]]).(num := n1), i[1..]);
    assert [i[0]] + i[1..] == i;
    ReadBoth(y, [i[0]], i[1..], n1, y.num.(intDigits := i, sub := IntDigit));
  }

  /** A dot and the fraction digits after the integer digits. */
  lemma ReadFraction(y: Scan, f: string)
    requires WellFormed(y) && y.state == InNumber && y.num.sub == IntDigit && AllDigits(f)
    ensures FeedText(y, "." + f) ==
            Outcome(Moved(y, "." + f).(num := y.num.(hasDot := true, sub := Dotted, dotDigits := f)), None)
  {
    var n1 := y.num.(hasDot := true, sub := Dotted);
    StepDot(y);
    ReadFracDigits(Moved(y, ".").(num := n1), f);
    assert n1.dotDigits + f == f;
    ReadBoth(y, ".", f, n1, n1.(dotDigits := f));
  }

  /** A leading dot and the fraction digits after the sign. */
  lemma ReadLeadingFraction(y: Scan, f: string)
    requires WellFormed(y) && y.state == InNumber && y.num.sub == Signed
    requires f != [] && AllDigits(f)
    ensures FeedText(y, "." + f) ==
            Outcome(Moved(y, "." + f).(num := y.num.(hasDot := true, sub := Dotted, dotDigits := f)), None)
  {
    var n1 := y.num.(hasDot := true, sub := LeadingDot);
    StepLeadingDot(y);
    var y1 := Moved(y, ".").(num := n1);
    var n2 := n1.(dotDigits := [f[0]], sub := Dotted);
    StepFrac(y1, f[0]);
    ReadFracDigits(Moved(y1, [f[0]]).(num := n2), f[1..]);
    assert [f[0]] + f[1..] == f;
    ReadBoth(y1, [f[0]], f[1..], n2, n2.(dotDigits := f));
    ReadBoth(y, ".", f, n1, n2.(dotDigits := f));
  }

  /** The mantissa after the sign. */
  lemma ReadMantissa(y: Scan, l: Literal)
    requires WellFormed(y) && y.state == InNumber && y.num == SignedNumber(l.sign)
    requires ValidLiteral(l)
    ensures FeedText(y, MantissaText(l)) ==
            Outcome(Moved(y, MantissaText(l)).(num := LiteralState(l.(exp := None))), None)
  {
    var i, f := l.intDigits, l.fracDigits;
    if i == [] {
      ReadLeadingFraction(y, f);
      assert MantissaText(l) == "." + f;
    } else {
      var ni := y.num.(intDigits := i, sub := IntDigit);
      ReadInteger(y, i);
      if l.dot {
        ReadFraction(Moved(y, i).(num := ni), f);
        ReadBoth(y, i, "." + f, ni, ni.(hasDot := true, sub := Dotted, dotDigits := f));
      } else {
        assert MantissaText(l) == i;
      }
    }
  }

  /** `e` and the optional exponent sign after a complete mantissa. */
  lemma ReadExponentMark(y: Scan, e: Exponent)
    requires WellFormed(y) && y.state == InNumber && y.num.sub in {IntDigit, Dotted}
    requires (e.mark == 'e' || e.mark == 'E') && e.sign in {"", "+", "-"}
    ensures FeedText(y, [e.mark] + e.sign) ==
            Outcome(Moved(y, [e.mark] + e.sign).(num := ExponentMarked(y.num, e)), None)
  {
    var n1 := y.num.(sub := Exp);
    StepMark(y, e.mark);
    if e.sign != [] {
      StepExpSign(Moved(y, [e.mark]).(num := n1), e.sign[0]);
      assert e.sign == [e.sign[0]];
      ReadBoth(y, [e.mark], e.sign, n1, ExponentMarked(y.num, e));
    } else {
      assert [e.mark] + e.sign == [e.mark];
    }
  }

  /** The number state after `e` and the exponent sign. */
  function ExponentMarked(n: NumberState, e: Exponent): NumberState {
    n.(sub := if e.sign == "" then Exp else ExpSigned,
       expSign := if e.sign == "-" then -1 else n.expSign)
  }

  /** The exponent digits after `e` or its sign. */
  lemma ReadExponentDigits(y: Scan, d: string)
    requires WellFormed(y) && y.state == InNumber && y.num.sub in {Exp, ExpSigned}
    requires d != [] && AllDigits(d)
    ensures FeedText(y, d) == Outcome(Moved(y, d).(num := y.num.(sub := ExpDigit, expDigits := d)), None)
  {
    var n1 := y.num.(expDigits := y.num.expDigits + [d[0]], sub := ExpDigit);
    StepExp(y, d[0]);
    assert y.num.expDigits == [];
    ReadExpDigits(Moved(y, [d[0]]).(num := n1), d[1..]);
    assert [d[0]] + d[1..] == d;
    ReadBoth(y, [d[0]], d[1..], n1, y.num.(sub := ExpDigit, expDigits := d));
  }

  /** The exponent after a complete mantissa. */
  lemma ReadExponent(y: Scan, e: Exponent)
    requires WellFormed(y) && y.state == InNumber && y.num.sub in {IntDigit, Dotted}
    requires (e.mark == 'e' || e.mark == 'E') && e.sign in {"", "+", "-"}
    requires e.digits != [] && AllDigits(e.digits)
    ensures FeedText(y, [e.mark] + e.sign + e.digits) ==
            Outcome(Moved(y, [e.mark] + e.sign + e.digits).(num := ExponentMarked(y.num, e).(sub := ExpDigit, expDigits := e.digits)), None)
  {
    var n2 := ExponentMarked(y.num, e);
    ReadExponentMark(y, e);
    ReadExponentDigits(Moved(y, [e.mark] + e.sign).(num := n2), e.digits);
    ReadBoth(y, [e.mark] + e.sign, e.digits, n2, n2.(sub := ExpDigit, expDigits := e.digits));
  }

  /** A literal without its sign, after the sign state. */
  lemma ReadUnsigned(y: Scan, l: Literal)
    requires WellFormed(y) && y.state == InNumber && y.num == SignedNumber(l.sign)
    requires ValidLiteral(l)
    ensures FeedText(y, MantissaText(l) + ExponentText(l)) ==
            Outcome(Moved(y, MantissaText(l) + ExponentText(l)).(num := LiteralState(l)), None)
  {
    var m := LiteralState(l.(exp := None));
    ReadMantissa(y, l);
    if l.exp.Some? {
      ReadExponent(Moved(y, MantissaText(l)).(num := m), l.exp.value);
      ReadBoth(y, MantissaText(l), ExponentText(l), m, LiteralState(l));
    } else {
      assert MantissaText(l) + ExponentText(l) == MantissaText(l);
    }
  }

  /** The state a sign or the first mantissa character moves INIT to. */
  function SignedAt(s: Scan, sign: string, first: char): Scan {
    s.(state := InNumber, num := SignedNumber(sign), startPos := AddChar(s.curPos, first))
  }

  /** In INIT, a digit, a dot or a sign starts a number at its own
      position. */
  lemma FeedInitNumber(s: Scan, c: char)
    requires WellFormed(s) && s.state == AtInit && (IsDigit(c) || c in ".+-")
    ensures Feed(s, c) ==
            StNumber(s.(prevPos := s.curPos, curPos := AddChar(s.curPos, c), startPos := AddChar(s.curPos, c),
                        state := InNumber), c)
  {
    var s1 := s.(prevPos := s.curPos, curPos := AddChar(s.curPos, c));
    assert Feed(s, c) == StInit(s1, c);
  }

  /** Two scanners that read the first character alike read the whole text
      alike. */
  lemma SameFirst(s: Scan, x: Scan, text: string)
    requires WellFormed(s) && WellFormed(x) && text != [] && Feed(s, text[0]) == Feed(x, text[0])
    ensures FeedText(s, text) == FeedText(x, text)
  {
  }

  /** A number without a sign starts at its first digit or dot. */
  lemma StartUnsigned(s: Scan, rest: string)
    requires WellFormed(s) && s.state == AtInit
    requires rest != [] && (IsDigit(rest[0]) || rest[0] == '.')
    ensures FeedText(s, rest) == FeedText(SignedAt(s, "", rest[0]), rest)
  {
    var c := rest[0];
    var x := SignedAt(s, "", c);
    FeedInitNumber(s, c);
    FeedNumber(x, c);
    assert Feed(s, c) == Feed(x, c);
    SameFirst(s, x, rest);
  }

  /** A sign starts a number and is read as such. */
  lemma StartSigned(s: Scan, c: char, rest: string)
    requires WellFormed(s) && s.state == AtInit && (c == '+' || c == '-')
    ensures WellFormed(Moved(SignedAt(s, [c], c), [c]))
    ensures FeedText(s, [c] + rest) == FeedText(Moved(SignedAt(s, [c], c), [c]), rest)
  {
    var x := SignedAt(s, [c], c);
    FeedInitNumber(s, c);
    MovedOne(x, c);
    assert Feed(s, c) == Outcome(Moved(x, [c]), None);
    FeedTextStep(s, [c] + rest, Moved(x, [c]));
    assert ([c] + rest)[1..] == rest;
  }

  /** INIT reads the optional sign of a number; a literal without one
      behaves as if the automaton had passed through the sign state. */
  lemma StartNumber(s: Scan, sign: string, rest: string)
    requires WellFormed(s) && s.state == AtInit && sign in {"", "+", "-"}
    requires rest != [] && (IsDigit(rest[0]) || rest[0] == '.')
    ensures WellFormed(Moved(SignedAt(s, sign, (sign + rest)[0]), sign))
    ensures FeedText(s, sign + rest) == FeedText(Moved(SignedAt(s, sign, (sign + rest)[0]), sign), rest)
  {
    if sign == [] {
      assert sign + rest == rest;
      StartUnsigned(s, rest);
    } else {
      StartSigned(s, sign[0], rest);
      assert sign == [sign[0]];
    }
  }

  /** The scanner `ReadLiteral` leaves after a literal. */
  function LiteralRead(s: Scan, l: Literal): (y: Scan)
    requires ValidLiteral(l)
    ensures y.state == InNumber && y.num == LiteralState(l) && y.buffer == s.buffer && y.str == s.str
  {
    var t := Text(l);
    s.(state := InNumber, num := LiteralState(l), startPos := AddChar(s.curPos, t[0]),
       prevPos := AddChars(s.curPos, t[..|t| - 1]), curPos := AddChars(s.curPos, t))
  }

  /** A literal of the grammar, read from INIT, leaves the scanner in
      NUMBER with the literal's parts, its start at the literal's first
      character and the positions counted over the literal; nothing is
      emitted yet. */
  lemma ReadLiteral(s: Scan, l: Literal)
    requires WellFormed(s) && s.state == AtInit && ValidLiteral(l)
    ensures var t := Text(l);
      FeedText(s, t) ==
      Outcome(s.(state := InNumber, num := LiteralState(l), startPos := AddChar(s.curPos, t[0]),
                 prevPos := AddChars(s.curPos, t[..|t| - 1]), curPos := AddChars(s.curPos, t)), None)
  {
    var t := Text(l);
    var rest := MantissaText(l) + ExponentText(l);
    assert t == l.sign + rest;
    assert rest[0] == (if l.intDigits != [] then l.intDigits[0] else '.');
    StartNumber(s, l.sign, rest);
    var x := SignedAt(s, l.sign, t[0]);
    ReadUnsigned(Moved(x, l.sign), l);
    MovedAppend(x, l.sign, rest);
  }

  /** Whatever follows a literal is read from the state the literal leaves. */
  lemma AfterLiteral(s: Scan, l: Literal, rest: string)
    requires WellFormed(s) && s.state == AtInit && ValidLiteral(l)
    ensures WellFormed(LiteralRead(s, l))
    ensures FeedText(s, Text(l) + rest) == FeedText(LiteralRead(s, l), rest)
  {
    ReadLiteral(s, l);
    assert FeedText(s, Text(l)) == Outcome(LiteralRead(s, l), None);
    FeedTextAppend(s, Text(l), rest);
  }

  /** One more digit after a shifted sum. */
  lemma ShiftDigit(a: int, p: int, b: int, d: int)
    ensures (a * p + b) * 10 + d == a * (p * 10) + (b * 10 + d)
  {
  }

  /** The value of `a + b` is the value of `a` shifted by the length of
      `b`, plus the value of `b`. */
  lemma {:induction false} DigitsAppend(a: string, b: string)
    requires AllDigits(a) && AllDigits(b)
    ensures AllDigits(a + b)
    ensures DigitsValue(a + b) == DigitsValue(a) * Pow10(|b|) + DigitsValue(b)
    decreases |b|
  {
    if b == [] {
      assert a + b == a;
    } else {
      var b1 := b[..|b| - 1];
      assert AllDigits(b1);
      DigitsAppend(a, b1);
      assert (a + b)[..|a + b| - 1] == a + b1;
      assert (a + b)[|a + b| - 1] == b[|b| - 1];
      assert DigitsValue(a + b) == DigitsValue(a + b1) * 10 + DigitValue(b[|b| - 1]);
      assert DigitsValue(b) == DigitsValue(b1) * 10 + DigitValue(b[|b| - 1]);
      assert Pow10(|b|) == Pow10(|b1|) * 10;
      ShiftDigit(DigitsValue(a), Pow10(|b1|), DigitsValue(b1), DigitValue(b[|b| - 1]));
    }
  }

  /** Dividing a shifted sum by the shift. */
  lemma ShiftDivide(a: real, b: real, p: real)
    requires p > 0.0
    ensures (a * p + b) / p == a + b / p
  {
  }

  /** An integer `a * p + b` divided by `p` is `a` plus `b / p`. */
  lemma QuotientAsReal(whole: nat, a: nat, b: nat, p: nat)
    requires p >= 1 && whole == a * p + b
    ensures whole as real / p as real == a as real + b as real / p as real
  {
    ProductAsReal(a, p);
    ShiftDivide(a as real, b as real, p as real);
  }

  /** Integer and fraction digits read as one integer and divided by 10 per
      fraction digit are the integer part plus the fraction. */
  lemma MantissaValue(i: string, f: string)
    requires AllDigits(i) && AllDigits(f)
    ensures AllDigits(i + f)
    ensures DigitsValue(i + f) as real / Pow10(|f|) as real == DigitsValue(i) as real + Fraction(f)
  {
    if f == [] {
      assert i + f == i;
    } else {
      DigitsAppend(i, f);
      assert Fraction(f) == DigitsValue(f) as real / Pow10(|f|) as real;
      QuotientAsReal(DigitsValue(i + f), DigitsValue(i), DigitsValue(f), Pow10(|f|));
    }
  }

  /** The number state of a literal has the shape of its sub-state. */
  lemma LiteralShape(l: Literal)
    requires ValidLiteral(l)
    ensures NumberShape(LiteralState(l))
  {
  }

  /** The number state of a literal spells the literal's value. */
  lemma LiteralStateValue(l: Literal)
    requires ValidLiteral(l)
    ensures NumberShape(LiteralState(l)) && NumberValue(LiteralState(l)) == LiteralValue(l)
  {
    LiteralShape(l);
    MantissaValue(l.intDigits, l.fracDigits);
  }

  /** The token a literal's number state makes: an int token exactly when
      the literal has no dot, no negative exponent and a value strictly
      inside the int64 range, and in either case the literal's value. */
  lemma LiteralToken(l: Literal)
    requires ValidLiteral(l)
    ensures NumberShape(LiteralState(l))
    ensures var d := ToToken(LiteralState(l));
      (d.IntToken? <==> !l.dot && !NegativeExponent(l) && -TWO63 as real < LiteralValue(l) < TWO63 as real) &&
      (d.IntToken? ==> d.i as real == LiteralValue(l)) &&
      (d.FloatToken? ==> d.f == LiteralValue(l))
  {
    LiteralStateValue(l);
  }

  /** A literal followed by a space or a structural character, read from
      INIT, emits exactly one number token, spanning from the literal's
      first character to its last and carrying the literal's token, then
      the structural character's token if there is one; the scanner is back
      in INIT with a fresh number state. */
  lemma ScanNumber(s: Scan, l: Literal, c: char)
    requires WellFormed(s) && s.state == AtInit && ValidLiteral(l)
    requires IsSpace(c) || IsStructural(c)
    ensures NumberShape(LiteralState(l))
    ensures var t := Text(l);
      var start, end, p := AddChar(s.curPos, t[0]), AddChars(s.curPos, t), AddChars(s.curPos, t + [c]);
      FeedText(s, t + [c]) ==
      Outcome(Scan(AtInit, s.buffer + [Token(ToToken(LiteralState(l)), start, end)] +
                           (if IsStructural(c) then [Token(Plain(StructuralType(c)), p, p)] else []),
                   p, end, p, FreshNumber(), s.str), None)
  {
    LiteralStateValue(l);
    var t := Text(l);
    AfterLiteral(s, l, [c]);
    var y := LiteralRead(s, l);
    NumberEndsAt(y, c);
    ReadSingle(y, [c], Feed(y, c).scan);
    AddCharsSnoc(s.curPos, t, c);
  }

  /** The positions of a text read after a prefix. */
  lemma MovedCur(x: Scan, t: string)
    ensures Moved(x, t).curPos == AddChars(x.curPos, t)
  {
  }

  /** A text of one character whose reading raises. */
  lemma FailSingle(y: Scan, text: string)
    requires WellFormed(y) && |text| == 1 && Feed(y, text[0]).failure.Some?
    ensures FeedText(y, text) == Feed(y, text[0])
  {
  }

  /** A character that raises, read after a text that did not. */
  lemma FailsAfter(s: Scan, a: string, y: Scan, b: string)
    requires WellFormed(s) && FeedText(s, a) == Outcome(y, None)
    requires |b| == 1 && Feed(y, b[0]).failure.Some?
    ensures FeedText(s, a + b) == Feed(y, b[0])
  {
    FeedTextAppend(s, a, b);
    FailSingle(y, b);
  }

  /** A sign must be followed by a digit or a dot. */
  lemma RejectsBareSign(s: Scan, sign: char, c: char)
    requires WellFormed(s) && s.state == AtInit && (sign == '+' || sign == '-')
    requires !IsDigit(c) && c != '.'
    ensures FeedText(s, [sign, c]).failure ==
      Some(Raised(Tokenizer(UnknownCharMsg(c, "expect dot or digit"), AddChar(s.curPos, sign),
                            AddChars(s.curPos, [sign, c]))))
  {
    var x := SignedAt(s, [sign], sign);
    var y := Moved(x, [sign]);
    assert FeedText(s, [sign, c]) == FeedText(y, [c]) by {
      StartSigned(s, sign, [c]);
      assert [sign] + [c] == [sign, c];
    }
    assert Next(y, c) == AddChars(s.curPos, [sign, c]) by {
      MovedOne(x, sign);
      AddCharsSnoc(s.curPos, [sign], c);
      assert [sign] + [c] == [sign, c];
    }
    SignAlone(y, c);
  }

  /** Right after the sign, a character that is neither a digit nor a dot. */
  lemma SignAlone(y: Scan, c: char)
    requires WellFormed(y) && y.state == InNumber && y.num.sub == Signed && !IsDigit(c) && c != '.'
    ensures FeedText(y, [c]).failure ==
      Some(Raised(Tokenizer(UnknownCharMsg(c, "expect dot or digit"), y.startPos, Next(y, c))))
  {
    FeedNumberErrors(y, c);
    FailSingle(y, [c]);
  }

  /** A dot right after the sign, then a character that is not a digit. */
  lemma LeadingDotAlone(y: Scan, c: char)
    requires WellFormed(y) && y.state == InNumber && y.num.sub == Signed && !IsDigit(c)
    ensures FeedText(y, "." + [c]).failure ==
      Some(Raised(Tokenizer(UnknownCharMsg(c, "expect digit"), y.startPos, AddChar(AddChar(y.curPos, '.'), c))))
  {
    StepLeadingDot(y);
    var y2 := Moved(y, ".").(num := y.num.(hasDot := true, sub := LeadingDot));
    MovedOne(y, '.');
    FeedNumberErrors(y2, c);
    FailsAfter(y, ".", y2, [c]);
  }

  /** A dot that starts a number, after an optional sign, must be followed
      by a digit. */
  lemma RejectsBareDot(s: Scan, sign: string, c: char)
    requires WellFormed(s) && s.state == AtInit && sign in {"", "+", "-"} && !IsDigit(c)
    ensures var t := sign + ".";
      FeedText(s, t + [c]).failure ==
      Some(Raised(Tokenizer(UnknownCharMsg(c, "expect digit"), AddChar(s.curPos, t[0]), AddChars(s.curPos, t + [c]))))
  {
    var t := sign + ".";
    var rest := "." + [c];
    assert t + [c] == sign + rest && (sign + rest)[0] == t[0];
    StartNumber(s, sign, rest);
    var y := Moved(SignedAt(s, sign, t[0]), sign);
    LeadingDotAlone(y, c);
    MovedCur(SignedAt(s, sign, t[0]), sign);
    AddCharsSnoc(s.curPos, sign, '.');
    AddCharsSnoc(s.curPos, t, c);
  }

  /** `e` and an optional sign with no digit after them. */
  lemma ExponentAlone(y: Scan, e: Exponent, c: char)
    requires WellFormed(y) && y.state == InNumber && y.num.sub in {IntDigit, Dotted}
    requires (e.mark == 'e' || e.mark == 'E') && e.sign in {"", "+", "-"}
    requires !IsDigit(c) && (e.sign == "" ==> c != '+' && c != '-')
    ensures FeedText(y, [e.mark] + e.sign + [c]).failure ==
      Some(Raised(Tokenizer(UnknownCharMsg(c, if e.sign == "" then "expect digit or sign" else "expect digit"),
                            y.startPos, AddChar(AddChars(y.curPos, [e.mark] + e.sign), c))))
  {
    var m := [e.mark] + e.sign;
    ReadExponentMark(y, e);
    var y2 := Moved(y, m).(num := ExponentMarked(y.num, e));
    FeedNumberErrors(y2, c);
    FailsAfter(y, m, y2, [c]);
    MovedCur(y, m);
  }

  /** After a complete mantissa, `e` must be followed by a sign or a digit,
      and an exponent sign by a digit. */
  lemma RejectsEmptyExponent(s: Scan, l: Literal, e: Exponent, c: char)
    requires WellFormed(s) && s.state == AtInit && ValidLiteral(l) && l.exp.None?
    requires (e.mark == 'e' || e.mark == 'E') && e.sign in {"", "+", "-"}
    requires !IsDigit(c) && (e.sign == "" ==> c != '+' && c != '-')
    ensures var t := Text(l) + [e.mark] + e.sign;
      FeedText(s, t + [c]).failure ==
      Some(Raised(Tokenizer(UnknownCharMsg(c, if e.sign == "" then "expect digit or sign" else "expect digit"),
                            AddChar(s.curPos, t[0]), AddChars(s.curPos, t + [c]))))
  {
    var t0, m := Text(l), [e.mark] + e.sign;
    var t, y := t0 + m, LiteralRead(s, l);
    assert t == Text(l) + [e.mark] + e.sign && t + [c] == t0 + (m + [c]) && t[0] == t0[0];
    assert y.startPos == AddChar(s.curPos, t[0]);
    assert FeedText(s, t + [c]) == FeedText(y, m + [c]) by {
      AfterLiteral(s, l, m + [c]);
    }
    assert AddChar(AddChars(y.curPos, m), c) == AddChars(s.curPos, t + [c]) by {
      AddCharsAppend(s.curPos, t0, m);
      AddCharsSnoc(s.curPos, t, c);
    }
    ExponentAlone(y, e, c);
  }

  /** In INIT, `e` starts no token. */
  lemma RefeedMark(z: Scan, c: char)
    requires WellFormed(z) && z.state == AtInit && (c == 'e' || c == 'E')
    ensures Refeed(z, c) ==
            Outcome(z.(startPos := z.curPos), Some(Raised(Tokenizer(UnknownCharMsg(c, ""), z.curPos, z.curPos))))
  {
    assert Refeed(z, c) == StInit(z, c);
  }

  /** In INIT, a dot starts a number that has read a leading dot. */
  lemma RefeedDot(z: Scan)
    requires WellFormed(z) && z.state == AtInit
    ensures Refeed(z, '.') ==
            Outcome(z.(startPos := z.curPos, state := InNumber,
                       num := FreshNumber().(sub := LeadingDot, hasDot := true)), None)
  {
    assert Refeed(z, '.') == StInit(z, '.');
    var z1 := z.(startPos := z.curPos, state := InNumber);
    assert StInit(z, '.') == StNumber(z1, '.');
    assert StNumber(z1, '.') == StNumber(z1.(num := z1.num.(sub := Signed)), '.');
  }

  /** After exponent digits, `e` emits the number and is then an unknown
      character in INIT. */
  lemma MarkAfterExponent(y: Scan, mark: char)
    requires WellFormed(y) && y.state == InNumber && y.num.sub == ExpDigit && (mark == 'e' || mark == 'E')
    ensures var p := AddChar(y.curPos, mark);
      Feed(y, mark) ==
      Outcome(Scan(AtInit, y.buffer + [Token(ToToken(y.num), y.startPos, y.curPos)], p, y.curPos, p, FreshNumber(), y.str),
              Some(Raised(Tokenizer(UnknownCharMsg(mark, ""), p, p))))
  {
    FeedNumberEnd(y, mark);
    var tok := Token(ToToken(y.num), y.startPos, y.curPos);
    RefeedMark(Scan(AtInit, y.buffer + [tok], y.startPos, y.curPos, Next(y, mark), FreshNumber(), y.str), mark);
  }

  /** After fraction digits, a dot emits the number and starts a new one. */
  lemma DotAfterFraction(y: Scan)
    requires WellFormed(y) && y.state == InNumber && y.num.sub == Dotted
    ensures var p := AddChar(y.curPos, '.');
      Feed(y, '.') ==
      Outcome(Scan(InNumber, y.buffer + [Token(ToToken(y.num), y.startPos, y.curPos)], p, y.curPos, p,
                   FreshNumber().(sub := LeadingDot, hasDot := true), y.str), None)
  {
    FeedNumberEnd(y, '.');
    var tok := Token(ToToken(y.num), y.startPos, y.curPos);
    RefeedDot(Scan(AtInit, y.buffer + [tok], y.startPos, y.curPos, Next(y, '.'), FreshNumber(), y.str));
  }

  /** A second exponent mark ends the number before it; the mark then
      starts no token in INIT and is an unknown character. */
  lemma RejectsSecondExponent(s: Scan, l: Literal, mark: char)
    requires WellFormed(s) && s.state == AtInit && ValidLiteral(l) && l.exp.Some?
    requires mark == 'e' || mark == 'E'
    ensures NumberShape(LiteralState(l))
    ensures var t := Text(l);
      var end, p := AddChars(s.curPos, t), AddChars(s.curPos, t + [mark]);
      FeedText(s, t + [mark]) ==
      Outcome(Scan(AtInit, s.buffer + [Token(ToToken(LiteralState(l)), AddChar(s.curPos, t[0]), end)],
                   p, end, p, FreshNumber(), s.str),
              Some(Raised(Tokenizer(UnknownCharMsg(mark, ""), p, p))))
  {
    LiteralShape(l);
    var t := Text(l);
    AfterLiteral(s, l, [mark]);
    var y := LiteralRead(s, l);
    MarkAfterExponent(y, mark);
    FailSingle(y, [mark]);
    AddCharsSnoc(s.curPos, t, mark);
  }

  /** A second dot ends the number before it and starts a new one with a
      leading dot: no error is raised at the dot. */
  lemma SecondDotStartsNumber(s: Scan, l: Literal)
    requires WellFormed(s) && s.state == AtInit && ValidLiteral(l) && l.dot && l.exp.None?
    ensures NumberShape(LiteralState(l))
    ensures var t := Text(l);
      var end, p := AddChars(s.curPos, t), AddChars(s.curPos, t + ".");
      FeedText(s, t + ".") ==
      Outcome(Scan(InNumber, s.buffer + [Token(ToToken(LiteralState(l)), AddChar(s.curPos, t[0]), end)],
                   p, end, p, FreshNumber().(sub := LeadingDot, hasDot := true), s.str), None)
  {
    LiteralShape(l);
    var t := Text(l);
    AfterLiteral(s, l, ".");
    var y := LiteralRead(s, l);
    DotAfterFraction(y);
    ReadSingle(y, ".", Feed(y, '.').scan);
    AddCharsSnoc(s.curPos, t, '.');
  }

  /** In STRING, feed counts the character and takes one step of the
      string automaton. */
  lemma FeedInString(y: Scan, c: char)
    requires WellFormed(y) && y.state == InString
    ensures Feed(y, c) == StString(y.(prevPos := y.curPos, curPos := AddChar(y.curPos, c)), c)
  {
  }

  /** Inside a string, a character other than a quotation mark or a
      backslash is kept. */
  lemma StepChar(y: Scan, c: char)
    requires WellFormed(y) && y.state == InString && y.str.sub == Normal && c != '"' && c != '\\'
    ensures FeedText(y, [c]) == Outcome(Moved(y, [c]).(str := y.str.(value := y.str.value + [c])), None)
  {
    FeedInString(y, c);
    MovedOne(y, c);
    ReadSingle(y, [c], Moved(y, [c]).(str := y.str.(value := y.str.value + [c])));
  }

  /** Inside a string, characters other than quotation marks and
      backslashes are appended to the string's value. */
  lemma {:induction false} ReadStringChars(y: Scan, str: string)
    requires WellFormed(y) && y.state == InString && y.str.sub == Normal
    requires forall i :: 0 <= i < |str| ==> str[i] != '"' && str[i] != '\\'
    ensures FeedText(y, str) == Outcome(Moved(y, str).(str := y.str.(value := y.str.value + str)), None)
    decreases |str|
  {
    if str == [] {
      assert y.str.value + str == y.str.value;
    } else {
      var c := str[0];
      var y1 := Moved(y, [c]).(str := y.str.(value := y.str.value + [c]));
      assert FeedText(y, str) == FeedText(y1, str[1..]) by {
        StepChar(y, c);
        FeedTextAppend(y, [c], str[1..]);
        assert [c] + str[1..] == str;
      }
      ReadStringChars(y1, str[1..]);
      assert Moved(y1, str[1..]) == Moved(y, str).(str := y1.str) by {
        MovedAppend(y, [c], str[1..]);
        assert [c] + str[1..] == str;
      }
      assert y.str.value + [c] + str[1..] == y.str.value + str;
    }
  }

  /** In INIT, a quotation mark opens a string at its own position. */
  lemma OpenQuote(s: Scan)
    requires WellFormed(s) && s.state == AtInit && s.str == FreshString()
    ensures FeedText(s, "\"") ==
            Outcome(Moved(s, "\"").(startPos := AddChar(s.curPos, '"'), state := InString,
                                    str := StringState(Normal, [])), None)
  {
    var s1 := s.(prevPos := s.curPos, curPos := AddChar(s.curPos, '"'));
    assert Feed(s, '"') == StInit(s1, '"');
    MovedOne(s, '"');
    ReadSingle(s, "\"", Moved(s, "\"").(startPos := AddChar(s.curPos, '"'), state := InString,
                                         str := StringState(Normal, [])));
  }

  /** Inside a string, a quotation mark closes it. */
  lemma CloseQuote(y: Scan)
    requires WellFormed(y) && y.state == InString && y.str.sub == Normal
    ensures var p := AddChar(y.curPos, '"');
      FeedText(y, "\"") ==
      Outcome(y.(prevPos := y.curPos, curPos := p, buffer := y.buffer + [Token(StringToken(y.str.value), y.startPos, p)],
                 str := FreshString(), state := AtInit), None)
  {
    FeedInString(y, '"');
    var p := AddChar(y.curPos, '"');
    ReadSingle(y, "\"", y.(prevPos := y.curPos, curPos := p, buffer := y.buffer + [Token(StringToken(y.str.value), y.startPos, p)],
                           str := FreshString(), state := AtInit));
  }

  /** A string literal without quotation marks or backslashes inside, read
      from INIT, emits one string token holding exactly the characters
      between the quotation marks and spanning both of them; the scanner
      is back in INIT. */
  lemma ScanString(s: Scan, str: string)
    requires WellFormed(s) && s.state == AtInit && s.str == FreshString()
    requires forall i :: 0 <= i < |str| ==> str[i] != '"' && str[i] != '\\'
    ensures var t := "\"" + str + "\"";
      var p0, pe := AddChar(s.curPos, '"'), AddChars(s.curPos, t);
      FeedText(s, t) ==
      Outcome(s.(buffer := s.buffer + [Token(StringToken(str), p0, pe)], startPos := p0,
                 prevPos := AddChars(s.curPos, t[..|t| - 1]), curPos := pe), None)
  {
    var q := "\"";
    var p0 := AddChar(s.curPos, '"');
    OpenQuote(s);
    var y := Moved(s, q).(startPos := p0, state := InString, str := StringState(Normal, []));
    ReadStringChars(y, str);
    assert [] + str == str;
    var y2 := Moved(y, str).(str := StringState(Normal, str));
    FeedTextAppend(s, q, str);
    CloseQuote(y2);
    FeedTextAppend(s, q + str, q);
    MovedAppend(s, q, str);
    MovedCur(s, q + str);
    AddCharsSnoc(s.curPos, q + str, '"');
    var t := q + str + q;
    assert t[..|t| - 1] == q + str;
  }
}
