/** The scanner of scanner.h and scanner.cpp as a function of its state:
    every member function of Scanner becomes a function from the scanner's
    fields (a `Scan`) and the fed character to the new fields and the failure
    raised, if any. The Scanner class in module Scanning is proved to do what
    these functions say. */
module ScanModel {
  import opened Wrappers
  import opened Positions
  import opened Tokens
  import opened Errors

  /** ScannerState, as used by scanner.cpp (the header's ID state is never
      entered). */
  datatype ScannerState = AtInit | InNumber | InString | Ended

  /** The sub-states of the number automaton as scanner.cpp uses them. */
  datatype NumberSubState =
    | NumInit | Signed | IntDigit | LeadingDot | Dotted | Exp | ExpSigned | ExpDigit

  /** NumberState: the sub-state, the digit groups and the signs. */
  datatype NumberState = NumberState(
    sub: NumberSubState,
    intDigits: string,
    dotDigits: string,
    expDigits: string,
    numSign: int,
    expSign: int,
    hasDot: bool)

  /** The sub-states of the string automaton that scanner.cpp can enter. */
  datatype StringSubState = StrInit | Normal | Escape

  /** StringState: the sub-state and the characters collected so far. */
  datatype StringState = StringState(sub: StringSubState, value: string)

  /** The fields of a Scanner. */
  datatype Scan = Scan(
    state: ScannerState,
    buffer: seq<Token>,
    startPos: SourcePos,
    prevPos: SourcePos,
    curPos: SourcePos,
    num: NumberState,
    str: StringState)

  /** How a call ends other than normally: an exception, or the failed
      `assert("Unimplemented")` of the escape state, which aborts. */
  datatype Failure = Raised(exc: Exception) | Unimplemented

  /** The fields after a call, and how it ended. */
  datatype Outcome = Outcome(scan: Scan, failure: Option<Failure>)

  /** A default-constructed NumberState. */
  function FreshNumber(): (n: NumberState)
    ensures n.sub == NumInit && n.numSign == 1 && n.expSign == 1 && !n.hasDot
    ensures n.intDigits == [] && n.dotDigits == [] && n.expDigits == []
  {
    NumberState(NumInit, [], [], [], 1, 1, false)
  }

  /** A default-constructed StringState. */
  function FreshString(): (s: StringState)
    ensures s.sub == StrInit && s.value == []
  {
    StringState(StrInit, [])
  }

  /** A default-constructed Scanner. */
  function Fresh(): (s: Scan)
    ensures s.state == AtInit && s.buffer == []
    ensures s.num == FreshNumber() && s.str == FreshString()
    ensures s.startPos == Invalid() && s.prevPos == Invalid() && s.curPos == Invalid()
  {
    Scan(AtInit, [], Invalid(), Invalid(), Invalid(), FreshNumber(), FreshString())
  }

  /** isspace in the C locale. */
  predicate IsSpace(c: char) {
    c == ' ' || 9 <= c as int <= 13
  }

  /** isdigit. */
  predicate IsDigit(c: char) {
    '0' <= c <= '9'
  }

  /** The value of a decimal digit. */
  function DigitValue(c: char): (v: nat)
    requires IsDigit(c)
    ensures v < 10
  {
    c as int - '0' as int
  }

  /** The value of a string of decimal digits. */
  function DigitsValue(d: string): (v: nat)
    requires forall i :: 0 <= i < |d| ==> IsDigit(d[i])
    ensures d == [] ==> v == 0
  {
    if d == [] then 0 else DigitsValue(d[..|d| - 1]) * 10 + DigitValue(d[|d| - 1])
  }

  /** 10 to the power `e`. */
  function Pow10(e: nat): (p: nat)
    ensures p >= 1
  {
    if e == 0 then 1 else 10 * Pow10(e - 1)
  }

  /** The digit groups of a number hold only digits. */
  predicate DigitsOnly(n: NumberState) {
    (forall i :: 0 <= i < |n.intDigits| ==> IsDigit(n.intDigits[i])) &&
    (forall i :: 0 <= i < |n.dotDigits| ==> IsDigit(n.dotDigits[i])) &&
    (forall i :: 0 <= i < |n.expDigits| ==> IsDigit(n.expDigits[i]))
  }

  /** The value of fraction digits `d`: 0.d in decimal. */
  function Fraction(d: string): real
    requires forall i :: 0 <= i < |d| ==> IsDigit(d[i])
  {
    if d == [] then 0.0 else DigitsValue(d) as real / Pow10(|d|) as real
  }

  /** The exact value of the number `n` spells: its sign, integer and
      fraction digits, scaled by its exponent. */
  function NumberValue(n: NumberState): real
    requires DigitsOnly(n)
  {
    Scaled(DigitsValue(n.intDigits) as real + Fraction(n.dotDigits), DigitsValue(n.expDigits),
           n.expSign < 0, n.numSign < 0)
  }

  /** `m` scaled by 10 ** `e`, down or up, and negated if `negative`. */
  function Scaled(m: real, e: nat, down: bool, negative: bool): real {
    var magnitude := if down then m / Pow10(e) as real else m * Pow10(e) as real;
    if negative then -magnitude else magnitude
  }

  /** 2 ** 63: int64 ranges over -2 ** 63 .. 2 ** 63 - 1, and the largest
      int64 converted to a double is 2 ** 63. */
  const TWO63: int := 0x8000_0000_0000_0000

  /** The value to_token computes in int64 arithmetic: the integer digits
      scaled by the exponent, with the sign. */
  function IntegerValue(n: NumberState): int
    requires DigitsOnly(n)
  {
    var iv := DigitsValue(n.intDigits) * Pow10(DigitsValue(n.expDigits));
    if n.numSign < 0 then -iv else iv
  }

  /** For a number without a dot or a negative exponent the integer value
      is its exact value. */
  lemma IntegerValueExact(n: NumberState)
    requires DigitsOnly(n) && n.dotDigits == [] && n.expSign > 0
    ensures IntegerValue(n) as real == NumberValue(n)
  {
    ProductAsReal(DigitsValue(n.intDigits), Pow10(DigitsValue(n.expDigits)));
  }

  lemma ProductAsReal(a: int, b: int)
    ensures (a * b) as real == a as real * b as real
  {
  }

  /** NumberState::to_token: an int token when the number has no dot, no
      negative exponent and its exact value lies strictly between -2 ** 63
      and 2 ** 63; otherwise a float token with its exact value. */
  function ToToken(n: NumberState): (d: TokenData)
    requires NumberShape(n)
    ensures d.IntToken? || d.FloatToken?
    ensures d.IntToken? <==>
      !n.hasDot && n.expSign > 0 && -TWO63 as real < NumberValue(n) < TWO63 as real
    ensures d.IntToken? ==> d.i as real == NumberValue(n) && -TWO63 < d.i < TWO63
    ensures d.FloatToken? ==> d.f == NumberValue(n)
  {
    var v := NumberValue(n);
    if !n.hasDot && n.expSign > 0 && -TWO63 as real < v < TWO63 as real then
      IntegerValueExact(n);
      IntToken(IntegerValue(n))
    else
      FloatToken(v)
  }

  /** The message of unknown_char. */
  function UnknownCharMsg(ch: char, additional: string): string {
    var msg := "Unknown char: " + [ch];
    if additional == [] then msg else msg + (", " + additional)
  }

  /** Scanner::exception: a TokenizerError spanning from the start of the
      current token to the current character. */
  function Exception(s: Scan, msg: string): (o: Outcome)
    ensures o.scan == s
    ensures o.failure == Some(Raised(Tokenizer(msg, s.startPos, s.curPos)))
  {
    Outcome(s, Some(Raised(Tokenizer(msg, s.startPos, s.curPos))))
  }

  /** Scanner::unknown_char. */
  function UnknownChar(s: Scan, ch: char, additional: string): Outcome {
    Exception(s, UnknownCharMsg(ch, additional))
  }

  /** The bound on how many more times refeed can be entered from `s`: the
      number automaton re-feeds the character that ends a number into INIT,
      which may enter NUMBER or STRING, whose first steps never re-feed. */
  function Rank(s: Scan): nat {
    match s.state
    case Ended => 0
    case InString => 1
    case AtInit => 3
    case InNumber =>
      if s.num.sub == NumInit then 2 else if s.num.sub == Signed then 1 else 4
  }

  /** The shape of the digit groups that every number sub-state implies. */
  predicate NumberShape(n: NumberState) {
    DigitsOnly(n) && (n.dotDigits != [] ==> n.hasDot) &&
    match n.sub
    case NumInit => n.intDigits == [] && n.dotDigits == [] && n.expDigits == [] && !n.hasDot
    case Signed => n.intDigits == [] && n.dotDigits == [] && n.expDigits == [] && !n.hasDot
    case IntDigit => n.intDigits != [] && n.dotDigits == [] && n.expDigits == [] && !n.hasDot
    case LeadingDot => n.intDigits == [] && n.dotDigits == [] && n.expDigits == [] && n.hasDot
    case Dotted => (n.intDigits != [] || n.dotDigits != []) && n.expDigits == [] && n.hasDot
    case Exp => (n.intDigits != [] || n.dotDigits != []) && n.expDigits == []
    case ExpSigned => (n.intDigits != [] || n.dotDigits != []) && n.expDigits == []
    case ExpDigit => (n.intDigits != [] || n.dotDigits != []) && n.expDigits != []
  }

  /** What holds of the scanner's fields between calls: the number state
      has the shape of its sub-state, and is the default one outside
      NUMBER. */
  predicate WellFormed(s: Scan) {
    NumberShape(s.num) && (s.state != InNumber ==> s.num == FreshNumber())
  }

  /** Scanner::feed: remember the previous position, count the character,
      and dispatch it. */
  function Feed(s: Scan, ch: char): (o: Outcome)
    requires WellFormed(s)
    ensures WellFormed(o.scan)
  {
    Refeed(s.(prevPos := s.curPos, curPos := AddChar(s.curPos, ch)), ch)
  }

  /** Scanner::refeed: dispatch on the top-level state. */
  function Refeed(s: Scan, ch: char): (o: Outcome)
    requires WellFormed(s)
    decreases Rank(s), 2
    ensures WellFormed(o.scan)
  {
    match s.state
    case AtInit => StInit(s, ch)
    case InNumber => StNumber(s, ch)
    case InString => StString(s, ch)
    case Ended => Exception(s, "received char in ENDED state")
  }

  /** Scanner::st_init: a token starts here. */
  function StInit(s: Scan, ch: char): (o: Outcome)
    requires s.state == AtInit && WellFormed(s)
    decreases Rank(s), 1
    ensures WellFormed(o.scan)
  {
    var s1 := s.(startPos := s.curPos);
    if ch == '\0' then
      Outcome(s1.(buffer := s1.buffer + [Token(Plain(END), s1.curPos, s1.curPos)],
                  state := Ended), None)
    else if IsSpace(ch) then
      Outcome(s1, None)
    else if IsStructural(ch) then
      Outcome(s1.(buffer := s1.buffer + [Token(Plain(StructuralType(ch)), s1.curPos, s1.curPos)]),
              None)
    else if ch == '"' then
      Refeed(s1.(state := InString), ch)
    else if IsDigit(ch) || ch == '.' || ch == '+' || ch == '-' then
      Refeed(s1.(state := InNumber), ch)
    else
      UnknownChar(s1, ch, "")
  }

  /** Scanner::st_number: one step of the number automaton. */
  function StNumber(s: Scan, ch: char): (o: Outcome)
    requires s.state == InNumber && WellFormed(s)
    decreases Rank(s), 1
    ensures WellFormed(o.scan)
  {
    var ns := s.num;
    match ns.sub
    case NumInit =>
      var s1 := s.(num := ns.(sub := Signed));
      if ch == '-' then Outcome(s1.(num := s1.num.(numSign := -1)), None)
      else if ch == '+' then Outcome(s1, None)
      else StNumber(s1, ch)
    case Signed =>
      if IsDigit(ch) then
        Outcome(s.(num := ns.(intDigits := ns.intDigits + [ch], sub := IntDigit)), None)
      else if ch == '.' then
        Outcome(s.(num := ns.(hasDot := true, sub := LeadingDot)), None)
      else UnknownChar(s, ch, "expect dot or digit")
    case IntDigit =>
      if IsDigit(ch) then
        Outcome(s.(num := ns.(intDigits := ns.intDigits + [ch])), None)
      else if ch == '.' then
        Outcome(s.(num := ns.(hasDot := true, sub := Dotted)), None)
      else if ch == 'e' || ch == 'E' then
        Outcome(s.(num := ns.(sub := Exp)), None)
      else FinishNum(s, ch)
    case LeadingDot =>
      if IsDigit(ch) then
        Outcome(s.(num := ns.(dotDigits := ns.dotDigits + [ch], sub := Dotted)), None)
      else UnknownChar(s, ch, "expect digit")
    case Dotted =>
      if IsDigit(ch) then
        Outcome(s.(num := ns.(dotDigits := ns.dotDigits + [ch])), None)
      else if ch == 'e' || ch == 'E' then
        Outcome(s.(num := ns.(sub := Exp)), None)
      else FinishNum(s, ch)
    case Exp =>
      if ch == '+' || ch == '-' then
        Outcome(s.(num := ns.(sub := ExpSigned, expSign := if ch == '-' then -1 else ns.expSign)),
                None)
      else if IsDigit(ch) then
        Outcome(s.(num := ns.(expDigits := ns.expDigits + [ch], sub := ExpDigit)), None)
      else UnknownChar(s, ch, "expect digit or sign")
    case ExpSigned =>
      if IsDigit(ch) then
        Outcome(s.(num := ns.(expDigits := ns.expDigits + [ch], sub := ExpDigit)), None)
      else UnknownChar(s, ch, "expect digit")
    case ExpDigit =>
      if IsDigit(ch) then
        Outcome(s.(num := ns.(expDigits := ns.expDigits + [ch])), None)
      else FinishNum(s, ch)
  }

  /** Scanner::finish_num: emit the number token, spanning up to the
      previous character, reset the number state and re-feed `ch`. */
  function FinishNum(s: Scan, ch: char): (o: Outcome)
    requires s.state == InNumber && WellFormed(s)
    requires s.num.sub in {IntDigit, Dotted, ExpDigit}
    decreases Rank(s), 0
    ensures WellFormed(o.scan)
  {
    var tok := Token(ToToken(s.num), s.startPos, s.prevPos);
    Refeed(s.(buffer := s.buffer + [tok], num := FreshNumber(), state := AtInit), ch)
  }

  /** Scanner::st_string: the opening quote, then characters up to the
      closing quote. */
  function StString(s: Scan, ch: char): (o: Outcome)
    requires s.state == InString && WellFormed(s)
    decreases Rank(s), 1
    ensures WellFormed(o.scan)
  {
    var ss := s.str;
    match ss.sub
    case StrInit =>
      if ch != '"' then UnknownChar(s, ch, "expect double quote")
      else Outcome(s.(str := ss.(sub := Normal)), None)
    case Normal =>
      if ch == '"' then
        var tok := Token(StringToken(ss.value), s.startPos, s.curPos);
        Outcome(s.(buffer := s.buffer + [tok], str := FreshString(), state := AtInit), None)
      else if ch == '\\' then
        Outcome(s.(str := ss.(sub := Escape)), None)
      else
        Outcome(s.(str := ss.(value := ss.value + [ch])), None)
    case Escape =>
      Outcome(s, Some(Unimplemented))
  }
}
