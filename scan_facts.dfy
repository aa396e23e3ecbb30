/** Properties of the scanner model: what a single character does in each
    state, and the invariant that every token and every error carries a
    valid, ordered span. */
module ScanFacts {
  import opened Wrappers
  import opened Positions
  import opened Tokens
  import opened Errors
  import opened ScanModel

  /** The position `AddChar` yields from `p`, which `feed` counts before it
      dispatches. */
  function Next(s: Scan, ch: char): SourcePos {
    AddChar(s.curPos, ch)
  }

  /** A span that starts at a valid position and does not end before it. */
  predicate GoodSpan(start: SourcePos, end: SourcePos) {
    IsValid(start) && NotAfter(start, end)
  }

  /** Every buffered token has a good span. */
  predicate SpansOrdered(buffer: seq<Token>) {
    forall i :: 0 <= i < |buffer| ==> GoodSpan(buffer[i].start, buffer[i].end)
  }

  /** The scanner's invariant between calls of feed: the current position
      is valid once a character has been counted, the token being scanned
      started no later than it, and every buffered token has a good span. */
  predicate Inv(s: Scan) {
    WellFormed(s) &&
    (IsValid(s.curPos) || s.curPos == Invalid()) &&
    (s.state != AtInit ==> GoodSpan(s.startPos, s.curPos)) &&
    SpansOrdered(s.buffer)
  }

  /** What holds when refeed is entered: the character has been counted. */
  predicate Entered(s: Scan) {
    WellFormed(s) &&
    IsValid(s.curPos) &&
    (s.state != AtInit ==> GoodSpan(s.startPos, s.curPos)) &&
    (s.state == InNumber && s.num.sub in {IntDigit, Dotted, ExpDigit} ==>
       NotAfter(s.startPos, s.prevPos)) &&
    SpansOrdered(s.buffer)
  }

  /** A failure is either the unimplemented escape or a TokenizerError
      with a good span. */
  predicate GoodFailure(f: Option<Failure>) {
    f.Some? && f.value.Raised? ==>
      f.value.exc.TokenizerError? && GoodSpan(Start(f.value.exc), End(f.value.exc))
  }

  lemma NotAfterTransitive(a: SourcePos, b: SourcePos, c: SourcePos)
    requires NotAfter(a, b) && NotAfter(b, c)
    ensures NotAfter(a, c)
  {
  }

  /** A fresh scanner satisfies the invariant. */
  lemma FreshInv()
    ensures Inv(Fresh())
  {
  }

  /** feed keeps the invariant, and every error it raises has a good
      span. */
  lemma FeedKeepsInv(s: Scan, ch: char)
    requires Inv(s)
    ensures Inv(Feed(s, ch).scan)
    ensures GoodFailure(Feed(s, ch).failure)
  {
    var s1 := s.(prevPos := s.curPos, curPos := AddChar(s.curPos, ch));
    AddCharAdvances(s.curPos, ch);
    if s.curPos == Invalid() {
      FirstCharAtOrigin(ch);
    }
    if s.state != AtInit {
      NotAfterTransitive(s.startPos, s.curPos, s1.curPos);
    }
    RefeedKeepsInv(s1, ch);
  }

  lemma {:induction false} RefeedKeepsInv(s: Scan, ch: char)
    requires Entered(s)
    ensures Inv(Refeed(s, ch).scan) && GoodFailure(Refeed(s, ch).failure)
    decreases Rank(s), 2
  {
    match s.state
    case AtInit => StInitKeepsInv(s, ch);
    case InNumber => StNumberKeepsInv(s, ch);
    case InString => StStringKeepsInv(s, ch);
    case Ended =>
  }

  lemma {:induction false} StInitKeepsInv(s: Scan, ch: char)
    requires Entered(s) && s.state == AtInit
    ensures Inv(StInit(s, ch).scan) && GoodFailure(StInit(s, ch).failure)
    decreases Rank(s), 1
  {
    var s1 := s.(startPos := s.curPos);
    if ch == '\0' || IsSpace(ch) || IsStructural(ch) {
    } else if ch == '"' {
      RefeedKeepsInv(s1.(state := InString), ch);
    } else if IsDigit(ch) || ch == '.' || ch == '+' || ch == '-' {
      RefeedKeepsInv(s1.(state := InNumber), ch);
    }
  }

  lemma {:induction false} StNumberKeepsInv(s: Scan, ch: char)
    requires Entered(s) && s.state == InNumber
    ensures Inv(StNumber(s, ch).scan) && GoodFailure(StNumber(s, ch).failure)
    decreases Rank(s), 1
  {
    var ns := s.num;
    match ns.sub
    case NumInit =>
      if ch != '-' && ch != '+' {
        StNumberKeepsInv(s.(num := ns.(sub := Signed)), ch);
      }
    case Signed =>
    case IntDigit =>
      if !IsDigit(ch) && ch != '.' && ch != 'e' && ch != 'E' {
        FinishNumKeepsInv(s, ch);
      }
    case LeadingDot =>
    case Dotted =>
      if !IsDigit(ch) && ch != 'e' && ch != 'E' {
        FinishNumKeepsInv(s, ch);
      }
    case Exp =>
    case ExpSigned =>
    case ExpDigit =>
      if !IsDigit(ch) {
        FinishNumKeepsInv(s, ch);
      }
  }

  lemma {:induction false} FinishNumKeepsInv(s: Scan, ch: char)
    requires Entered(s) && s.state == InNumber && s.num.sub in {IntDigit, Dotted, ExpDigit}
    ensures Inv(FinishNum(s, ch).scan) && GoodFailure(FinishNum(s, ch).failure)
    decreases Rank(s), 0
  {
    var tok := Token(ToToken(s.num), s.startPos, s.prevPos);
    var s1 := s.(buffer := s.buffer + [tok], num := FreshNumber(), state := AtInit);
    assert SpansOrdered(s1.buffer);
    RefeedKeepsInv(s1, ch);
  }

  lemma {:induction false} StStringKeepsInv(s: Scan, ch: char)
    requires Entered(s) && s.state == InString
    ensures Inv(StString(s, ch).scan) && GoodFailure(StString(s, ch).failure)
    decreases Rank(s), 1
  {
    if s.str.sub == Normal && ch == '"' {
      var tok := Token(StringToken(s.str.value), s.startPos, s.curPos);
      assert SpansOrdered(s.buffer + [tok]);
    }
  }

  /** In INIT, a NUL ends the input with an END token at its own position,
      whitespace emits nothing, a structural character emits the token of
      that kind at its own position, and a character that starts no token is
      an unknown char. */
  lemma FeedInit(s: Scan, ch: char)
    requires WellFormed(s) && s.state == AtInit
    ensures var p, o := Next(s, ch), Feed(s, ch);
      (ch == '\0' ==>
         o.failure == None && o.scan.state == Ended &&
         o.scan.buffer == s.buffer + [Token(Plain(END), p, p)]) &&
      (IsSpace(ch) ==>
         o.failure == None && o.scan.state == AtInit && o.scan.buffer == s.buffer) &&
      (IsStructural(ch) ==>
         o.failure == None && o.scan.state == AtInit &&
         o.scan.buffer == s.buffer + [Token(Plain(StructuralType(ch)), p, p)]) &&
      (ch != '\0' && !IsSpace(ch) && !IsStructural(ch) && ch != '"' && !IsDigit(ch) &&
       ch !in ".+-" ==>
         o.failure == Some(Raised(Tokenizer(UnknownCharMsg(ch, ""), p, p))))
  {
    var s1 := s.(prevPos := s.curPos, curPos := Next(s, ch));
    assert Feed(s, ch) == StInit(s1, ch);
  }

  /** After END, every character raises an error and changes nothing but
      the positions. */
  lemma FeedEnded(s: Scan, ch: char)
    requires WellFormed(s) && s.state == Ended
    ensures var o := Feed(s, ch);
      o.failure == Some(Raised(Tokenizer("received char in ENDED state", s.startPos, Next(s, ch)))) &&
      o.scan == s.(prevPos := s.curPos, curPos := Next(s, ch))
  {
  }

  /** Inside a string, the closing quote emits a string token holding the
      characters read, spanning from the opening quote to the closing one,
      and returns to INIT; a backslash enters the escape state; any other
      character is kept verbatim. */
  lemma FeedString(s: Scan, ch: char)
    requires WellFormed(s) && s.state == InString && s.str.sub == Normal
    ensures var o := Feed(s, ch);
      o.failure == None &&
      (ch == '"' ==>
         o.scan.buffer == s.buffer + [Token(StringToken(s.str.value), s.startPos, Next(s, ch))] &&
         o.scan.state == AtInit && o.scan.str == FreshString()) &&
      (ch == '\\' ==> o.scan.str.sub == Escape && o.scan.buffer == s.buffer) &&
      (ch != '"' && ch != '\\' ==>
         o.scan.str == s.str.(value := s.str.value + [ch]) && o.scan.buffer == s.buffer &&
         o.scan.state == InString)
  {
  }

  /** A character that cannot continue a complete number emits the number
      token, spanning from its first character to its last, resets the
      number state and is then fed once more in INIT. */
  lemma FeedNumberEnd(s: Scan, ch: char)
    requires WellFormed(s) && s.state == InNumber
    requires s.num.sub in {IntDigit, Dotted, ExpDigit} && !IsDigit(ch)
    requires s.num.sub == IntDigit ==> ch !in ".eE"
    requires s.num.sub == Dotted ==> ch !in "eE"
    ensures var tok := Token(ToToken(s.num), s.startPos, s.curPos);
      Feed(s, ch) == Refeed(Scan(AtInit, s.buffer + [tok], s.startPos, s.curPos, Next(s, ch),
                                 FreshNumber(), s.str), ch)
  {
    var s1 := s.(prevPos := s.curPos, curPos := Next(s, ch));
    assert Feed(s, ch) == StNumber(s1, ch);
  }

  /** The errors of the number automaton: after a sign a dot or a digit is
      needed, after a leading dot a digit, after `e` a sign or a digit, and
      after the exponent sign a digit. Each reports the span from the
      number's first character to the offending one. */
  lemma FeedNumberErrors(s: Scan, ch: char)
    requires WellFormed(s) && s.state == InNumber
    ensures var o, p := Feed(s, ch), Next(s, ch);
      (s.num.sub == Signed && !IsDigit(ch) && ch != '.' ==>
         o.failure == Some(Raised(Tokenizer(UnknownCharMsg(ch, "expect dot or digit"), s.startPos, p)))) &&
      (s.num.sub == LeadingDot && !IsDigit(ch) ==>
         o.failure == Some(Raised(Tokenizer(UnknownCharMsg(ch, "expect digit"), s.startPos, p)))) &&
      (s.num.sub == Exp && !IsDigit(ch) && ch != '+' && ch != '-' ==>
         o.failure == Some(Raised(Tokenizer(UnknownCharMsg(ch, "expect digit or sign"), s.startPos, p)))) &&
      (s.num.sub == ExpSigned && !IsDigit(ch) ==>
         o.failure == Some(Raised(Tokenizer(UnknownCharMsg(ch, "expect digit"), s.startPos, p))))
  {
    var s1 := s.(prevPos := s.curPos, curPos := Next(s, ch));
    assert Feed(s, ch) == StNumber(s1, ch);
  }

  /** Feeds the characters of `text` one after the other, stopping at the
      first call that does not end normally. */
  function FeedText(s: Scan, text: string): (o: Outcome)
    requires WellFormed(s)
    ensures WellFormed(o.scan)
    ensures text == [] ==> o == Outcome(s, None)
    decreases |text|
  {
    if text == [] then Outcome(s, None)
    else
      var o := Feed(s, text[0]);
      if o.failure.Some? then o else FeedText(o.scan, text[1..])
  }

  /** Feeding `a` and then `b` is feeding `a + b`, unless `a` already
      failed. */
  lemma {:induction false} FeedTextAppend(s: Scan, a: string, b: string)
    requires WellFormed(s)
    ensures FeedText(s, a + b) ==
      var o := FeedText(s, a);
      if o.failure.Some? then o else FeedText(o.scan, b)
    decreases |a|
  {
    if a != [] {
      assert (a + b)[0] == a[0] && (a + b)[1..] == a[1..] + b;
      if Feed(s, a[0]).failure == None {
        FeedTextAppend(Feed(s, a[0]).scan, a[1..], b);
      }
    } else {
      assert a + b == b;
    }
  }

  /** A character read normally from `s` into `t` leaves the rest of the
      text to be read from `t`. */
  lemma FeedTextStep(s: Scan, text: string, t: Scan)
    requires WellFormed(s) && text != [] && Feed(s, text[0]) == Outcome(t, None)
    ensures FeedText(s, text) == FeedText(t, text[1..])
  {
  }

  /** A space or a structural character after a complete number emits the
      number, spanning up to the character before, and is then read in INIT. */
  lemma NumberEndsAt(s: Scan, c: char)
    requires WellFormed(s) && s.state == InNumber && s.num.sub in {IntDigit, Dotted, ExpDigit}
    requires IsSpace(c) || IsStructural(c)
    ensures var p := AddChar(s.curPos, c);
      var tok := Token(ToToken(s.num), s.startPos, s.curPos);
      Feed(s, c) == Outcome(Scan(AtInit, s.buffer + [tok] + (if IsStructural(c) then [Token(Plain(StructuralType(c)), p, p)] else []),
                                 p, s.curPos, p, FreshNumber(), s.str), None)
  {
    FeedNumberEnd(s, c);
  }
}
