/** The scanner's test cases: a whole input fed character by character and
    then a NUL, as the driver of test_scanner.cpp does, with the tokens or
    the error that result. Each example names the scanner's fields after
    every character and proves each step on its own. */
module ScanExamples {
  import opened Wrappers
  import opened Positions
  import opened Tokens
  import opened Errors
  import opened ScanModel
  import opened ScanFacts

  /** The position of column `k` on the first line, as the scanner counts
      it: its newline flag is clear. */
  function Col(k: int): (p: SourcePos)
    ensures Same(p, Pos(0, k))
  {
    SourcePos(0, k, false)
  }

  // "[]{},:"

  // The fields after each of the first characters.
  function Structural1(): Scan {
    Scan(AtInit, [Token(Plain(LSQUARE), Col(0), Col(0))], Col(0), Invalid(), Col(0), FreshNumber(), FreshString())
  }
  function Structural2(): Scan {
    Scan(AtInit, [Token(Plain(LSQUARE), Col(0), Col(0)), Token(Plain(RSQUARE), Col(1), Col(1))], Col(1), Col(0), Col(1), FreshNumber(), FreshString())
  }
  function Structural3(): Scan {
    Scan(AtInit, [Token(Plain(LSQUARE), Col(0), Col(0)), Token(Plain(RSQUARE), Col(1), Col(1)), Token(Plain(LCURLY), Col(2), Col(2))], Col(2), Col(1), Col(2), FreshNumber(), FreshString())
  }
  function Structural4(): Scan {
    Scan(AtInit, [Token(Plain(LSQUARE), Col(0), Col(0)), Token(Plain(RSQUARE), Col(1), Col(1)), Token(Plain(LCURLY), Col(2), Col(2)), Token(Plain(RCURLY), Col(3), Col(3))], Col(3), Col(2), Col(3), FreshNumber(), FreshString())
  }
  function Structural5(): Scan {
    Scan(AtInit, [Token(Plain(LSQUARE), Col(0), Col(0)), Token(Plain(RSQUARE), Col(1), Col(1)), Token(Plain(LCURLY), Col(2), Col(2)), Token(Plain(RCURLY), Col(3), Col(3)), Token(Plain(COMMA), Col(4), Col(4))], Col(4), Col(3), Col(4), FreshNumber(), FreshString())
  }
  function Structural6(): Scan {
    Scan(AtInit, [Token(Plain(LSQUARE), Col(0), Col(0)), Token(Plain(RSQUARE), Col(1), Col(1)), Token(Plain(LCURLY), Col(2), Col(2)), Token(Plain(RCURLY), Col(3), Col(3)), Token(Plain(COMMA), Col(4), Col(4)), Token(Plain(COLON), Col(5), Col(5))], Col(5), Col(4), Col(5), FreshNumber(), FreshString())
  }
  function Structural7(): Scan {
    Scan(Ended, [Token(Plain(LSQUARE), Col(0), Col(0)), Token(Plain(RSQUARE), Col(1), Col(1)), Token(Plain(LCURLY), Col(2), Col(2)), Token(Plain(RCURLY), Col(3), Col(3)), Token(Plain(COMMA), Col(4), Col(4)), Token(Plain(COLON), Col(5), Col(5)), Token(Plain(END), Col(6), Col(6))], Col(6), Col(5), Col(6), FreshNumber(), FreshString())
  }

  // Each step reads one character normally and leaves the rest of the text.

  lemma StructuralStep0()
    ensures FeedText(Fresh(), "[]{},:\0") == FeedText(Structural1(), "]{},:\0")
  {
    assert Feed(Fresh(), '[') == Outcome(Structural1(), None);
    FeedTextStep(Fresh(), "[]{},:\0", Structural1());
  }

  lemma StructuralStep1()
    ensures FeedText(Structural1(), "]{},:\0") == FeedText(Structural2(), "{},:\0")
  {
    assert Feed(Structural1(), ']') == Outcome(Structural2(), None);
    FeedTextStep(Structural1(), "]{},:\0", Structural2());
  }

  lemma StructuralStep2()
    ensures FeedText(Structural2(), "{},:\0") == FeedText(Structural3(), "},:\0")
  {
    assert Feed(Structural2(), '{') == Outcome(Structural3(), None);
    FeedTextStep(Structural2(), "{},:\0", Structural3());
  }

  lemma StructuralStep3()
    ensures FeedText(Structural3(), "},:\0") == FeedText(Structural4(), ",:\0")
  {
    assert Feed(Structural3(), '}') == Outcome(Structural4(), None);
    FeedTextStep(Structural3(), "},:\0", Structural4());
  }

  lemma StructuralStep4()
    ensures FeedText(Structural4(), ",:\0") == FeedText(Structural5(), ":\0")
  {
    assert Feed(Structural4(), ',') == Outcome(Structural5(), None);
    FeedTextStep(Structural4(), ",:\0", Structural5());
  }

  lemma StructuralStep5()
    ensures FeedText(Structural5(), ":\0") == FeedText(Structural6(), "\0")
  {
    assert Feed(Structural5(), ':') == Outcome(Structural6(), None);
    FeedTextStep(Structural5(), ":\0", Structural6());
  }

  lemma StructuralStep6()
    ensures FeedText(Structural6(), "\0") == FeedText(Structural7(), "")
  {
    assert Feed(Structural6(), '\0') == Outcome(Structural7(), None);
    FeedTextStep(Structural6(), "\0", Structural7());
  }

  /** The tokens of "[]{},:" and the final NUL. */
  function StructuralTokens(): (r: seq<Token>)
    ensures |r| == 7
  {
    [
      Token(Plain(LSQUARE), Col(0), Col(0)),
      Token(Plain(RSQUARE), Col(1), Col(1)),
      Token(Plain(LCURLY), Col(2), Col(2)),
      Token(Plain(RCURLY), Col(3), Col(3)),
      Token(Plain(COMMA), Col(4), Col(4)),
      Token(Plain(COLON), Col(5), Col(5)),
      Token(Plain(END), Col(6), Col(6))
    ]
  }

  /** Each structural character is a token of its own kind at its own column, followed by END at column 6 (test_scanner.cpp:47-56, 71). */
  lemma ScansStructural()
    ensures var o := FeedText(Fresh(), "[]{},:\0");
      o.failure == None && o.scan.state == Ended && o.scan.buffer == StructuralTokens()
  {
    StructuralStep0();
    StructuralStep1();
    StructuralStep2();
    StructuralStep3();
    StructuralStep4();
    StructuralStep5();
    StructuralStep6();
  }

  // " -12.5e-1 "

  // The fields after each of the first characters.
  function SignedExponent1(): Scan {
    Scan(AtInit, [], Col(0), Invalid(), Col(0), FreshNumber(), FreshString())
  }
  function SignedExponent2(): Scan {
    Scan(InNumber, [], Col(1), Col(0), Col(1), NumberState(Signed, "", "", "", -1, 1, false), FreshString())
  }
  function SignedExponent3(): Scan {
    Scan(InNumber, [], Col(1), Col(1), Col(2), NumberState(IntDigit, "1", "", "", -1, 1, false), FreshString())
  }
  function SignedExponent4(): Scan {
    Scan(InNumber, [], Col(1), Col(2), Col(3), NumberState(IntDigit, "12", "", "", -1, 1, false), FreshString())
  }
  function SignedExponent5(): Scan {
    Scan(InNumber, [], Col(1), Col(3), Col(4), NumberState(Dotted, "12", "", "", -1, 1, true), FreshString())
  }
  function SignedExponent6(): Scan {
    Scan(InNumber, [], Col(1), Col(4), Col(5), NumberState(Dotted, "12", "5", "", -1, 1, true), FreshString())
  }
  function SignedExponent7(): Scan {
    Scan(InNumber, [], Col(1), Col(5), Col(6), NumberState(Exp, "12", "5", "", -1, 1, true), FreshString())
  }
  function SignedExponent8(): Scan {
    Scan(InNumber, [], Col(1), Col(6), Col(7), NumberState(ExpSigned, "12", "5", "", -1, -1, true), FreshString())
  }
  function SignedExponent9(): Scan {
    Scan(InNumber, [], Col(1), Col(7), Col(8), NumberState(ExpDigit, "12", "5", "1", -1, -1, true), FreshString())
  }
  function SignedExponent10(): Scan {
    Scan(AtInit, [Token(FloatToken(-1.25), Col(1), Col(8))], Col(9), Col(8), Col(9), FreshNumber(), FreshString())
  }
  function SignedExponent11(): Scan {
    Scan(Ended, [Token(FloatToken(-1.25), Col(1), Col(8)), Token(Plain(END), Col(10), Col(10))], Col(10), Col(9), Col(10), FreshNumber(), FreshString())
  }

  // Each step reads one character normally and leaves the rest of the text.

  lemma SignedExponentStep0()
    ensures FeedText(Fresh(), " -12.5e-1 \0") == FeedText(SignedExponent1(), "-12.5e-1 \0")
  {
    assert Feed(Fresh(), ' ') == Outcome(SignedExponent1(), None);
    FeedTextStep(Fresh(), " -12.5e-1 \0", SignedExponent1());
  }

  lemma SignedExponentStep1()
    ensures FeedText(SignedExponent1(), "-12.5e-1 \0") == FeedText(SignedExponent2(), "12.5e-1 \0")
  {
    assert Feed(SignedExponent1(), '-') == Outcome(SignedExponent2(), None);
    FeedTextStep(SignedExponent1(), "-12.5e-1 \0", SignedExponent2());
  }

  lemma SignedExponentStep2()
    ensures FeedText(SignedExponent2(), "12.5e-1 \0") == FeedText(SignedExponent3(), "2.5e-1 \0")
  {
    assert Feed(SignedExponent2(), '1') == Outcome(SignedExponent3(), None);
    FeedTextStep(SignedExponent2(), "12.5e-1 \0", SignedExponent3());
  }

  lemma SignedExponentStep3()
    ensures FeedText(SignedExponent3(), "2.5e-1 \0") == FeedText(SignedExponent4(), ".5e-1 \0")
  {
    assert Feed(SignedExponent3(), '2') == Outcome(SignedExponent4(), None);
    FeedTextStep(SignedExponent3(), "2.5e-1 \0", SignedExponent4());
  }

  lemma SignedExponentStep4()
    ensures FeedText(SignedExponent4(), ".5e-1 \0") == FeedText(SignedExponent5(), "5e-1 \0")
  {
    assert Feed(SignedExponent4(), '.') == Outcome(SignedExponent5(), None);
    FeedTextStep(SignedExponent4(), ".5e-1 \0", SignedExponent5());
  }

  lemma SignedExponentStep5()
    ensures FeedText(SignedExponent5(), "5e-1 \0") == FeedText(SignedExponent6(), "e-1 \0")
  {
    assert Feed(SignedExponent5(), '5') == Outcome(SignedExponent6(), None);
    FeedTextStep(SignedExponent5(), "5e-1 \0", SignedExponent6());
  }

  lemma SignedExponentStep6()
    ensures FeedText(SignedExponent6(), "e-1 \0") == FeedText(SignedExponent7(), "-1 \0")
  {
    assert Feed(SignedExponent6(), 'e') == Outcome(SignedExponent7(), None);
    FeedTextStep(SignedExponent6(), "e-1 \0", SignedExponent7());
  }

  lemma SignedExponentStep7()
    ensures FeedText(SignedExponent7(), "-1 \0") == FeedText(SignedExponent8(), "1 \0")
  {
    assert Feed(SignedExponent7(), '-') == Outcome(SignedExponent8(), None);
    FeedTextStep(SignedExponent7(), "-1 \0", SignedExponent8());
  }

  lemma SignedExponentStep8()
    ensures FeedText(SignedExponent8(), "1 \0") == FeedText(SignedExponent9(), " \0")
  {
    assert Feed(SignedExponent8(), '1') == Outcome(SignedExponent9(), None);
    FeedTextStep(SignedExponent8(), "1 \0", SignedExponent9());
  }

  lemma SignedExponentEnd9()
    ensures Feed(SignedExponent9(), ' ') == Outcome(SignedExponent10(), None)
  {
    assert DigitsValue("1") == 1;
    assert DigitsValue("12") == 12 by { assert "12"[..1] == "1"; }
    assert DigitsValue("5") == 5;
    assert DigitsValue("1") == 1;
    assert Fraction("5") == 5.0 / 10.0;
    assert ToToken(NumberState(ExpDigit, "12", "5", "1", -1, -1, true)) == FloatToken(-1.25);
    NumberEndsAt(SignedExponent9(), ' ');
  }

  lemma SignedExponentStep9()
    ensures FeedText(SignedExponent9(), " \0") == FeedText(SignedExponent10(), "\0")
  {
    SignedExponentEnd9();
    FeedTextStep(SignedExponent9(), " \0", SignedExponent10());
  }

  lemma SignedExponentStep10()
    ensures FeedText(SignedExponent10(), "\0") == FeedText(SignedExponent11(), "")
  {
    assert Feed(SignedExponent10(), '\0') == Outcome(SignedExponent11(), None);
    FeedTextStep(SignedExponent10(), "\0", SignedExponent11());
  }

  /** The tokens of " -12.5e-1 " and the final NUL. */
  function SignedExponentTokens(): (r: seq<Token>)
    ensures |r| == 2
  {
    [
      Token(FloatToken(-1.25), Col(1), Col(8)),
      Token(Plain(END), Col(10), Col(10))
    ]
  }

  /** One float token -1.25 spanning columns 1 to 8: the number ends at the space after it, which is read again in INIT (test_scanner.cpp:72-73). */
  lemma ScansSignedExponent()
    ensures var o := FeedText(Fresh(), " -12.5e-1 \0");
      o.failure == None && o.scan.state == Ended && o.scan.buffer == SignedExponentTokens()
  {
    SignedExponentStep0();
    SignedExponentStep1();
    SignedExponentStep2();
    SignedExponentStep3();
    SignedExponentStep4();
    SignedExponentStep5();
    SignedExponentStep6();
    SignedExponentStep7();
    SignedExponentStep8();
    SignedExponentStep9();
    SignedExponentStep10();
  }

  // ""asdf""

  // The fields after each of the first characters.
  function Quoted1(): Scan {
    Scan(InString, [], Col(0), Invalid(), Col(0), FreshNumber(), StringState(Normal, ""))
  }
  function Quoted2(): Scan {
    Scan(InString, [], Col(0), Col(0), Col(1), FreshNumber(), StringState(Normal, "a"))
  }
  function Quoted3(): Scan {
    Scan(InString, [], Col(0), Col(1), Col(2), FreshNumber(), StringState(Normal, "as"))
  }
  function Quoted4(): Scan {
    Scan(InString, [], Col(0), Col(2), Col(3), FreshNumber(), StringState(Normal, "asd"))
  }
  function Quoted5(): Scan {
    Scan(InString, [], Col(0), Col(3), Col(4), FreshNumber(), StringState(Normal, "asdf"))
  }
  function Quoted6(): Scan {
    Scan(AtInit, [Token(StringToken("asdf"), Col(0), Col(5))], Col(0), Col(4), Col(5), FreshNumber(), FreshString())
  }
  function Quoted7(): Scan {
    Scan(Ended, [Token(StringToken("asdf"), Col(0), Col(5)), Token(Plain(END), Col(6), Col(6))], Col(6), Col(5), Col(6), FreshNumber(), FreshString())
  }

  // Each step reads one character normally and leaves the rest of the text.

  lemma QuotedStep0()
    ensures FeedText(Fresh(), "\"asdf\"\0") == FeedText(Quoted1(), "asdf\"\0")
  {
    assert Feed(Fresh(), '"') == Outcome(Quoted1(), None);
    FeedTextStep(Fresh(), "\"asdf\"\0", Quoted1());
  }

  lemma QuotedStep1()
    ensures FeedText(Quoted1(), "asdf\"\0") == FeedText(Quoted2(), "sdf\"\0")
  {
    assert Feed(Quoted1(), 'a') == Outcome(Quoted2(), None);
    FeedTextStep(Quoted1(), "asdf\"\0", Quoted2());
  }

  lemma QuotedStep2()
    ensures FeedText(Quoted2(), "sdf\"\0") == FeedText(Quoted3(), "df\"\0")
  {
    assert Feed(Quoted2(), 's') == Outcome(Quoted3(), None);
    FeedTextStep(Quoted2(), "sdf\"\0", Quoted3());
  }

  lemma QuotedStep3()
    ensures FeedText(Quoted3(), "df\"\0") == FeedText(Quoted4(), "f\"\0")
  {
    assert Feed(Quoted3(), 'd') == Outcome(Quoted4(), None);
    FeedTextStep(Quoted3(), "df\"\0", Quoted4());
  }

  lemma QuotedStep4()
    ensures FeedText(Quoted4(), "f\"\0") == FeedText(Quoted5(), "\"\0")
  {
    assert Feed(Quoted4(), 'f') == Outcome(Quoted5(), None);
    FeedTextStep(Quoted4(), "f\"\0", Quoted5());
  }

  lemma QuotedStep5()
    ensures FeedText(Quoted5(), "\"\0") == FeedText(Quoted6(), "\0")
  {
    assert Feed(Quoted5(), '"') == Outcome(Quoted6(), None);
    FeedTextStep(Quoted5(), "\"\0", Quoted6());
  }

  lemma QuotedStep6()
    ensures FeedText(Quoted6(), "\0") == FeedText(Quoted7(), "")
  {
    assert Feed(Quoted6(), '\0') == Outcome(Quoted7(), None);
    FeedTextStep(Quoted6(), "\0", Quoted7());
  }

  /** The tokens of "\"asdf\"" and the final NUL. */
  function QuotedTokens(): (r: seq<Token>)
    ensures |r| == 2
  {
    [
      Token(StringToken("asdf"), Col(0), Col(5)),
      Token(Plain(END), Col(6), Col(6))
    ]
  }

  /** One string token "asdf" spanning both quotes, columns 0 to 5 (test_scanner.cpp:75-76). */
  lemma ScansQuoted()
    ensures var o := FeedText(Fresh(), "\"asdf\"\0");
      o.failure == None && o.scan.state == Ended && o.scan.buffer == QuotedTokens()
  {
    QuotedStep0();
    QuotedStep1();
    QuotedStep2();
    QuotedStep3();
    QuotedStep4();
    QuotedStep5();
    QuotedStep6();
  }

  // "[1.2, {"asdf": 5}]"

  // The fields after each of the first characters.
  function Mixed1(): Scan {
    Scan(AtInit, [Token(Plain(LSQUARE), Col(0), Col(0))], Col(0), Invalid(), Col(0), FreshNumber(), FreshString())
  }
  function Mixed2(): Scan {
    Scan(InNumber, [Token(Plain(LSQUARE), Col(0), Col(0))], Col(1), Col(0), Col(1), NumberState(IntDigit, "1", "", "", 1, 1, false), FreshString())
  }
  function Mixed3(): Scan {
    Scan(InNumber, [Token(Plain(LSQUARE), Col(0), Col(0))], Col(1), Col(1), Col(2), NumberState(Dotted, "1", "", "", 1, 1, true), FreshString())
  }
  function Mixed4(): Scan {
    Scan(InNumber, [Token(Plain(LSQUARE), Col(0), Col(0))], Col(1), Col(2), Col(3), NumberState(Dotted, "1", "2", "", 1, 1, true), FreshString())
  }
  function Mixed5(): Scan {
    Scan(AtInit, [Token(Plain(LSQUARE), Col(0), Col(0)), Token(FloatToken(1.2), Col(1), Col(3)), Token(Plain(COMMA), Col(4), Col(4))], Col(4), Col(3), Col(4), FreshNumber(), FreshString())
  }
  function Mixed6(): Scan {
    Scan(AtInit, [Token(Plain(LSQUARE), Col(0), Col(0)), Token(FloatToken(1.2), Col(1), Col(3)), Token(Plain(COMMA), Col(4), Col(4))], Col(5), Col(4), Col(5), FreshNumber(), FreshString())
  }
  function Mixed7(): Scan {
    Scan(AtInit, [Token(Plain(LSQUARE), Col(0), Col(0)), Token(FloatToken(1.2), Col(1), Col(3)), Token(Plain(COMMA), Col(4), Col(4)), Token(Plain(LCURLY), Col(6), Col(6))], Col(6), Col(5), Col(6), FreshNumber(), FreshString())
  }
  function Mixed8(): Scan {
    Scan(InString, [Token(Plain(LSQUARE), Col(0), Col(0)), Token(FloatToken(1.2), Col(1), Col(3)), Token(Plain(COMMA), Col(4), Col(4)), Token(Plain(LCURLY), Col(6), Col(6))], Col(7), Col(6), Col(7), FreshNumber(), StringState(Normal, ""))
  }
  function Mixed9(): Scan {
    Scan(InString, [Token(Plain(LSQUARE), Col(0), Col(0)), Token(FloatToken(1.2), Col(1), Col(3)), Token(Plain(COMMA), Col(4), Col(4)), Token(Plain(LCURLY), Col(6), Col(6))], Col(7), Col(7), Col(8), FreshNumber(), StringState(Normal, "a"))
  }
  function Mixed10(): Scan {
    Scan(InString, [Token(Plain(LSQUARE), Col(0), Col(0)), Token(FloatToken(1.2), Col(1), Col(3)), Token(Plain(COMMA), Col(4), Col(4)), Token(Plain(LCURLY), Col(6), Col(6))], Col(7), Col(8), Col(9), FreshNumber(), StringState(Normal, "as"))
  }
  function Mixed11(): Scan {
    Scan(InString, [Token(Plain(LSQUARE), Col(0), Col(0)), Token(FloatToken(1.2), Col(1), Col(3)), Token(Plain(COMMA), Col(4), Col(4)), Token(Plain(LCURLY), Col(6), Col(6))], Col(7), Col(9), Col(10), FreshNumber(), StringState(Normal, "asd"))
  }
  function Mixed12(): Scan {
    Scan(InString, [Token(Plain(LSQUARE), Col(0), Col(0)), Token(FloatToken(1.2), Col(1), Col(3)), Token(Plain(COMMA), Col(4), Col(4)), Token(Plain(LCURLY), Col(6), Col(6))], Col(7), Col(10), Col(11), FreshNumber(), StringState(Normal, "asdf"))
  }
  function Mixed13(): Scan {
    Scan(AtInit, [Token(Plain(LSQUARE), Col(0), Col(0)), Token(FloatToken(1.2), Col(1), Col(3)), Token(Plain(COMMA), Col(4), Col(4)), Token(Plain(LCURLY), Col(6), Col(6)), Token(StringToken("asdf"), Col(7), Col(12))], Col(7), Col(11), Col(12), FreshNumber(), FreshString())
  }
  function Mixed14(): Scan {
    Scan(AtInit, [Token(Plain(LSQUARE), Col(0), Col(0)), Token(FloatToken(1.2), Col(1), Col(3)), Token(Plain(COMMA), Col(4), Col(4)), Token(Plain(LCURLY), Col(6), Col(6)), Token(StringToken("asdf"), Col(7), Col(12)), Token(Plain(COLON), Col(13), Col(13))], Col(13), Col(12), Col(13), FreshNumber(), FreshString())
  }
  function Mixed15(): Scan {
    Scan(AtInit, [Token(Plain(LSQUARE), Col(0), Col(0)), Token(FloatToken(1.2), Col(1), Col(3)), Token(Plain(COMMA), Col(4), Col(4)), Token(Plain(LCURLY), Col(6), Col(6)), Token(StringToken("asdf"), Col(7), Col(12)), Token(Plain(COLON), Col(13), Col(13))], Col(14), Col(13), Col(14), FreshNumber(), FreshString())
  }
  function Mixed16(): Scan {
    Scan(InNumber, [Token(Plain(LSQUARE), Col(0), Col(0)), Token(FloatToken(1.2), Col(1), Col(3)), Token(Plain(COMMA), Col(4), Col(4)), Token(Plain(LCURLY), Col(6), Col(6)), Token(StringToken("asdf"), Col(7), Col(12)), Token(Plain(COLON), Col(13), Col(13))], Col(15), Col(14), Col(15), NumberState(IntDigit, "5", "", "", 1, 1, false), FreshString())
  }
  function Mixed17(): Scan {
    Scan(AtInit, [Token(Plain(LSQUARE), Col(0), Col(0)), Token(FloatToken(1.2), Col(1), Col(3)), Token(Plain(COMMA), Col(4), Col(4)), Token(Plain(LCURLY), Col(6), Col(6)), Token(StringToken("asdf"), Col(7), Col(12)), Token(Plain(COLON), Col(13), Col(13)), Token(IntToken(5), Col(15), Col(15)), Token(Plain(RCURLY), Col(16), Col(16))], Col(16), Col(15), Col(16), FreshNumber(), FreshString())
  }
  function Mixed18(): Scan {
    Scan(AtInit, [Token(Plain(LSQUARE), Col(0), Col(0)), Token(FloatToken(1.2), Col(1), Col(3)), Token(Plain(COMMA), Col(4), Col(4)), Token(Plain(LCURLY), Col(6), Col(6)), Token(StringToken("asdf"), Col(7), Col(12)), Token(Plain(COLON), Col(13), Col(13)), Token(IntToken(5), Col(15), Col(15)), Token(Plain(RCURLY), Col(16), Col(16)), Token(Plain(RSQUARE), Col(17), Col(17))], Col(17), Col(16), Col(17), FreshNumber(), FreshString())
  }
  function Mixed19(): Scan {
    Scan(Ended, [Token(Plain(LSQUARE), Col(0), Col(0)), Token(FloatToken(1.2), Col(1), Col(3)), Token(Plain(COMMA), Col(4), Col(4)), Token(Plain(LCURLY), Col(6), Col(6)), Token(StringToken("asdf"), Col(7), Col(12)), Token(Plain(COLON), Col(13), Col(13)), Token(IntToken(5), Col(15), Col(15)), Token(Plain(RCURLY), Col(16), Col(16)), Token(Plain(RSQUARE), Col(17), Col(17)), Token(Plain(END), Col(18), Col(18))], Col(18), Col(17), Col(18), FreshNumber(), FreshString())
  }

  // Each step reads one character normally and leaves the rest of the text.

  lemma MixedStep0()
    ensures FeedText(Fresh(), "[1.2, {\"asdf\": 5}]\0") == FeedText(Mixed1(), "1.2, {\"asdf\": 5}]\0")
  {
    assert Feed(Fresh(), '[') == Outcome(Mixed1(), None);
    FeedTextStep(Fresh(), "[1.2, {\"asdf\": 5}]\0", Mixed1());
  }

  lemma MixedStep1()
    ensures FeedText(Mixed1(), "1.2, {\"asdf\": 5}]\0") == FeedText(Mixed2(), ".2, {\"asdf\": 5}]\0")
  {
    assert Feed(Mixed1(), '1') == Outcome(Mixed2(), None);
    FeedTextStep(Mixed1(), "1.2, {\"asdf\": 5}]\0", Mixed2());
  }

  lemma MixedStep2()
    ensures FeedText(Mixed2(), ".2, {\"asdf\": 5}]\0") == FeedText(Mixed3(), "2, {\"asdf\": 5}]\0")
  {
    assert Feed(Mixed2(), '.') == Outcome(Mixed3(), None);
    FeedTextStep(Mixed2(), ".2, {\"asdf\": 5}]\0", Mixed3());
  }

  lemma MixedStep3()
    ensures FeedText(Mixed3(), "2, {\"asdf\": 5}]\0") == FeedText(Mixed4(), ", {\"asdf\": 5}]\0")
  {
    assert Feed(Mixed3(), '2') == Outcome(Mixed4(), None);
    FeedTextStep(Mixed3(), "2, {\"asdf\": 5}]\0", Mixed4());
  }

  lemma MixedEnd4()
    ensures Feed(Mixed4(), ',') == Outcome(Mixed5(), None)
  {
    assert DigitsValue("1") == 1;
    assert DigitsValue("2") == 2;
    assert Fraction("2") == 2.0 / 10.0;
    assert ToToken(NumberState(Dotted, "1", "2", "", 1, 1, true)) == FloatToken(1.2);
    NumberEndsAt(Mixed4(), ',');
  }

  lemma MixedStep4()
    ensures FeedText(Mixed4(), ", {\"asdf\": 5}]\0") == FeedText(Mixed5(), " {\"asdf\": 5}]\0")
  {
    MixedEnd4();
    FeedTextStep(Mixed4(), ", {\"asdf\": 5}]\0", Mixed5());
  }

  lemma MixedStep5()
    ensures FeedText(Mixed5(), " {\"asdf\": 5}]\0") == FeedText(Mixed6(), "{\"asdf\": 5}]\0")
  {
    assert Feed(Mixed5(), ' ') == Outcome(Mixed6(), None);
    FeedTextStep(Mixed5(), " {\"asdf\": 5}]\0", Mixed6());
  }

  lemma MixedStep6()
    ensures FeedText(Mixed6(), "{\"asdf\": 5}]\0") == FeedText(Mixed7(), "\"asdf\": 5}]\0")
  {
    assert Feed(Mixed6(), '{') == Outcome(Mixed7(), None);
    FeedTextStep(Mixed6(), "{\"asdf\": 5}]\0", Mixed7());
  }

  lemma MixedStep7()
    ensures FeedText(Mixed7(), "\"asdf\": 5}]\0") == FeedText(Mixed8(), "asdf\": 5}]\0")
  {
    assert Feed(Mixed7(), '"') == Outcome(Mixed8(), None);
    FeedTextStep(Mixed7(), "\"asdf\": 5}]\0", Mixed8());
  }

  lemma MixedStep8()
    ensures FeedText(Mixed8(), "asdf\": 5}]\0") == FeedText(Mixed9(), "sdf\": 5}]\0")
  {
    assert Feed(Mixed8(), 'a') == Outcome(Mixed9(), None);
    FeedTextStep(Mixed8(), "asdf\": 5}]\0", Mixed9());
  }

  lemma MixedStep9()
    ensures FeedText(Mixed9(), "sdf\": 5}]\0") == FeedText(Mixed10(), "df\": 5}]\0")
  {
    assert Feed(Mixed9(), 's') == Outcome(Mixed10(), None);
    FeedTextStep(Mixed9(), "sdf\": 5}]\0", Mixed10());
  }

  lemma MixedStep10()
    ensures FeedText(Mixed10(), "df\": 5}]\0") == FeedText(Mixed11(), "f\": 5}]\0")
  {
    assert Feed(Mixed10(), 'd') == Outcome(Mixed11(), None);
    FeedTextStep(Mixed10(), "df\": 5}]\0", Mixed11());
  }

  lemma MixedStep11()
    ensures FeedText(Mixed11(), "f\": 5}]\0") == FeedText(Mixed12(), "\": 5}]\0")
  {
    assert Feed(Mixed11(), 'f') == Outcome(Mixed12(), None);
    FeedTextStep(Mixed11(), "f\": 5}]\0", Mixed12());
  }

  lemma MixedStep12()
    ensures FeedText(Mixed12(), "\": 5}]\0") == FeedText(Mixed13(), ": 5}]\0")
  {
    assert Feed(Mixed12(), '"') == Outcome(Mixed13(), None);
    FeedTextStep(Mixed12(), "\": 5}]\0", Mixed13());
  }

  lemma MixedStep13()
    ensures FeedText(Mixed13(), ": 5}]\0") == FeedText(Mixed14(), " 5}]\0")
  {
    assert Feed(Mixed13(), ':') == Outcome(Mixed14(), None);
    FeedTextStep(Mixed13(), ": 5}]\0", Mixed14());
  }

  lemma MixedStep14()
    ensures FeedText(Mixed14(), " 5}]\0") == FeedText(Mixed15(), "5}]\0")
  {
    assert Feed(Mixed14(), ' ') == Outcome(Mixed15(), None);
    FeedTextStep(Mixed14(), " 5}]\0", Mixed15());
  }

  lemma MixedStep15()
    ensures FeedText(Mixed15(), "5}]\0") == FeedText(Mixed16(), "}]\0")
  {
    assert Feed(Mixed15(), '5') == Outcome(Mixed16(), None);
    FeedTextStep(Mixed15(), "5}]\0", Mixed16());
  }

  lemma MixedEnd16()
    ensures Feed(Mixed16(), '}') == Outcome(Mixed17(), None)
  {
    assert DigitsValue("5") == 5;
    assert ToToken(NumberState(IntDigit, "5", "", "", 1, 1, false)) == IntToken(5);
    NumberEndsAt(Mixed16(), '}');
  }

  lemma MixedStep16()
    ensures FeedText(Mixed16(), "}]\0") == FeedText(Mixed17(), "]\0")
  {
    MixedEnd16();
    FeedTextStep(Mixed16(), "}]\0", Mixed17());
  }

  lemma MixedStep17()
    ensures FeedText(Mixed17(), "]\0") == FeedText(Mixed18(), "\0")
  {
    assert Feed(Mixed17(), ']') == Outcome(Mixed18(), None);
    FeedTextStep(Mixed17(), "]\0", Mixed18());
  }

  lemma MixedStep18()
    ensures FeedText(Mixed18(), "\0") == FeedText(Mixed19(), "")
  {
    assert Feed(Mixed18(), '\0') == Outcome(Mixed19(), None);
    FeedTextStep(Mixed18(), "\0", Mixed19());
  }

  /** The tokens of "[1.2, {\"asdf\": 5}]" and the final NUL. */
  function MixedTokens(): (r: seq<Token>)
    ensures |r| == 10
  {
    [
      Token(Plain(LSQUARE), Col(0), Col(0)),
      Token(FloatToken(1.2), Col(1), Col(3)),
      Token(Plain(COMMA), Col(4), Col(4)),
      Token(Plain(LCURLY), Col(6), Col(6)),
      Token(StringToken("asdf"), Col(7), Col(12)),
      Token(Plain(COLON), Col(13), Col(13)),
      Token(IntToken(5), Col(15), Col(15)),
      Token(Plain(RCURLY), Col(16), Col(16)),
      Token(Plain(RSQUARE), Col(17), Col(17)),
      Token(Plain(END), Col(18), Col(18))
    ]
  }

  /** The spans of test_scanner.cpp:89-100: a number ends at the comma or brace after it, which is still a token of its own. */
  lemma ScansMixed()
    ensures var o := FeedText(Fresh(), "[1.2, {\"asdf\": 5}]\0");
      o.failure == None && o.scan.state == Ended && o.scan.buffer == MixedTokens()
  {
    MixedStep0();
    MixedStep1();
    MixedStep2();
    MixedStep3();
    MixedStep4();
    MixedStep5();
    MixedStep6();
    MixedStep7();
    MixedStep8();
    MixedStep9();
    MixedStep10();
    MixedStep11();
    MixedStep12();
    MixedStep13();
    MixedStep14();
    MixedStep15();
    MixedStep16();
    MixedStep17();
    MixedStep18();
  }

  // "1.0ee "

  // The fields after each of the first characters.
  function DoubleExponent1(): Scan {
    Scan(InNumber, [], Col(0), Invalid(), Col(0), NumberState(IntDigit, "1", "", "", 1, 1, false), FreshString())
  }
  function DoubleExponent2(): Scan {
    Scan(InNumber, [], Col(0), Col(0), Col(1), NumberState(Dotted, "1", "", "", 1, 1, true), FreshString())
  }
  function DoubleExponent3(): Scan {
    Scan(InNumber, [], Col(0), Col(1), Col(2), NumberState(Dotted, "1", "0", "", 1, 1, true), FreshString())
  }
  function DoubleExponent4(): Scan {
    Scan(InNumber, [], Col(0), Col(2), Col(3), NumberState(Exp, "1", "0", "", 1, 1, true), FreshString())
  }

  // Each step reads one character normally and leaves the rest of the text.

  lemma DoubleExponentStep0()
    ensures FeedText(Fresh(), "1.0ee \0") == FeedText(DoubleExponent1(), ".0ee \0")
  {
    assert Feed(Fresh(), '1') == Outcome(DoubleExponent1(), None);
    FeedTextStep(Fresh(), "1.0ee \0", DoubleExponent1());
  }

  lemma DoubleExponentStep1()
    ensures FeedText(DoubleExponent1(), ".0ee \0") == FeedText(DoubleExponent2(), "0ee \0")
  {
    assert Feed(DoubleExponent1(), '.') == Outcome(DoubleExponent2(), None);
    FeedTextStep(DoubleExponent1(), ".0ee \0", DoubleExponent2());
  }

  lemma DoubleExponentStep2()
    ensures FeedText(DoubleExponent2(), "0ee \0") == FeedText(DoubleExponent3(), "ee \0")
  {
    assert Feed(DoubleExponent2(), '0') == Outcome(DoubleExponent3(), None);
    FeedTextStep(DoubleExponent2(), "0ee \0", DoubleExponent3());
  }

  lemma DoubleExponentStep3()
    ensures FeedText(DoubleExponent3(), "ee \0") == FeedText(DoubleExponent4(), "e \0")
  {
    assert Feed(DoubleExponent3(), 'e') == Outcome(DoubleExponent4(), None);
    FeedTextStep(DoubleExponent3(), "ee \0", DoubleExponent4());
  }

  /** The second `e` cannot be read: the exponent needs a sign or a digit. */
  lemma DoubleExponentStep4()
    ensures Feed(DoubleExponent4(), 'e') == Outcome(Scan(InNumber, [], Col(0), Col(3), Col(4), NumberState(Exp, "1", "0", "", 1, 1, true), FreshString()), Some(Raised(Tokenizer("Unknown char: e, expect digit or sign", Col(0), Col(4)))))
  {
    assert UnknownCharMsg('e', "expect digit or sign") == "Unknown char: e, expect digit or sign";
  }

  /** A second `e` where the exponent needs a sign or a digit raises a TokenizerError spanning the number from column 0 to the offending column 4 (test_scanner.cpp:116). */
  lemma RejectsDoubleExponent()
    ensures FeedText(Fresh(), "1.0ee \0").failure == Some(Raised(Tokenizer("Unknown char: e, expect digit or sign", Col(0), Col(4))))
  {
    DoubleExponentStep0();
    DoubleExponentStep1();
    DoubleExponentStep2();
    DoubleExponentStep3();
    DoubleExponentStep4();
  }

  // "asdf "

  /** A letter starts no token: "asdf " raises "Unknown char: a" spanning column 0 alone. */
  lemma RejectsLetters()
    ensures FeedText(Fresh(), "asdf \0").failure == Some(Raised(Tokenizer("Unknown char: a", Col(0), Col(0))))
  {
    assert UnknownCharMsg('a', "") == "Unknown char: a";
    assert Feed(Fresh(), 'a') == Outcome(Scan(AtInit, [], Col(0), Invalid(), Col(0), FreshNumber(), FreshString()), Some(Raised(Tokenizer("Unknown char: a", Col(0), Col(0)))));
  }

  // "null true false"

  /** Keywords are not scanned either: "null true false" raises "Unknown char: n" at column 0. */
  lemma RejectsKeywords()
    ensures FeedText(Fresh(), "null true false\0").failure == Some(Raised(Tokenizer("Unknown char: n", Col(0), Col(0))))
  {
    assert UnknownCharMsg('n', "") == "Unknown char: n";
    assert Feed(Fresh(), 'n') == Outcome(Scan(AtInit, [], Col(0), Invalid(), Col(0), FreshNumber(), FreshString()), Some(Raised(Tokenizer("Unknown char: n", Col(0), Col(0)))));
  }
}
