/** The Scanner class of scanner.h and scanner.cpp: a character-driven state
    machine that appends tokens to a FIFO buffer. Each method updates the
    fields in place as the C++ member function does, and is proved to leave
    them as the function of the same name in ScanModel says. An exception
    is returned as a failure instead of thrown. */
module Scanning {
  import opened Wrappers
  import opened Positions
  import opened Tokens
  import opened Errors
  import opened ScanModel

  class Scanner {
    var state: ScannerState
    var buffer: seq<Token>
    var startPos: SourcePos
    var prevPos: SourcePos
    var curPos: SourcePos
    var num: NumberState
    var str: StringState

    /** The fields as a value. */
    function Snapshot(): Scan
      reads this
    {
      Scan(state, buffer, startPos, prevPos, curPos, num, str)
    }

    predicate Valid()
      reads this
    {
      WellFormed(Snapshot())
    }

    /** The implicit default constructor: INIT, an empty buffer, invalid
        positions and default sub-states. */
    constructor()
      ensures Valid() && Snapshot() == Fresh()
    {
      state := AtInit;
      buffer := [];
      startPos := Invalid();
      prevPos := Invalid();
      curPos := Invalid();
      num := FreshNumber();
      str := FreshString();
    }

    /** Scanner::feed. */
    method Feed(ch: char) returns (failure: Option<Failure>)
      requires Valid()
      modifies this
      ensures Snapshot() == ScanModel.Feed(old(Snapshot()), ch).scan
      ensures failure == ScanModel.Feed(old(Snapshot()), ch).failure
      ensures Valid()
    {
      prevPos := curPos;
      curPos := AddChar(curPos, ch);
      failure := Refeed(ch);
    }

    /** Scanner::pop: the oldest buffered token, removed from the buffer;
        nothing on an empty buffer. */
    method Pop() returns (tok: Option<Token>)
      modifies this
      ensures old(buffer) == [] ==> tok == None && buffer == []
      ensures old(buffer) != [] ==> tok == Some(old(buffer)[0]) && buffer == old(buffer)[1..]
      ensures Snapshot() == old(Snapshot()).(buffer := buffer)
    {
      if buffer == [] {
        return None;
      }
      tok := Some(buffer[0]);
      buffer := buffer[1..];
    }

    /** Scanner::refeed. */
    method Refeed(ch: char) returns (failure: Option<Failure>)
      requires Valid()
      modifies this
      decreases Rank(Snapshot()), 2
      ensures Snapshot() == ScanModel.Refeed(old(Snapshot()), ch).scan
      ensures failure == ScanModel.Refeed(old(Snapshot()), ch).failure
      ensures Valid()
    {
      match state
      case AtInit => failure := StInit(ch);
      case InNumber => failure := StNumber(ch);
      case InString => failure := StString(ch);
      case Ended => failure := Exception("received char in ENDED state");
    }

    /** Scanner::exception. */
    method Exception(msg: string) returns (failure: Option<Failure>)
      ensures failure == ScanModel.Exception(Snapshot(), msg).failure
    {
      failure := Some(Raised(Tokenizer(msg, startPos, curPos)));
    }

    /** Scanner::unknown_char. */
    method UnknownChar(ch: char, additional: string) returns (failure: Option<Failure>)
      ensures failure == ScanModel.UnknownChar(Snapshot(), ch, additional).failure
    {
      var msg := "Unknown char: " + [ch];
      if additional != [] {
        msg := msg + (", " + additional);
      }
      failure := Exception(msg);
    }

    /** Scanner::st_init. */
    method StInit(ch: char) returns (failure: Option<Failure>)
      requires Valid() && state == AtInit
      modifies this
      decreases Rank(Snapshot()), 1
      ensures Snapshot() == ScanModel.StInit(old(Snapshot()), ch).scan
      ensures failure == ScanModel.StInit(old(Snapshot()), ch).failure
      ensures Valid()
    {
      startPos := curPos;
      if ch == '\0' {
        buffer := buffer + [Token(Plain(END), curPos, curPos)];
        state := Ended;
        failure := None;
      } else if IsSpace(ch) {
        failure := None;
      } else if IsStructural(ch) {
        buffer := buffer + [Token(Plain(StructuralType(ch)), curPos, curPos)];
        failure := None;
      } else if ch == '"' {
        state := InString;
        failure := Refeed(ch);
      } else if IsDigit(ch) || ch == '.' || ch == '+' || ch == '-' {
        state := InNumber;
        failure := Refeed(ch);
      } else {
        failure := UnknownChar(ch, "");
      }
    }

    /** Scanner::st_number. */
    method StNumber(ch: char) returns (failure: Option<Failure>)
      requires Valid() && state == InNumber
      modifies this
      decreases Rank(Snapshot()), 1
      ensures Snapshot() == ScanModel.StNumber(old(Snapshot()), ch).scan
      ensures failure == ScanModel.StNumber(old(Snapshot()), ch).failure
      ensures Valid()
    {
      failure := None;
      match num.sub
      case NumInit =>
        num := num.(sub := Signed);
        if ch == '-' {
          num := num.(numSign := -1);
        } else if ch == '+' {
        } else {
          failure := StNumber(ch);
        }
      case Signed =>
        if IsDigit(ch) {
          num := num.(intDigits := num.intDigits + [ch], sub := IntDigit);
        } else if ch == '.' {
          num := num.(hasDot := true, sub := LeadingDot);
        } else {
          failure := UnknownChar(ch, "expect dot or digit");
        }
      case IntDigit =>
        if IsDigit(ch) {
          num := num.(intDigits := num.intDigits + [ch]);
        } else if ch == '.' {
          num := num.(hasDot := true, sub := Dotted);
        } else if ch == 'e' || ch == 'E' {
          num := num.(sub := Exp);
        } else {
          failure := FinishNum(ch);
        }
      case LeadingDot =>
        if IsDigit(ch) {
          num := num.(dotDigits := num.dotDigits + [ch], sub := Dotted);
        } else {
          failure := UnknownChar(ch, "expect digit");
        }
      case Dotted =>
        if IsDigit(ch) {
          num := num.(dotDigits := num.dotDigits + [ch]);
        } else if ch == 'e' || ch == 'E' {
          num := num.(sub := Exp);
        } else {
          failure := FinishNum(ch);
        }
      case Exp =>
        if ch == '+' || ch == '-' {
          num := num.(sub := ExpSigned);
          if ch == '-' {
            num := num.(expSign := -1);
          }
        } else if IsDigit(ch) {
          num := num.(expDigits := num.expDigits + [ch], sub := ExpDigit);
        } else {
          failure := UnknownChar(ch, "expect digit or sign");
        }
      case ExpSigned =>
        if IsDigit(ch) {
          num := num.(expDigits := num.expDigits + [ch], sub := ExpDigit);
        } else {
          failure := UnknownChar(ch, "expect digit");
        }
      case ExpDigit =>
        if IsDigit(ch) {
          num := num.(expDigits := num.expDigits + [ch]);
        } else {
          failure := FinishNum(ch);
        }
    }

    /** Scanner::finish_num. */
    method FinishNum(ch: char) returns (failure: Option<Failure>)
      requires Valid() && state == InNumber && num.sub in {IntDigit, Dotted, ExpDigit}
      modifies this
      decreases Rank(Snapshot()), 0
      ensures Snapshot() == ScanModel.FinishNum(old(Snapshot()), ch).scan
      ensures failure == ScanModel.FinishNum(old(Snapshot()), ch).failure
      ensures Valid()
    {
      var tok := Token(ToToken(num), startPos, prevPos);
      buffer := buffer + [tok];
      num := FreshNumber();
      state := AtInit;
      failure := Refeed(ch);
    }

    /** Scanner::st_string. */
    method StString(ch: char) returns (failure: Option<Failure>)
      requires Valid() && state == InString
      modifies this
      decreases Rank(Snapshot()), 1
      ensures Snapshot() == ScanModel.StString(old(Snapshot()), ch).scan
      ensures failure == ScanModel.StString(old(Snapshot()), ch).failure
      ensures Valid()
    {
      failure := None;
      match str.sub
      case StrInit =>
        if ch != '"' {
          failure := UnknownChar(ch, "expect double quote");
        } else {
          str := str.(sub := Normal);
        }
      case Normal =>
        if ch == '"' {
          var tok := Token(StringToken(str.value), startPos, curPos);
          buffer := buffer + [tok];
          str := FreshString();
          state := AtInit;
        } else if ch == '\\' {
          str := str.(sub := Escape);
        } else {
          str := str.(value := str.value + [ch]);
        }
      case Escape =>
        failure := Some(Unimplemented);
    }
  }
}
