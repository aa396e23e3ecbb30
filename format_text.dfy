/** Read-back of the leaf texts the formatter writes: integers in decimal
    and quoted strings. The string reader takes escapes as section 7 of
    RFC 8259 defines them and unescaped characters as RFC 3629 UTF-8,
    decoding the bytes with `Unicode.Decode` and accepting only the
    shortest form of a scalar value. The lemmas prove that reading the
    formatter's text gives back the value. */
module FormatText {
  import opened Wrappers
  import opened Unicode
  import opened Utf8RoundTrip
  import opened Formatting

  // ---------------------------------------------------------------------
  // Integers

  /** A non-empty run of decimal digits. */
  predicate IsDigits(t: string) {
    t != [] && forall i :: 0 <= i < |t| ==> '0' <= t[i] <= '9'
  }

  /** The value of a run of decimal digits, most significant first. */
  function DigitsValue(t: string): nat
    requires forall i :: 0 <= i < |t| ==> '0' <= t[i] <= '9'
  {
    if t == [] then 0 else DigitsValue(t[..|t| - 1]) * 10 + (t[|t| - 1] as int - '0' as int)
  }

  /** The value of an integer literal: an optional minus sign, then
      digits. */
  function IntValue(t: string): Option<int> {
    if t != [] && t[0] == '-' then
      if IsDigits(t[1..]) then Some(-(DigitsValue(t[1..]) as int)) else None
    else if IsDigits(t) then Some(DigitsValue(t) as int)
    else None
  }

  /** The digits of `n` read back as `n`, with no leading zero. */
  lemma {:induction false} DigitsReadBack(n: nat)
    ensures IsDigits(Digits(n)) && DigitsValue(Digits(n)) == n
    ensures Digits(n)[0] != '0' || n == 0
    decreases n
  {
    if n >= 10 {
      DigitsReadBack(n / 10);
      var t := Digits(n / 10) + [DigitByte(n % 10)];
      assert t[..|t| - 1] == Digits(n / 10);
    }
  }

  /** The text do_int writes reads back as the integer. */
  lemma IntTextReadBack(i: int)
    ensures IntValue(IntText(i)) == Some(i)
  {
    if i < 0 {
      DigitsReadBack(-i);
      assert IntText(i)[1..] == Digits(-i);
    } else {
      DigitsReadBack(i);
    }
  }

  // ---------------------------------------------------------------------
  // Hexadecimal escapes

  /** The value of a hexadecimal digit of either case. */
  function HexValue(c: char): (r: Option<nat>)
    ensures r.Some? ==> r.value < 16
  {
    if '0' <= c <= '9' then Some(c as int - '0' as int)
    else if 'a' <= c <= 'f' then Some(c as int - 'a' as int + 10)
    else if 'A' <= c <= 'F' then Some(c as int - 'A' as int + 10)
    else None
  }

  /** The value of four hexadecimal digits, most significant first. */
  function Hex4Value(t: string): (r: Option<nat>)
    requires |t| == 4
    ensures r.Some? ==> r.value < 0x1_0000
  {
    match (HexValue(t[0]), HexValue(t[1]), HexValue(t[2]), HexValue(t[3]))
    case (Some(a), Some(b), Some(c), Some(d)) =>
      assert a * 16 + b < 0x100;
      assert (a * 16 + b) * 16 + c < 0x1000;
      Some(((a * 16 + b) * 16 + c) * 16 + d)
    case _ => None
  }

  lemma HexDigitReadBack(v: nat)
    requires v < 16
    ensures HexValue(HexDigit(v)) == Some(v)
  {
  }

  /** `%04x` reads back as its value. */
  lemma Hex4ReadBack(v: nat)
    requires v < 0x1_0000
    ensures Hex4Value(Hex4(v)) == Some(v)
  {
    var a, b, c, d := v / 0x1000, v / 0x100 % 0x10, v / 0x10 % 0x10, v % 0x10;
    HexDigitReadBack(a);
    HexDigitReadBack(b);
    HexDigitReadBack(c);
    HexDigitReadBack(d);
    assert v / 0x100 == a * 16 + b;
    assert v / 0x10 == (a * 16 + b) * 16 + c;
  }

  // ---------------------------------------------------------------------
  // Strings

  /** A string whose characters each hold one byte. */
  predicate IsByteString(t: string) {
    forall i :: 0 <= i < |t| ==> t[i] as int < 0x100
  }

  /** The bytes a byte string holds. */
  function Bytes(t: string): (r: seq<bv8>)
    requires IsByteString(t)
    ensures |r| == |t|
    decreases |t|
  {
    if t == [] then [] else [t[0] as int as bv8] + Bytes(t[1..])
  }

  /** The character a two-character escape other than `\u` stands for. */
  function Unescape(c: char): Option<char> {
    if c == '"' then Some('"')
    else if c == '\\' then Some('\\')
    else if c == '/' then Some('/')
    else if c == 'b' then Some(0x08 as char)
    else if c == 'f' then Some(0x0C as char)
    else if c == 'n' then Some('\n')
    else if c == 'r' then Some('\r')
    else if c == 't' then Some('\t')
    else None
  }

  /** The Unicode scalar value `cp`, if it is one. */
  function CharOf(cp: bv32): Option<char> {
    var v := cp as int;
    if v < 0xD800 || 0xE000 <= v < 0x11_0000 then Some(v as char) else None
  }

  function Prepend(c: char, r: Option<string>): Option<string> {
    match r
    case Some(u) => Some([c] + u)
    case None => None
  }

  /** An escape at the start of `t`: the character it stands for and its
      length. Surrogates are refused (surrogate pairs are not read). */
  function ReadEscape(t: string): (r: Option<(char, nat)>)
    requires t != [] && t[0] == '\\'
    ensures r.Some? ==> 1 <= r.value.1 <= |t|
  {
    if |t| < 2 then None
    else if t[1] == 'u' then
      if |t| < 6 then None
      else match Hex4Value(t[2..6])
        case None => None
        case Some(v) => if 0xD800 <= v < 0xE000 then None else Some((v as char, 6))
    else match Unescape(t[1])
      case None => None
      case Some(c) => Some((c, 2))
  }

  /** An unescaped character at the start of `t`: one UTF-8 sequence as
      RFC 3629 defines it. A quotation mark, a control character, a
      malformed sequence, a sequence longer than the shortest encoding of
      its value (an overlong form), a surrogate and a value from 0x110000
      up are refused. The bytes are decoded with `Decode`. */
  function ReadUnescaped(t: string): (r: Option<(char, nat)>)
    requires IsByteString(t) && t != []
    ensures r.Some? ==> 1 <= r.value.1 <= |t| && r.value.1 <= 4
    ensures r.Some? ==> r.value.1 == EncodedLength(r.value.0 as int as bv32)
  {
    if t[0] == '"' || t[0] as int < 0x20 then None
    else
      var b := Bytes(t);
      match ReadCharLen(b[0])
      case Failure(_) => None
      case Success(len) =>
        if |t| < len then None
        else match Decode(b)
          case Failure(_) => None
          case Success(cp) =>
            if cp >= 0x8000_0000 || EncodedLength(cp) != len then None
            else match CharOf(cp)
              case None => None
              case Some(c) => CharOfLength(cp, c); Some((c, len))
  }

  /** A value CharOf accepts is the code point of its character and takes
      at most four bytes. */
  lemma CharOfLength(cp: bv32, c: char)
    requires cp < 0x8000_0000 && CharOf(cp) == Some(c)
    ensures c as int as bv32 == cp && EncodedLength(cp) <= 4
  {
    CodePoint(c);
  }

  /** The characters of a string body written as bytes, as section 7 of
      RFC 8259 reads them: escapes stand for the character they name, and
      every other character is one UTF-8 sequence. */
  function ReadChars(t: string): (r: Option<string>)
    requires IsByteString(t)
    decreases |t|
  {
    if t == [] then Some([])
    else
      var one := if t[0] == '\\' then ReadEscape(t) else ReadUnescaped(t);
      match one
      case None => None
      case Some((c, len)) => Prepend(c, ReadChars(t[len..]))
  }

  /** A quoted string: a quotation mark, the body, a quotation mark. */
  function ReadString(t: string): (r: Option<string>)
    requires IsByteString(t)
  {
    if |t| >= 2 && t[0] == '"' && t[|t| - 1] == '"' then ReadChars(t[1..|t| - 1]) else None
  }

  /** The overlong two-byte form of NUL, which `Decode` alone accepts, is
      refused inside a string. */
  lemma RejectsOverlongNul()
    ensures ReadString(['"', 0xC0 as char, 0x80 as char, '"']) == None
  {
    var t: string := ['"', 0xC0 as char, 0x80 as char, '"'];
    var body: string := [0xC0 as char, 0x80 as char];
    assert t[1..|t| - 1] == body;
    OverlongNulRefused(body);
    assert ReadChars(body) == None;
  }

  /** The unescaped reader on the bytes C0 80. */
  lemma OverlongNulRefused(body: string)
    requires body == [0xC0 as char, 0x80 as char]
    ensures IsByteString(body) && ReadUnescaped(body) == None
  {
    OverlongNulBytes(body);
    OverlongNulDecodes();
  }

  lemma OverlongNulBytes(body: string)
    requires body == [0xC0 as char, 0x80 as char]
    ensures IsByteString(body) && Bytes(body) == [0xC0, 0x80]
  {
    assert body[1..] == [0x80 as char] && body[1..][1..] == [];
    assert Bytes(body[1..]) == [(0x80 as char) as int as bv8] + Bytes([]);
  }

  /** `Decode` accepts the overlong form C0 80 as NUL. */
  lemma OverlongNulDecodes()
    ensures ReadCharLen(0xC0) == Success(2) && Decode([0xC0, 0x80]) == Success(0)
    ensures EncodedLength(0) == 1
  {
  }

  lemma {:induction false} BytesAppend(a: string, b: string)
    requires IsByteString(a) && IsByteString(b)
    ensures IsByteString(a + b) && Bytes(a + b) == Bytes(a) + Bytes(b)
    decreases |a|
  {
    assert IsByteString(a + b) by {
      forall i | 0 <= i < |a + b|
        ensures (a + b)[i] as int < 0x100
      {
        if i >= |a| {
          assert (a + b)[i] == b[i - |a|];
        }
      }
    }
    if a != [] {
      assert (a + b)[1..] == a[1..] + b;
      BytesAppend(a[1..], b);
      assert Bytes(a + b) == [a[0] as int as bv8] + Bytes(a[1..] + b);
    } else {
      assert a + b == b;
    }
  }

  /** The bytes of a character's UTF-8 text are its encoding. */
  lemma BytesOfUtf8(ch: char, e: seq<bv8>)
    requires e == Encode(ch as int as bv32)
    ensures IsByteString(Utf8(ch)) && Bytes(Utf8(ch)) == e
  {
    BytesOfChars(e, Utf8(ch));
  }

  lemma {:induction false} BytesOfChars(e: seq<bv8>, t: string)
    requires |t| == |e| && forall i :: 0 <= i < |e| ==> t[i] == e[i] as int as char
    ensures IsByteString(t) && Bytes(t) == e
    decreases |e|
  {
    if e != [] {
      BytesOfChars(e[1..], t[1..]);
      assert Bytes(t) == [t[0] as int as bv8] + Bytes(t[1..]);
    }
  }

  /** Every byte of a multi-byte encoding has its top bit set; the leading
      byte has its top two bits set. */
  lemma EncodedByteHigh(ch: bv32, len: nat, j: nat)
    requires 2 <= len <= 6 && j < len
    ensures EncodedByte(ch, len, j) >= 0x80
    ensures j == 0 ==> EncodedByte(ch, len, j) >= 0xC0
  {
    if j == 0 {
      var x := Low8(HighBits(ch, len - 1));
      assert Prefix(len) >= 0xC0;
      OrAtLeast(x, Prefix(len));
    } else {
      OrAtLeast(Low8(Remain(ch, len, j) >> 26), 0x80);
    }
  }

  lemma OrAtLeast(x: bv8, p: bv8)
    ensures x | p >= p
  {
  }

  /** A character below 0x80 is encoded as itself. */
  lemma EncodeAscii(ch: char)
    requires ch as int < 0x80
    ensures Encode(ch as int as bv32) == [ch as int as bv8]
  {
    var e := Encode(ch as int as bv32);
    assert e[0] == Low8(ch as int as bv32);
  }

  /** '/' is written unescaped, as its own UTF-8 byte. */
  lemma SlashUnescaped()
    ensures QuoteChar('/') == Utf8('/') == "/"
  {
    EncodeAscii('/');
  }

  /** The six characters quote_char writes as a backslash and one letter. */
  predicate HasShortEscape(ch: char) {
    ch == '"' || ch == '\\' || ch as int == 0x08 || ch as int == 0x0C || ch == '\n' || ch == '\t'
  }

  lemma ReadShortEscape(ch: char, t: string)
    requires HasShortEscape(ch) && IsByteString(t)
    ensures IsByteString(QuoteChar(ch) + t) && ReadChars(QuoteChar(ch) + t) == Prepend(ch, ReadChars(t))
  {
    var u := QuoteChar(ch) + t;
    assert |QuoteChar(ch)| == 2 && u[0] == '\\' && u[2..] == t;
    assert Unescape(u[1]) == Some(ch);
    BytesAppend(QuoteChar(ch), t);
  }

  lemma ReadControl(ch: char, t: string)
    requires ch as int < 0x20 && !HasShortEscape(ch) && IsByteString(t)
    ensures IsByteString(QuoteChar(ch) + t) && ReadChars(QuoteChar(ch) + t) == Prepend(ch, ReadChars(t))
  {
    var h := Hex4(ch as int);
    var u := QuoteChar(ch) + t;
    assert QuoteChar(ch) == "\\u" + h;
    assert u[0] == '\\' && u[1] == 'u' && u[2..6] == h && u[6..] == t;
    Hex4ReadBack(ch as int);
    assert IsByteString(QuoteChar(ch)) by {
      forall i | 0 <= i < 4
        ensures h[i] as int < 0x100
      {
      }
    }
    BytesAppend(QuoteChar(ch), t);
  }

  /** The UTF-8 encoding of a code point from 0x20 up, other than a
      backslash or a quotation mark, starts with a byte that is neither
      these nor a control character, and that byte announces the length of
      the whole encoding. */
  lemma Utf8Leading(cp: bv32, e: seq<bv8>)
    requires 0x20 <= cp < 0x8000_0000 && cp != 0x22 && cp != 0x5C && e == Encode(cp)
    ensures e != [] && ReadCharLen(e[0]) == Success(|e|)
    ensures e[0] >= 0x20 && e[0] != 0x22 && e[0] != 0x5C
  {
    DecodeEncode(cp, []);
    assert (e + [])[0] == e[0];
    if cp < 0x80 {
      assert e[0] == Low8(cp);
    } else {
      EncodedByteHigh(cp, EncodedLength(cp), 0);
    }
  }

  /** A code unit above 0x1F that is neither '"' nor '\\' as a bit-vector
      is neither as a character. */
  lemma ByteAsChar(b: bv8)
    requires b >= 0x20 && b != 0x22 && b != 0x5C
    ensures var c := b as int as char; c as int >= 0x20 && c != '"' && c != '\\'
  {
  }

  /** A character's code point as a 32-bit value has the same value. */
  lemma CodePoint(ch: char)
    ensures (ch as int as bv32) as int == ch as int
  {
    assert ch as int % 0x1_0000_0000 == ch as int;
  }

  /** The comparisons Utf8Leading needs, on the value of a 32-bit word. */
  lemma CodePointCompare(cp: bv32)
    ensures (cp >= 0x20 <==> cp as int >= 0x20) && (cp == 0x22 <==> cp as int == 0x22)
    ensures (cp == 0x5C <==> cp as int == 0x5C) && (cp < 0x8000_0000 <==> cp as int < 0x8000_0000)
    ensures cp < 0x80 <==> cp as int < 0x80
  {
  }

  /** ReadChars on a text that starts with an unescaped UTF-8 sequence of
      `len` bytes encoding `cp`. */
  lemma ReadSequence(u: string, len: nat, cp: bv32, c: char)
    requires IsByteString(u) && u != [] && u[0] != '\\' && u[0] != '"' && u[0] as int >= 0x20
    requires ReadCharLen(Bytes(u)[0]) == Success(len) && len <= |u| && Decode(Bytes(u)) == Success(cp)
    requires cp < 0x8000_0000 && EncodedLength(cp) == len && CharOf(cp) == Some(c)
    ensures ReadChars(u) == Prepend(c, ReadChars(u[len..]))
  {
  }

  /** The facts about the bytes of `Utf8(ch) + t` that ReadSequence needs. */
  lemma Utf8Bytes(ch: char, t: string)
    requires ch as int >= 0x20 && ch != '"' && ch != '\\' && IsByteString(t)
    ensures var u := Utf8(ch) + t;
      IsByteString(u) && u != [] && u[0] != '\\' && u[0] != '"' && u[0] as int >= 0x20 &&
      ReadCharLen(Bytes(u)[0]) == Success(|Utf8(ch)|) && |Utf8(ch)| <= |u| &&
      Decode(Bytes(u)) == Success(ch as int as bv32) && u[|Utf8(ch)|..] == t &&
      |Utf8(ch)| == EncodedLength(ch as int as bv32)
  {
    var cp := ch as int as bv32;
    CodePoint(ch);
    CodePointCompare(cp);
    var e := Encode(cp);
    BytesOfUtf8(ch, e);
    BytesAppend(Utf8(ch), t);
    Utf8Leading(cp, e);
    ByteAsChar(e[0]);
    DecodeEncode(cp, Bytes(t));
  }

  lemma ReadUtf8(ch: char, t: string)
    requires ch as int >= 0x20 && ch != '"' && ch != '\\' && IsByteString(t)
    ensures IsByteString(Utf8(ch) + t) && ReadChars(Utf8(ch) + t) == Prepend(ch, ReadChars(t))
  {
    Utf8Bytes(ch, t);
    CodePoint(ch);
    ReadSequence(Utf8(ch) + t, |Utf8(ch)|, ch as int as bv32, ch);
  }

  /** Reading back what quote_char wrote for `ch`, whatever follows, gives
      `ch` and leaves the rest to be read. */
  lemma QuoteCharReadBack(ch: char, t: string)
    requires IsByteString(t)
    ensures IsByteString(QuoteChar(ch) + t) && ReadChars(QuoteChar(ch) + t) == Prepend(ch, ReadChars(t))
  {
    if HasShortEscape(ch) {
      ReadShortEscape(ch, t);
    } else if ch as int < 0x20 {
      ReadControl(ch, t);
    } else {
      if ch == '/' {
        SlashUnescaped();
      }
      assert QuoteChar(ch) == Utf8(ch);
      ReadUtf8(ch, t);
    }
  }

  /** Every byte of the UTF-8 text of a character from 0x80 up has its top
      bit set. */
  lemma Utf8High(ch: char)
    requires ch as int >= 0x80
    ensures forall i :: 0 <= i < |Utf8(ch)| ==> Utf8(ch)[i] as int >= 0x80
  {
    var cp := ch as int as bv32;
    CodePoint(ch);
    CodePointCompare(cp);
    var e := Encode(cp);
    forall i | 0 <= i < |e|
      ensures e[i] as int >= 0x80
    {
      EncodedByteHigh(cp, EncodedLength(cp), i);
      ByteHigh(e[i]);
    }
  }

  lemma ByteHigh(b: bv8)
    requires b >= 0x80
    ensures b as int >= 0x80
  {
  }

  /** A printable ASCII character other than '"' and '\\' is written as
      itself. */
  lemma QuoteAscii(ch: char)
    requires 0x20 <= ch as int < 0x80 && ch != '"' && ch != '\\'
    ensures QuoteChar(ch) == [ch]
  {
    EncodeAscii(ch);
    if ch == '/' {
      SlashUnescaped();
    }
    assert QuoteChar(ch) == Utf8(ch);
  }

  /** quote_char never writes a raw control character, and writes a
      quotation mark only as the escape of one. */
  lemma QuoteCharSafe(ch: char)
    ensures forall i :: 0 <= i < |QuoteChar(ch)| ==> QuoteChar(ch)[i] as int >= 0x20
    ensures forall i :: 0 <= i < |QuoteChar(ch)| && QuoteChar(ch)[i] == '"' ==> ch == '"' && i == 1 && QuoteChar(ch)[0] == '\\'
  {
    if HasShortEscape(ch) {
    } else if ch as int < 0x20 {
      var h := Hex4(ch as int);
      assert QuoteChar(ch) == "\\u" + h;
    } else if ch as int < 0x80 {
      QuoteAscii(ch);
    } else {
      Utf8High(ch);
    }
  }

  /** One more character of `s` quoted. */
  lemma QuoteCharsTake(s: string, i: nat)
    requires i < |s|
    ensures QuoteChars(s[..i + 1]) == QuoteChars(s[..i]) + QuoteChar(s[i])
  {
    assert s[..i + 1][..i] == s[..i];
  }

  /** The quoted characters of `c` and the first `k` of `s`: those of `c`,
      then those of the `k` characters. */
  lemma {:induction false} QuoteCharsConsPrefix(c: char, s: string, k: nat)
    requires k <= |s|
    ensures QuoteChars(([c] + s)[..k + 1]) == QuoteChar(c) + QuoteChars(s[..k])
    decreases k
  {
    var w := [c] + s;
    if k == 0 {
      QuoteCharsTake(w, 0);
      assert w[..0] == [] && s[..0] == [];
    } else {
      QuoteCharsConsPrefix(c, s, k - 1);
      QuoteCharsTake(w, k);
      QuoteCharsTake(s, k - 1);
      assert w[k] == s[k - 1];
      Regroup(QuoteChar(c), QuoteChars(s[..k - 1]), QuoteChar(s[k - 1]));
    }
  }

  lemma Regroup(x: string, y: string, z: string)
    ensures (x + y) + z == x + (y + z)
  {
  }

  /** The quoted characters of `[c] + s`: those of `c`, then those of `s`. */
  lemma QuoteCharsCons(c: char, s: string)
    ensures QuoteChars([c] + s) == QuoteChar(c) + QuoteChars(s)
  {
    QuoteCharsConsPrefix(c, s, |s|);
    assert ([c] + s)[..|s| + 1] == [c] + s;
    assert s[..|s|] == s;
  }

  /** Printable ASCII other than the quotation mark and the backslash is
      written as it is. */
  lemma {:induction false} QuotePlain(s: string)
    requires forall i :: 0 <= i < |s| ==> 0x20 <= s[i] as int < 0x80 && s[i] != '"' && s[i] != '\\'
    ensures QuoteChars(s) == s
    decreases |s|
  {
    if s != [] {
      var s', c := s[..|s| - 1], s[|s| - 1];
      QuotePlain(s');
      QuoteAscii(c);
      LastSplit(s);
    }
  }

  /** A non-empty string is its prefix followed by its last character. */
  lemma LastSplit(s: string)
    requires s != []
    ensures s == s[..|s| - 1] + [s[|s| - 1]]
  {
  }

  /** The body do_string writes between the quotation marks reads back as
      the string. */
  lemma {:induction false} QuoteCharsReadBack(s: string)
    ensures IsByteString(QuoteChars(s)) && ReadChars(QuoteChars(s)) == Some(s)
    decreases |s|
  {
    if s != [] {
      QuoteCharsReadBack(s[1..]);
      QuoteCharsCons(s[0], s[1..]);
      QuoteCharReadBack(s[0], QuoteChars(s[1..]));
      assert [s[0]] + s[1..] == s;
    }
  }

  /** A string leaf's text after its indentation reads back as the
      string. */
  lemma QuoteReadBack(s: string)
    ensures IsByteString(Quote(s)) && ReadString(Quote(s)) == Some(s)
  {
    QuoteCharsReadBack(s);
    var q := Quote(s);
    BytesAppend("\"", QuoteChars(s));
    BytesAppend("\"" + QuoteChars(s), "\"");
    assert q[1..|q| - 1] == QuoteChars(s);
  }
}
