# json_cxx in Dafny

A model of the core of json_cxx, a small incremental JSON reader and
pretty-printer written in C++, with proofs about it. The pipeline is:

- Characters go into a **scanner**, one call of `feed` per character, and
  come out as **tokens** with start and end positions.
- Tokens go into an incremental **parser**, one call of `feed` per token.
  It keeps two stacks, a stack of obligations (`ParserState`) and a stack of
  **nodes**, and builds a tree of nodes.
- The **formatter** writes a node tree back as indented text.
- A **UTF-8 codec** reads and writes one character at a time.

Each layer is modelled in the form the C++ code has:

- An object whose fields change becomes a Dafny `class` with `modifies`
  clauses: the Scanner, the Parser, the FormatOption and FormatContext
  objects, and the Formatter's recursive `do_*` methods.
- The same behaviour is also written as pure functions over a value of the
  fields (`ScanModel.Feed`, `ParseModel.Step`, `Formatting.Render`). Each
  method is proved equal to its function, and the properties are proved
  about the functions.
- The UTF-8 codec works on bytes and on a write buffer. Its loops are
  methods over an `array<bv8>`, and the 32-bit shifts and masks are written
  on `bv32`.

Modules, in dependency order:

- `Wrappers`: Option and Result.
- `Unicode` (src/unicode.cpp): the decoder and encoder, with their loops as
  methods. `Utf8RoundTrip` proves that decoding what the encoder wrote gives
  the character back. `UnicodeFacts` states when decoding fails and which
  byte it reports, and checks the unit-test vectors.
- `Positions` (src/sourcepos.*): SourcePos as a value, `add_char`, and the
  line/column it computes for a whole text.
- `Tokens` (src/scanner.h, token part): token types, token classes, the
  asymmetric token equality, and `clone`.
- `Errors` (src/exceptions.h): TokenizerError and UnexpectedToken.
- `ScanModel`, `Scanning`, `ScanFacts`, `ScanLiterals`, `ScanExamples`
  (src/scanner.cpp):
  - `ScanModel` is the scanner's state machine as functions.
  - `Scanning.Scanner` is the class, proved against those functions.
  - `ScanFacts` proves the invariant `feed` keeps: every error and every
    token has a well-ordered span. It also states what each state does
    with each kind of character.
  - `ScanLiterals` states what the scanner does with whole literals. Any
    number literal the automaton accepts gives one token, and that token
    carries the literal's decimal value, defined without the automaton.
    Malformed literals raise the automaton's errors. A string literal
    without escapes gives a string token of its characters. The accepted
    grammar is the code's: a leading `+` and a trailing dot (`1.`) are
    accepted. A second dot is not an error: it ends the number and starts
    a new one, so `1.2.3` reads as 1.2 and then .3.
  - `ScanExamples` traces the scanner's unit-test inputs character by
    character.
- `Nodes` (src/node.*): the node tree, its equality, `clone` and `repr`.
- `ParseModel`, `Parsing`, `ParseFacts`, `ParseExamples` (src/parser.*):
  - `ParseModel` describes the parser by a configuration: the containers
    still open and what the innermost one waits for. The configuration
    determines both C++ stacks (`StateStack`, `NodeStack`).
  - `Parsing.Parser` is the class. It keeps both stacks as fields and is
    proved against `ParseModel.Step` one obligation at a time.
  - `ParseFacts` proves, for every token sequence, exactly which tokens are
    rejected and with what expected types. It also proves that the tokens
    of any document, followed by END, make a new parser finish with exactly
    that document.
  - `ParseExamples` covers the parser's unit tests.
- `Formatting`, `FormatText`, `FormatLayout`, `FormatExamples`
  (src/formatter.*):
  - `Formatting` holds the option and context classes and the Formatter
    class. Its methods are proved to write exactly `Render` of the node.
  - `FormatText` proves that numbers and quoted strings read back. The
    string reader takes escapes as section 7 of RFC 8259 defines them. It
    reads unescaped characters as RFC 3629 UTF-8, with the bytes decoded by
    `Unicode.Decode` (the model of `u8_read_char`), and accepts only the
    shortest form of a scalar value. It therefore refuses the overlong and
    5- and 6-byte forms that `u8_read_char` accepts.
  - `FormatLayout` proves the line layout of lists, objects and pairs.
  - `FormatExamples` derives the formatter's unit-test outputs.

Where the code and its own tests or headers disagree, the model follows the
code:

- Scanner keywords (src/tests/test_scanner.cpp:78-87): the test expects
  `null true false` to scan as keyword tokens. The code never enters its ID
  state, so `n` is an unknown character (`ScanExamples.RejectsKeywords`).
- Scanner error span (src/tests/test_scanner.cpp:117): for `asdf ` the test
  expects an error spanning columns 0 to 3. The code raises at the first
  letter, with both ends at column 0 (`ScanExamples.RejectsLetters`).
- Scanner header and body (src/scanner.h:115-138): the header's
  NumberSubState has no LEADING_DOT, its NumberState has no `has_dot`, and
  its `ScannerState` has ID. src/scanner.cpp uses LEADING_DOT and `has_dot`
  and never enters ID. The model has the states the body uses.
- Formatter objects (src/tests/test_formatter.cpp:56-70): the test expects
  `{"a": 123}` on one line. `is_simple_node` says a pair is never simple, so
  every non-empty object is laid out in block form
  (`FormatExamples.FormatsObject`, `FormatLayout.ObjectInlineIffEmpty`).
- Formatter escapes (src/tests/test_formatter.cpp:33-37): these tests
  parse strings written with escapes (`\n`, `\u554a`, `\u0001`,
  `\u0000`). The scanner's escape state ends in `assert(!"Unimplemented")`;
  the model makes it a distinct `Unimplemented` outcome. The formatter side
  of these tests is modelled on the decoded strings
  (`FormatExamples.FormatsEscapes`).
- Parser node types (src/parser.h:19-112): parser.h declares its own node
  types, and its NodeType lists no NIL or BOOL. The model uses src/node.h,
  which the parser builds.

## Model

| member | source | states |
|---|---|---|
| Unicode.ReadCharLen | src/unicode.cpp:29-46 | Succeeds exactly for a byte below 0x80 or from 0xC0 to 0xFD. The length is the one the byte's prefix announces, from 1 to 6. Any other byte fails with BadLeadingChar naming that byte. |
| Unicode.Continue | src/unicode.cpp:58-63 | One turn of the decoding loop succeeds exactly when the byte is a continuation byte, 10xxxxxx. |
| Unicode.AccumulateNext | src/unicode.cpp:58-63 | After a successful prefix, one more turn of the loop is `Continue` on the next byte. |
| Unicode.AccumulateFailureSticks | src/unicode.cpp:58-61 | Once the loop has thrown, later bytes do not change the error. |
| Unicode.ReadCharWithLen | src/unicode.cpp:49-65 | The loop returns what `DecodeWithLen` defines: the leading byte's payload, then six bits per continuation byte, or the first bad following byte. |
| Unicode.ReadChar | src/unicode.cpp:68-71 | Returns `Decode(s)`: the length from the leading byte, then that many bytes decoded. |
| Unicode.EncodedLength | src/unicode.cpp:74-85 | The length is the least one from 1 to 6 whose range holds the character. The character is below that length's threshold and not below the previous one's. |
| Unicode.CharLen | src/unicode.cpp:74-85 | The loop that shifts `upper` left by 5 computes `EncodedLength(ch)`. |
| Unicode.EncodeWithLen | src/unicode.cpp:88-103 | Writes exactly `len` bytes. |
| Unicode.RemainStep | src/unicode.cpp:96-100 | Each turn of the write loop shifts the `remain` register left by six, wrapping at 32 bits. |
| Unicode.WriteCharWithLen | src/unicode.cpp:88-103 | Writes `EncodeWithLen(ch, len)` at `buf[pos..pos+len]`, returns `pos + len`, and leaves every other byte of the buffer unchanged. |
| Unicode.WriteChar | src/unicode.cpp:106-109 | Writes `Encode(ch)` in `EncodedLength(ch)` bytes at `pos` and returns the advanced position. Nothing else in the buffer changes. |
| UnicodeFacts.AccumulateSucceeds | src/unicode.cpp:58-61 | The loop gets past byte k-1 if and only if bytes 1..k-1 are all continuation bytes. |
| UnicodeFacts.AccumulateFailsAt | src/unicode.cpp:58-61 | The error thrown names the first byte that is not a continuation byte. |
| UnicodeFacts.DecodeSucceeds | src/unicode.cpp:29-71 | `u8_read_char` succeeds if and only if the leading byte announces a length and every following byte up to it is a continuation byte. |
| UnicodeFacts.DecodeBadLeading | src/unicode.cpp:29-46 | A byte from 0x80 to 0xBF, or 0xFE or above, is reported as a bad leading char. |
| UnicodeFacts.DecodeBadFollowing | src/unicode.cpp:49-65 | The first non-continuation byte within the announced length is reported as a bad following char. |
| UnicodeFacts.DecodeExamples | src/tests/test_unicode.cpp:17-30 | The read vectors of the unit test: 0x7F, ±, 啊, U+20000, U+10FFFF and NUL decode to their code points. 0x80 is a bad leading char. E5 95 E5 has a bad following char. |
| UnicodeFacts.EncodeExamples | src/tests/test_unicode.cpp:44-49 | The write vectors of the unit test: NUL, ±, 啊 and U+10FFFF encode to the bytes they were read from. |
| Utf8RoundTrip.LeadingBits | src/unicode.cpp:88-94 | The leading byte written announces the length `u8_char_len` chose, and carries the character's top bits. |
| Utf8RoundTrip.ContinuationBits | src/unicode.cpp:96-100 | Continuation byte k carries the six bits of the character that belong at that place, most significant first. |
| Utf8RoundTrip.ContinueEncoded | src/unicode.cpp:58-63 | The decoder's step on continuation byte k of an encoding appends exactly the next six bits. |
| Utf8RoundTrip.AccumulateEncoded | src/unicode.cpp:58-63 | After k bytes of an encoding, the decoder holds the character without the low bits of the bytes still to come. |
| Utf8RoundTrip.DecodeEncode | src/unicode.cpp:29-109 | For every character below 0x80000000 and whatever bytes follow, decoding what `u8_write_char` wrote gives the character back. The length read is the length written. |
| Positions.Pos | src/sourcepos.h:18-23 | The two-argument constructor: the given line and column, with the newline flag set. |
| Positions.Invalid | src/sourcepos.h:25-26 | The default position is not valid, and equals (-1, -1). |
| Positions.AddChar | src/sourcepos.cpp:21-30 | After a newline, or for the first character, the position moves to the next line at column 0. Otherwise it moves one column right. The flag records whether this character is a newline. |
| Positions.SameIsEquivalence | src/sourcepos.cpp:9-15 | `==` compares line and column only and is an equivalence. `!=` is its negation. |
| Positions.AddCharAdvances | src/sourcepos.cpp:21-30 | Counting a character moves strictly forward in reading order, and keeps a valid position valid. |
| Positions.FirstCharAtOrigin | src/sourcepos.cpp:21-30 | The first character counted from the default position is at (0, 0). |
| Positions.PositionOfChar | src/sourcepos.cpp:21-30 | A character counted after text `s` has as its line the number of newlines in `s`, and as its column the number of characters since the last newline. |
| Tokens.StructuralType | src/scanner.cpp:140-141 | The cast of a structural character gives the token type whose enumerator value is that character. |
| Tokens.TypeCharInjective | src/scanner.h:27-41 | Distinct token types have distinct character values. |
| Tokens.TypeOf | src/scanner.h:99-103 | Bool, int, float and string tokens have the types BOOL, INT, FLOAT and STRING. |
| Tokens.Clone | src/scanner.h:80-85 | A clone has the same class, value, start and end. |
| Tokens.TokenEqProperties | src/scanner.cpp:51-77 | Token equality ignores positions and is reflexive for every token whose float value is a real number (no NaN, see "## Left out"). Two extended tokens are equal if and only if they have the same class and value. Equal tokens have the same type. `!=` is the negation. |
| Tokens.TokenEqAsymmetric | src/scanner.cpp:51-69 | Equality dispatches on the left operand: a plain INT token equals an int token, but not the other way round. |
| Tokens.CloneEqual | src/scanner.h:80-94 | A clone compares equal to its original in both directions, with the same span, for every token whose float value is a real number (no NaN, see "## Left out"). |
| Errors.Start | src/exceptions.h:43-48 | A ParserError, and so an UnexpectedToken, has an invalid start. |
| Errors.End | src/exceptions.h:43-48 | A ParserError, and so an UnexpectedToken, has an invalid end. |
| Errors.Tokenizer | src/exceptions.h:33-40 | A TokenizerError keeps its message and the given start and end. |
| Errors.Unexpected | src/exceptions.h:51-56 | UnexpectedToken keeps the expected types in order, and a clone of the token with its type and span. |
| ScanModel.FreshNumber | src/scanner.h:128-136 | A default NumberState: INIT, no digits, both signs +1, no dot. |
| ScanModel.FreshString | src/scanner.h:150-153 | A default StringState: INIT with an empty value. |
| ScanModel.Fresh | src/scanner.h:181-189 | A new scanner: state INIT, an empty buffer, three invalid positions and default sub-states. |
| ScanModel.IntegerValueExact | src/scanner.cpp:293-310 | Without a dot and without a negative exponent, the integer computation of `to_token` gives the exact value of the literal. |
| ScanModel.ToToken | src/scanner.cpp:293-319 | An int token exactly when there is no dot, no negative exponent, and the exact value lies strictly between -2^63 and 2^63. Its value is then the literal's value. Otherwise a float token holding the literal's exact value, where C++ may hold NaN or an infinity (see "## Left out"). |
| ScanModel.Exception | src/scanner.cpp:267-269 | Raises a TokenizerError spanning from the start of the current token to the current character, and changes no field. |
| ScanModel.Feed | src/scanner.cpp:97-101 | Keeps the fields well formed: the number state has the shape its sub-state implies, and is the default one outside NUMBER. |
| ScanModel.Refeed | src/scanner.cpp:104-116 | Keeps the fields well formed, for each top-level state. |
| ScanModel.StInit | src/scanner.cpp:130-154 | Keeps the fields well formed when a token starts. |
| ScanModel.StNumber | src/scanner.cpp:157-232 | Keeps the number state's digit groups shaped by each sub-state. What whole literals do is stated by the `ScanLiterals` lemmas below. |
| ScanModel.FinishNum | src/scanner.cpp:281-290 | Keeps the fields well formed after emitting a number and re-feeding the character. |
| ScanModel.StString | src/scanner.cpp:235-264 | Keeps the fields well formed in the string automaton. |
| Scanning.Scanner.constructor | src/scanner.h:181-189 | A new scanner's fields are `Fresh()`. |
| Scanning.Scanner.Feed | src/scanner.cpp:97-101 | The new fields and the failure are those of `ScanModel.Feed` on the old fields. |
| Scanning.Scanner.Pop | src/scanner.cpp:119-127 | On an empty buffer, returns nothing. Otherwise returns the oldest token and removes it. No other field changes. |
| Scanning.Scanner.Refeed | src/scanner.cpp:104-116 | Equal to `ScanModel.Refeed` on the old fields. |
| Scanning.Scanner.Exception | src/scanner.cpp:267-269 | Returns the TokenizerError of `ScanModel.Exception`. |
| Scanning.Scanner.UnknownChar | src/scanner.cpp:272-278 | Returns the "Unknown char" error of `ScanModel.UnknownChar`. |
| Scanning.Scanner.StInit | src/scanner.cpp:130-154 | Equal to `ScanModel.StInit` on the old fields. |
| Scanning.Scanner.StNumber | src/scanner.cpp:157-232 | Equal to `ScanModel.StNumber` on the old fields, so the method inherits what `ScanLiterals.ReadLiteral`, `ScanLiterals.ScanNumber` and the `ScanLiterals.Rejects*` lemmas prove about whole literals. |
| Scanning.Scanner.FinishNum | src/scanner.cpp:281-290 | Equal to `ScanModel.FinishNum` on the old fields. |
| Scanning.Scanner.StString | src/scanner.cpp:235-264 | Equal to `ScanModel.StString` on the old fields. |
| ScanFacts.FreshInv | src/scanner.h:181-185 | A new scanner satisfies the scanner invariant. |
| ScanFacts.FeedKeepsInv | src/scanner.cpp:97-101 | `feed` keeps the invariant. After a character is counted, the current position is valid. The current token starts no later than it. Every buffered token has a valid start no later than its end. Every TokenizerError raised has such a span. |
| ScanFacts.RefeedKeepsInv | src/scanner.cpp:104-116 | `refeed` keeps the invariant and raises only errors with a good span. |
| ScanFacts.StInitKeepsInv | src/scanner.cpp:130-154 | `st_init` keeps the invariant and raises only errors with a good span. |
| ScanFacts.StNumberKeepsInv | src/scanner.cpp:157-232 | `st_number` keeps the invariant and raises only errors with a good span. |
| ScanFacts.FinishNumKeepsInv | src/scanner.cpp:281-290 | `finish_num` keeps the invariant. The number token spans from its first character to the previous one. |
| ScanFacts.StStringKeepsInv | src/scanner.cpp:235-264 | `st_string` keeps the invariant and raises only errors with a good span. |
| ScanFacts.FeedInit | src/scanner.cpp:130-154 | In INIT: NUL emits END at its own position and ends scanning. A space emits nothing. A structural character emits its own token at its position. A character that starts no token raises "Unknown char" at its position. |
| ScanFacts.FeedEnded | src/scanner.cpp:104-116 | After END, every character raises "received char in ENDED state". Only the positions change. |
| ScanFacts.FeedString | src/scanner.cpp:243-256 | Inside a string, the closing quote emits a string token of the collected characters, spanning both quotes, and returns to INIT. A backslash enters ESCAPE. Any other character is appended. |
| ScanFacts.FeedNumberEnd | src/scanner.cpp:281-290 | A character that cannot continue a complete number emits the number token, spanning up to the previous character. It then resets the number state and feeds the character again in INIT. |
| ScanFacts.FeedNumberErrors | src/scanner.cpp:157-232 | The four errors of the number automaton carry their messages: "expect dot or digit", "expect digit", "expect digit or sign" and "expect digit". Each spans from the number's start to the offending character. |
| ScanFacts.FeedText | src/tests/test_scanner.cpp:17-22 | The test driver: feeds characters in order and stops at the first failure. Empty text changes nothing. |
| ScanFacts.FeedTextAppend | src/tests/test_scanner.cpp:19-22 | Feeding `a + b` is feeding `a` and then, unless `a` failed, feeding `b`. |
| ScanFacts.NumberEndsAt | src/scanner.cpp:281-290 | A space or structural character after a complete number emits the number token. A structural character then also emits its own token. The scanner is back in INIT. |
| ScanLiterals.ReadLiteral | src/scanner.cpp:130-232 | Any literal the number automaton accepts, read from INIT: an optional sign; then digits with an optional dot and fraction digits, or a dot and at least one digit; then optionally `e` or `E`, an optional sign and at least one digit. It leaves the scanner in NUMBER with exactly the literal's sign, integer, fraction and exponent parts. The start is at its first character and the positions are counted over it. Nothing is emitted and nothing is raised. |
| ScanLiterals.LiteralStateValue | src/scanner.cpp:293-319 | The number state of a literal spells the literal's decimal value: all mantissa digits as one integer over 10 per fraction digit, scaled by the exponent, with the sign. |
| ScanLiterals.LiteralToken | src/scanner.cpp:293-319 | A literal's token is an int exactly when it has no dot, no negative exponent and a value strictly between -2^63 and 2^63. Either way it carries the literal's decimal value, where C++ may hold NaN or an infinity (see "## Left out"). |
| ScanLiterals.ScanNumber | src/scanner.cpp:130-290 | Any literal followed by a space or a structural character emits exactly one number token. The token spans the literal's first to last character and carries the literal's token. The structural token follows if there is one, and the scanner is back in INIT. |
| ScanLiterals.RejectsBareSign | src/scanner.cpp:157-177 | A sign followed by anything but a digit or a dot raises "expect dot or digit", spanning from the sign to that character. |
| ScanLiterals.RejectsBareDot | src/scanner.cpp:168-195 | A dot that starts a number, with or without a sign, followed by a non-digit raises "expect digit". |
| ScanLiterals.RejectsEmptyExponent | src/scanner.cpp:204-222 | After a complete mantissa, `e` followed by neither sign nor digit raises "expect digit or sign". `e` and a sign followed by a non-digit raises "expect digit". Each spans from the number's first character to the offending one. |
| ScanLiterals.RejectsSecondExponent | src/scanner.cpp:223-228 | A second `e` after a complete exponent emits the number, then raises "Unknown char: e" at the `e` itself. |
| ScanLiterals.SecondDotStartsNumber | src/scanner.cpp:196-203 | A dot after a literal with a dot and no exponent emits the number and starts a new number at that dot, with no error: "1.2.3" reads as 1.2 then .3. |
| ScanLiterals.ScanString | src/scanner.cpp:235-256 | A quotation mark, characters other than quotation marks and backslashes, and a quotation mark emit one string token holding exactly those characters, spanning both quotation marks. The scanner is back in INIT. |
| ScanExamples.ScansStructural | src/tests/test_scanner.cpp:47-71 | "[]{},:" then NUL gives the six structural tokens at columns 0 to 5 and END at column 6. |
| ScanExamples.ScansSignedExponent | src/tests/test_scanner.cpp:72-73 | " -12.5e-1 " gives a single float token -1.25 spanning columns 1 to 8. |
| ScanExamples.ScansQuoted | src/tests/test_scanner.cpp:75-76 | "\"asdf\"" gives a single string token "asdf" spanning columns 0 to 5. |
| ScanExamples.ScansMixed | src/tests/test_scanner.cpp:89-100 | `[1.2, {"asdf": 5}]` gives tokens with exactly the spans the test lists. |
| ScanExamples.RejectsDoubleExponent | src/tests/test_scanner.cpp:116 | "1.0ee " raises "Unknown char: e, expect digit or sign" spanning columns 0 to 4. |
| ScanExamples.RejectsLetters | src/tests/test_scanner.cpp:117 | "asdf " raises "Unknown char: a" with both ends at column 0. The test expects columns 0 to 3. |
| ScanExamples.RejectsKeywords | src/tests/test_scanner.cpp:78-87 | "null true false" raises "Unknown char: n" at column 0. The test expects keyword tokens. |
| Nodes.NodeEqIsEquality | src/node.cpp:4-102 | For trees whose float values are real numbers (no NaN, see "## Left out"), the C++ `==` on nodes holds if and only if the two trees are identical: same classes, values, order and keys. `!=` is its negation. |
| Nodes.NodeEqEquivalence | src/node.cpp:9-102 | Node equality is reflexive, symmetric and transitive on trees whose float values are real numbers (no NaN, see "## Left out"). |
| Nodes.CloneIsCopy | src/node.h:117-121 | `clone` and `clone_node` give the same tree, which compares equal to the source in both directions and has its type, for trees whose float values are real numbers (no NaN, see "## Left out"). |
| Nodes.ReprItemsIsJoin | src/node.cpp:41-54 | The child loop of NodeList::repr writes the children's texts joined by ",\n", then "\n". |
| Nodes.ReprListLayout | src/node.cpp:41-54 | A list's repr: 4·indent spaces and "[", a newline, the children one level deeper, a newline, the spaces again and "]". An empty list has no children's lines. |
| Nodes.ReprPairsIsJoin | src/node.cpp:104-117 | The pair loop of NodeObject::repr writes the pairs' texts joined by ",\n", then "\n". |
| Nodes.ReprObjectLayout | src/node.cpp:104-117 | An object's repr: 4·indent spaces and "{", a newline, each pair as NodePair::repr writes it (src/node.cpp:75-77): its indentation, its key, ":" and a newline and then its value one level deeper, joined by ",\n", a newline, the spaces again and "}". An empty object has no pair lines. |
| Nodes.ReprIndented | src/node.cpp:14-118 | Every node's repr starts with 4·indent spaces. |
| ParseModel.Initial | src/parser.cpp:161-163 | A new parser owes one value and holds no node. |
| ParseModel.LeafNode | src/parser.cpp:187-206 | A bool, int, float or string token becomes the node of the same kind and value. |
| ParseModel.Step | src/parser.cpp:179-288 | The only error `feed` throws is UnexpectedToken. A successful step keeps the configuration well formed. |
| ParseModel.TopStateIsLast | src/parser.h:136-137 | The states stack is empty exactly when there is no obligation. Its last entry is the obligation `feed` dispatches on. |
| ParseModel.FinishedIsRootValue | src/parser.cpp:174-176 | `is_finished` holds exactly for a root value whose JSON_END has been popped. |
| Parsing.ValueOpen | src/parser.cpp:184-195 | In JSON, "[" or "{" replaces the obligation by JSON_END, pushes LIST or OBJECT, and leaves the nodes unchanged. |
| Parsing.ValueLeaf | src/parser.cpp:196-206 | In JSON, null and the four value tokens push their node and pop the obligation. |
| Parsing.ValueOther | src/parser.cpp:207-211 | In JSON, any other token is refused, expecting [, {, INT, FLOAT and STRING in that order. |
| Parsing.ValueEndTransition | src/parser.cpp:215-217 | JSON_END pops itself and the token is fed again. |
| Parsing.KeyTransition | src/parser.cpp:218-225 | In STRING, a string token pushes its string node and pops the obligation. Any other token is refused, expecting STRING. |
| Parsing.ListOpenTransition | src/parser.cpp:226-234 | In LIST, a new list is pushed. "]" pops the obligation. Any other token becomes LIST_END under JSON and is fed again. |
| Parsing.ListEndClose | src/parser.cpp:235-242 | In LIST_END, the item on top is appended to the list below it, and "]" pops the obligation. |
| Parsing.ListEndNext | src/parser.cpp:235-244 | In LIST_END, the item is appended, and "," owes another item. |
| Parsing.ListEndOther | src/parser.cpp:235-247 | In LIST_END, any token but "]" or "," is refused, expecting ] and , in that order. |
| Parsing.ObjectOpenTransition | src/parser.cpp:248-256 | In OBJECT, a new object is pushed. "}" pops the obligation. Any other token becomes OBJECT_END, PAIR, STRING and is fed again. |
| Parsing.ObjectEndTransition | src/parser.cpp:257-264 | In OBJECT_END, "}" pops the obligation and "," owes another pair. Anything else is refused, expecting } and ,. |
| Parsing.ColonTransition | src/parser.cpp:265-271 | In PAIR, ":" becomes PAIR_END under JSON. Anything else is refused, expecting COLON. |
| Parsing.PairEndStacks | src/parser.cpp:272-283 | In PAIR_END, the value and then the key are popped and appended as a pair to the object below. The obligation is popped. |
| Parsing.PairEndTransition | src/parser.cpp:272-284 | In PAIR_END, the token is fed again once the pair has been appended. |
| Parsing.Parser.constructor | src/parser.cpp:161-163 | A new parser has states [JSON] and no nodes. |
| Parsing.Parser.IsFinished | src/parser.cpp:174-176 | True exactly when the only node is a finished root value and no obligation is left. |
| Parsing.Parser.PopResult | src/parser.cpp:166-171 | Returns the root value and leaves both stacks empty. |
| Parsing.Parser.EnterJson | src/parser.cpp:291-293 | Pushes JSON. Nothing else changes. |
| Parsing.Parser.EnterList | src/parser.cpp:296-298 | Pushes LIST. Nothing else changes. |
| Parsing.Parser.EnterListItem | src/parser.cpp:301-304 | The top obligation becomes LIST_END and JSON is pushed. |
| Parsing.Parser.EnterObject | src/parser.cpp:307-309 | Pushes OBJECT. Nothing else changes. |
| Parsing.Parser.EnterObjectItem | src/parser.cpp:312-315 | The top obligation becomes OBJECT_END, then PAIR and STRING are pushed. |
| Parsing.Parser.EnterPair | src/parser.cpp:318-321 | Pushes PAIR and then STRING. |
| Parsing.Parser.AppendItem | src/parser.cpp:236-239 | The node on top is appended to the list below it. |
| Parsing.Parser.AppendPair | src/parser.cpp:273-281 | The value and the key on top are appended as a pair to the object below them. |
| Parsing.Parser.PushLeaf | src/parser.cpp:187-190 | Pushes the node and pops the obligation. |
| Parsing.Parser.Feed | src/parser.cpp:179-288 | Either the stacks move to the configuration `ParseModel.Step` gives, or the returned error is the UnexpectedToken `Step` throws. |
| Parsing.Parser.FeedValue | src/parser.cpp:184-212 | The JSON branch agrees with `Step`. |
| Parsing.Parser.FeedValueEnd | src/parser.cpp:215-217 | The JSON_END branch agrees with `Step`. |
| Parsing.Parser.FeedKey | src/parser.cpp:218-225 | The STRING branch agrees with `Step`. |
| Parsing.Parser.FeedListOpen | src/parser.cpp:226-234 | The LIST branch agrees with `Step`. |
| Parsing.Parser.FeedListEnd | src/parser.cpp:235-247 | The LIST_END branch agrees with `Step`. |
| Parsing.Parser.FeedObjectOpen | src/parser.cpp:248-256 | The OBJECT branch agrees with `Step`. |
| Parsing.Parser.FeedObjectEnd | src/parser.cpp:257-264 | The OBJECT_END branch agrees with `Step`. |
| Parsing.Parser.FeedColon | src/parser.cpp:265-271 | The PAIR branch agrees with `Step`. |
| Parsing.Parser.EndPair | src/parser.cpp:272-283 | The new configuration has the pair appended to the object and the pair's frame closed. |
| Parsing.Parser.FeedPairEnd | src/parser.cpp:272-284 | The PAIR_END branch agrees with `Step`. |
| ParseFacts.NewParserNotFinished | src/parser.cpp:161-176 | A new parser has states [JSON] and no nodes, and is not finished. |
| ParseFacts.StepRejects | src/parser.cpp:179-288 | A token is refused exactly when its type is not accepted in the configuration. The error carries a clone of the token and that configuration's list of expected types. |
| ParseFacts.ExpectedAreAccepted | src/parser.cpp:184-264 | Every listed type would have been accepted. The only unlisted accepted ones are null and bool where a value is owed, "]" right after "[", and "}" right after "{". |
| ParseFacts.RunAppend | src/tests/helper.cpp:23-25 | Feeding two token sequences in a row is feeding their concatenation, stopping at the first error. |
| ParseFacts.ItemDone | src/parser.cpp:235-247 | A finished item inside a list is appended by "," or "]". |
| ParseFacts.PairDone | src/parser.cpp:257-284 | A finished value inside a pair completes the pair, which "," or "}" appends. |
| ParseFacts.RunListOpen | src/parser.cpp:226-234 | After "[", any token but "]" opens the first item. |
| ParseFacts.RunObjectOpen | src/parser.cpp:248-256 | After "{", any token but "}" is read as the first key. |
| ParseFacts.ParseKey | src/parser.cpp:218-271 | A key and a colon, where a key is owed, owe the pair's value. |
| ParseFacts.ParsePairHead | src/parser.cpp:218-271 | A key, a colon and a document's tokens leave that pair's value finished. |
| ParseFacts.ParseValue | src/parser.cpp:179-288 | The tokens of any document, fed where a value is owed, rebuild that document. |
| ParseFacts.ParseList | src/parser.cpp:226-247 | The tokens of a list rebuild the list. |
| ParseFacts.ParseObject | src/parser.cpp:248-284 | The tokens of an object rebuild the object, with its pairs in order. |
| ParseFacts.ParseItems | src/parser.cpp:235-247 | The items of a list and "]" append the items in order and close the list. |
| ParseFacts.ParsePairs | src/parser.cpp:257-284 | The pairs of an object and "}" append the pairs in order and close the object. |
| ParseFacts.ParseDocument | src/parser.cpp:174-288 | A new parser fed the tokens of any document and then END is finished, and holds exactly that document. |
| ParseExamples.TestDocuments | src/tests/test_parser.cpp:74-94 | The eleven documents of the parser test are documents the parser can build. |
| ParseExamples.ParsesTestDocuments | src/tests/test_parser.cpp:74-94 | Each test document, as tokens followed by END, makes a new parser finish with that document. |
| ParseExamples.ListAsKey | src/tests/test_parser.cpp:97-100 | The seven tokens of `{[]: 1}`, all well typed. |
| ParseExamples.RejectsListAsKey | src/tests/test_parser.cpp:97-106 | `{[]: 1}` is rejected at the "[" at column 1, with STRING as the only expected type. |
| Formatting.FormatOption.constructor | src/formatter.h:32-36 | The defaults: indent 4, no tabs. |
| Formatting.FormatOption.SetIndent | src/formatter.h:17-25 | Changes the indent only, and returns the same object so that calls chain. |
| Formatting.FormatOption.SetUseTab | src/formatter.h:17-25 | Changes `use_tab` only, and returns the same object. |
| Formatting.FormatContext.constructor | src/formatter.h:39-47 | Level 0, not on a fresh line, nothing saved. |
| Formatting.FormatContext.Push | src/formatter.h:49-51 | Saves a copy of the level and the newline flag, and changes neither. |
| Formatting.FormatContext.Pop | src/formatter.h:53-57 | Restores the most recently saved data and drops it from the stack. |
| Formatting.IndentText | src/formatter.cpp:151-159 | On a fresh line, `level` tabs or `level·indent` spaces. Otherwise nothing. |
| Formatting.Hex4 | src/formatter.cpp:215-216 | `%04x` gives four characters. |
| Formatting.QuoteChar | src/formatter.cpp:200-220 | Writes at least one character for each character. |
| Formatting.IntText | src/formatter.cpp:56-59 | `to_string` of an integer is non-empty and starts with '-' exactly for a negative value. |
| Formatting.Formatter.constructor | src/formatter.h:66-68 | Keeps the options, and the function that writes floats. |
| Formatting.Formatter.Format | src/formatter.cpp:14-18 | Writes `Render` of the node, starting at level 0 on a continued line. |
| Formatting.Formatter.DoNode | src/formatter.cpp:21-41 | Writes `Render` of the node in the current context, and leaves the context as it found it. |
| Formatting.Formatter.DoLeaf | src/formatter.cpp:21-32 | The leaf cases of the dispatch write `Render` of the leaf. |
| Formatting.Formatter.DoNull | src/formatter.cpp:44-47 | The indentation, then "null". |
| Formatting.Formatter.DoBool | src/formatter.cpp:50-53 | The indentation, then "true" or "false". |
| Formatting.Formatter.DoInt | src/formatter.cpp:56-59 | The indentation, then the decimal text of the value. |
| Formatting.Formatter.DoFloat | src/formatter.cpp:62-65 | The indentation, then the float's text. |
| Formatting.Formatter.DoString | src/formatter.cpp:68-75 | The indentation, then the characters quoted one by one between double quotes. |
| Formatting.Formatter.DoPair | src/formatter.cpp:87-97 | Writes `RenderPair`, the key and the value on one line, and restores the context. |
| Formatting.Formatter.DoList | src/formatter.cpp:78-84 | Writes `Render` of the list, and restores the context. |
| Formatting.Formatter.DoObject | src/formatter.cpp:100-106 | Writes `Render` of the object, and restores the context. |
| Formatting.Formatter.DoIndent | src/formatter.cpp:151-159 | Writes `IndentText` of the current context. |
| Formatting.Formatter.DoOpen | src/formatter.cpp:114-124 | The indentation and the opening bracket, with a line break in block form. The context becomes one level deeper on a fresh line in block form, and a continued line inline. |
| Formatting.Formatter.DoClose | src/formatter.cpp:141-147 | In block form, goes back one level and indents a fresh line. Then writes the closing bracket. |
| Formatting.Formatter.DoItems | src/formatter.cpp:126-139 | The loop over a list's children writes each child, then ", " or ",\n" between children, and "\n" after the last in block form. |
| Formatting.Formatter.DoPairs | src/formatter.cpp:126-139 | The same loop over an object's pairs. |
| Formatting.Formatter.DoListLikeItems | src/formatter.cpp:109-148 | `do_list_like` on a list writes the opening, the children and the closing, and restores the context. |
| Formatting.Formatter.DoListLikePairs | src/formatter.cpp:109-148 | `do_list_like` on an object writes the opening, the pairs and the closing, and restores the context. |
| FormatText.DigitsReadBack | src/formatter.cpp:56-59 | The decimal digits written for n read back as n, with no leading zero. |
| FormatText.IntTextReadBack | src/formatter.cpp:56-59 | The text of any integer reads back as that integer. |
| FormatText.Hex4ReadBack | src/formatter.cpp:215-216 | The `%04x` text of any value below 0x10000 reads back as that value. |
| FormatText.SlashUnescaped | src/formatter.cpp:205-206 | '/' is written as itself, not escaped. |
| FormatText.QuoteAscii | src/formatter.cpp:217-218 | Printable ASCII other than the quotation mark and the backslash is written as itself. |
| FormatText.QuoteCharReadBack | src/formatter.cpp:200-220 | Whatever follows, reading back what `quote_char` wrote for any character gives that character. The reader takes escapes as section 7 of RFC 8259 defines them. It reads other characters as RFC 3629 UTF-8 in shortest form, decoded with `Unicode.Decode`. |
| FormatText.RejectsOverlongNul | src/unicode.cpp:48-71 | The string reader refuses the overlong form C0 80 of NUL, although `u8_read_char` (`Unicode.Decode`) decodes it to 0. So the read-back lemmas hold against RFC 3629 UTF-8, which is stricter than the program's own decoder. |
| FormatText.QuoteCharSafe | src/formatter.cpp:200-220 | `quote_char` never writes a raw control character. It writes a quotation mark only as the escape of one. |
| FormatText.QuotePlain | src/formatter.cpp:68-75 | A string of printable ASCII without quotation marks or backslashes is written unchanged. |
| FormatText.QuoteCharsReadBack | src/formatter.cpp:68-75 | The body `do_string` writes between the quotes reads back as the string. |
| FormatText.QuoteReadBack | src/formatter.cpp:68-75 | A string leaf's text after its indentation reads back as the string. |
| Formatting.RenderStr | src/formatter.cpp:68-75 | A string node is the indentation, then the quoted characters between double quotes. |
| FormatLayout.SeriesJoin | src/formatter.cpp:126-139 | The loop writes nothing for no children. Otherwise it writes the children joined by ", " inline, or joined by ",\n" and followed by "\n" in block form. |
| FormatLayout.InlineListLayout | src/formatter.cpp:78-148 | An inline list is the indentation, "[", the children joined by ", " on the list's line, and "]". |
| FormatLayout.InlineListIndented | src/formatter.cpp:114-124 | An inline list on a fresh line is its indentation followed by the same list on a continued line. |
| FormatLayout.BlockListLayout | src/formatter.cpp:78-148 | A list in block form has at least two children. It is the indentation, "[" and a newline, the children one level deeper on fresh lines joined by ",\n", a newline, and "]" on a fresh line at the list's level. |
| FormatLayout.ObjectInlineIffEmpty | src/formatter.cpp:100-184 | Because a pair is never simple, an object is laid out inline exactly when it is empty. |
| FormatLayout.EmptyObject | src/formatter.cpp:100-148 | An empty object is "{}" after the indentation. |
| FormatLayout.BlockObject | src/formatter.cpp:100-148 | A non-empty object is "{" and a newline, the pairs one level deeper joined by ",\n", a newline, and "}" at the object's level. |
| FormatLayout.ObjectLayout | src/formatter.cpp:100-148 | `do_object` in both cases, empty and non-empty. |
| FormatLayout.PairLayout | src/formatter.cpp:87-97 | A pair is the indentation, the quoted key, ": ", and the value continuing the same line. |
| FormatLayout.RenderIndented | src/formatter.cpp:151-159 | Every rendering starts with the indentation of its context. |
| FormatLayout.QuoteCharsOneLine | src/formatter.cpp:200-220 | Quoted text never contains a raw line break. |
| FormatLayout.SimpleOneLine | src/formatter.cpp:162-197 | A simple node rendered on a continued line takes one line. A simple node is a leaf, an empty container, or a one-child list of a simple node. |
| FormatLayout.InlineOneLine | src/formatter.cpp:78-84 | A list of simple children rendered on a continued line takes one line. |
| FormatExamples.FormatsLeaves | src/tests/test_formatter.cpp:14-18 | 1, null, true and false are written as they are. |
| FormatExamples.FormatsPlainString | src/tests/test_formatter.cpp:19 | "asdf" is written between quotation marks. |
| FormatExamples.FormatsEscapes | src/tests/test_formatter.cpp:31-37 | A newline is written as \n. U+0001 and U+0000 are written as \u0001 and \u0000. |
| FormatExamples.FormatsUtf8 | src/tests/test_formatter.cpp:34 | 啊 is written as its three UTF-8 bytes. |
| FormatExamples.FormatsEmpty | src/tests/test_formatter.cpp:42-43 | [] and {}. |
| FormatExamples.FormatsFlatList | src/tests/test_formatter.cpp:44 | [1, 2, 3] stays on one line. |
| FormatExamples.FormatsMixedInline | src/tests/test_formatter.cpp:45 | [1, {}, []] stays on one line. |
| FormatExamples.FormatsNested | src/tests/test_formatter.cpp:46-47 | [[[[]]]] and [[[[{}]]]] stay on one line. |
| FormatExamples.FormatsBlockList | src/tests/test_formatter.cpp:48-55 | [[4, 5], 2, 3] puts each child on its own line, four spaces deep. |
| FormatExamples.FormatsObject | src/tests/test_formatter.cpp:56-59 | {"a": 123} is written in block form, following the code. The test expects one line. |
| FormatExamples.FormatsNestedDocument | src/tests/test_formatter.cpp:71-83 | The nested document gives exactly the test's ten lines. |
| FormatExamples.FormatsWithOptions | src/tests/test_formatter.cpp:87-103 | With any options, [[1, 2, 3], 4] gives two child lines, each after the level-1 indentation. |
| FormatExamples.FormatsIndentTwo | src/tests/test_formatter.cpp:88-95 | With indent 2, the child lines are indented by two spaces. |
| FormatExamples.FormatsTab | src/tests/test_formatter.cpp:96-103 | With use_tab, the child lines are indented by one tab. |

## Left out

- Floating point:
  - A double is modelled as the exact real it stands for. `atoll`, `pow`,
    double rounding and the double comparison against the int64 bounds in
    `to_token` are exact here.
  - `do_float` writes `to_string(double)`. That text is the parameter
    `floatText`.
- ScanModel.ToToken: every value is the exact real the literal spells, and the choice between an int and a float token compares that exact value with -2^63 and 2^63. The C++ `to_token` differs wherever double rounding or integer overflow shows:
  - `iv *= pow(10, exp)` is computed in double and converted back, so `9007199254740993e0` gives the int 9007199254740992 in C++ and 9007199254740993 here.
  - The bounds test compares the rounded double `fv` with the int64 bounds converted to double (-2^63 and 2^63). An integer literal from 2^63-512 to 2^63-1 rounds to 2^63, and its negation to -2^63, so C++ gives a float token where the model gives an int token.
  - `fv` accumulates the fraction digits in double, so a float token's C++ value is a rounded double, not the exact value.
  - `atoll` and `atoi` overflow on digit strings beyond the int64 and int range, and `iv *= pow(10, exp)` can leave the int64 range. The model does not follow any of these.
  - A float token in C++ can hold an infinity or NaN, which the model's exact reals cannot. `pow(10, exp)` is infinite once `exp` is above about 308. So `1e400` gives the float +inf and `-1e400` gives -inf, where the model holds 10^400 and -10^400. A zero mantissa times that infinity is NaN: `0e999` (also `0.0e999`) fails every comparison of src/scanner.cpp:312-313, so C++ gives the float token NaN where the model gives the int token 0.
- Tokens.TokenEqProperties, Tokens.CloneEqual, Nodes.NodeEqIsEquality, Nodes.NodeEqEquivalence, Nodes.CloneIsCopy: these are proved for float values that are real numbers. In C++ a float token or float node is compared with the double `==` (src/scanner.cpp:65, src/node.h:56-58), which is false for NaN, and the scanner produces NaN for literals such as `0e999` (see ScanModel.ToToken above). For a token or tree holding a NaN, C++ equality is not reflexive. An identical tree is then unequal, and a clone compares unequal to its original. So all five properties fail there. Infinities compare equal to themselves and keep them.
- ScanModel.Feed, ScanModel.StString, Scanning.Scanner.Feed, ScanLiterals.ScanString, Formatting.QuoteChar, FormatText.QuoteCharReadBack, FormatText.QuoteReadBack: characters are Dafny `char`, which holds only Unicode scalar values. The C++ character type `unichar` (char32_t, src/unicode.h:16) is any 32-bit value: the scanner is declared over it (src/scanner.h:20-24 and 165-179) and `quote_char` takes it (src/formatter.cpp:200). Surrogates (0xD800 to 0xDFFF) and values from 0x110000 up, which the 5- and 6-byte forms of `u8_read_char` produce, are outside these members' domain, and their properties are proved only for scalar values. The definitions in src/scanner.cpp take a plain `char` (src/scanner.cpp:97, 104, 130, 235, 272), which narrows a `unichar` to 8 bits; the model follows the header and passes the whole character. The `Unicode` module itself works on `bv32` and covers every 32-bit value.
- Formatting.IndentText: does not model the unsigned 32-bit wrap of `level * indent`. Levels and indents are unbounded naturals.
- `u8_decode` and `u8_encode` (the string-level loops declared in src/unicode.h) are not part of this model. The formatter's `u8_encode({ch})` is the single-character `Encode`.
- Surrogate pairs and the scanner's HEX and SURROGATED string states are left out. The code never reaches them: its ESCAPE state ends in `assert(!"Unimplemented")`, which the model records as the outcome `Unimplemented`.
- The scanner's ID state and `st_id` are declared but never entered by the code, so they are not modelled.
- Exception messages built by `UnexpectedToken::make_msg`, and the text of `Token::repr_*` and `name`, are not modelled. An error is identified by its token, its expected types and its span.
- Nodes.Repr: the texts of leaves are the parameter `leaf`, and not modelled. The `repr(indent)` of a leaf writes `::repr(this->value)` after the indentation (src/parser.cpp:41-42). src/utils.hpp:23-49 has overloads only for the integer and floating types. A bool therefore goes through `repr(int)` and is written "1" or "0", and a string value has no overload in these files. src/node.h:38 declares only `string repr() const`, so the `repr(unsigned int indent)` definitions in src/node.cpp match no declaration there. The indented signature is declared in src/parser.h:36 and 50, which is what the model follows.
- Output streams are modelled as returned strings. `os << x` is concatenation.
- Ownership, `unique_ptr` moves, `release` and the unchecked `reinterpret_cast`s of the parser are not modelled. The parser's casts are safe under `ParseModel.WellTyped`, which requires a value token's class to match its type.
- `Parsing.Parser.Feed` does not describe the stacks after an UnexpectedToken is thrown. The C++ code may already have changed them, for example JSON turned into JSON_END. A caller that catches the error cannot go on with the parser.
- SourcePos is a value; its `repr` is not modelled.
- Tokens.Clone: `Token::clone` for a plain token is declared at src/scanner.h:49 but defined nowhere in the source. The model gives a plain token the same copy that the extended tokens' clone makes (src/scanner.h:80-85).
- Formatting.Formatter.DoListLikePairs: `do_list_like<NodePair>` reaches each pair through `do_node`. The model calls `DoPair` directly, which is the branch `do_node` takes for a pair.
- `format_node`, which the formatter tests call, is not part of this model. `FormatExamples.FormatNode` takes it to be `Formatter::format` with the given options, which is `Render` from level 0 on a continued line (`Formatting.Formatter.Format`).
- The command-line validator (src/tests/validator*.cpp, parse_n_exit.cpp) is I/O around the core and is not modelled.
- src/parser.cpp:12-158 repeats the node methods of src/node.cpp, for the node types parser.h declares. The model uses src/node.cpp once.
