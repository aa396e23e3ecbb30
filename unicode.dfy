/** The per-character UTF-8 codec of unicode.cpp, in the original extended
    form that allows sequences of 1 to 6 bytes.

    A `unichar` is a 32-bit `char32_t` and is modelled as `bv32`; a byte is
    `bv8`. The decoder reads a NUL-terminated C string: the model takes its
    content as a `seq<bv8>` and reads a 0 byte at every index past the end,
    which is what the terminator supplies. */
module Unicode {
  import opened Wrappers

  /** What `DecodeError` reports: the message and the offending byte. */
  datatype DecodeError = BadLeadingChar(byte: bv8) | BadFollowingChar(byte: bv8)

  /** PREFIX_MASKS[k], the first table of unicode.cpp: keeps the low 8 - k
      bits of a byte. */
  function PrefixMask(k: nat): bv8
    requires k < 8
  {
    match k
    case 0 => 0xFF
    case 1 => 0x7F
    case 2 => 0x3F
    case 3 => 0x1F
    case 4 => 0x0F
    case 5 => 0x07
    case 6 => 0x03
    case 7 => 0x01
  }

  /** PREFIXES[k], the second table: `k` one-bits followed by zeros, the
      complement of PREFIX_MASKS[k]. */
  function Prefix(k: nat): bv8
    requires k < 8
  {
    match k
    case 0 => 0x00
    case 1 => 0x80
    case 2 => 0xC0
    case 3 => 0xE0
    case 4 => 0xF0
    case 5 => 0xF8
    case 6 => 0xFC
    case 7 => 0xFE
  }

  /** Byte `i` of the C string whose content is `s`. */
  function At(s: seq<bv8>, i: nat): bv8 {
    if i < |s| then s[i] else 0
  }

  /** `b` starts with the bit pattern that announces an `n`-byte sequence:
      0xxxxxxx for one byte, otherwise `n` ones followed by a zero. */
  predicate HasLengthPrefix(b: bv8, n: nat)
    requires 1 <= n <= 6
  {
    if n == 1 then b & 0x80 == 0 else b & Prefix(n + 1) == Prefix(n)
  }

  /** A continuation byte: 10xxxxxx. */
  predicate IsContinuation(b: bv8) {
    b & 0xC0 == 0x80
  }

  /** u8_read_char_len: the sequence length announced by the leading byte
      `c0`. */
  function ReadCharLen(c0: bv8): (r: Result<nat, DecodeError>)
    ensures r.Success? <==> c0 < 0x80 || 0xC0 <= c0 < 0xFE
    ensures r.Success? ==> 1 <= r.value <= 6 && HasLengthPrefix(c0, r.value)
    ensures r.Failure? ==> r.error == BadLeadingChar(c0)
  {
    if c0 >> 7 == 0 then Success(1)
    else if c0 >> 5 == 0x06 then Success(2)
    else if c0 >> 4 == 0x0E then Success(3)
    else if c0 >> 3 == 0x1E then Success(4)
    else if c0 >> 2 == 0x3E then Success(5)
    else if c0 >> 1 == 0x7E then Success(6)
    else Failure(BadLeadingChar(c0))
  }

  /** The payload bits of the leading byte of a `len`-byte sequence, the
      starting value of `ans` in _u8_read_char_with_len. */
  function LeadingPayload(c0: bv8, len: nat): bv32
    requires 2 <= len <= 6
  {
    (c0 & PrefixMask(len + 1)) as bv32
  }

  /** One turn of the loop of _u8_read_char_with_len: reject `c` unless it
      is a continuation byte, else append its six payload bits to `ans`. */
  function Continue(ans: bv32, c: bv8): (r: Result<bv32, DecodeError>)
    ensures r.Success? <==> IsContinuation(c)
  {
    if c >> 6 != 0x02 then Failure(BadFollowingChar(c))
    else Success((ans << 6) | (c & PrefixMask(2)) as bv32)
  }

  /** The value of `ans` in _u8_read_char_with_len once the loop has consumed
      bytes 1 .. k-1, or the error it raised on the way. */
  function Accumulate(s: seq<bv8>, len: nat, k: nat): Result<bv32, DecodeError>
    requires 2 <= len <= 6 && 1 <= k <= len
  {
    if k == 1 then Success(LeadingPayload(At(s, 0), len))
    else
      match Accumulate(s, len, k - 1)
      case Failure(e) => Failure(e)
      case Success(ans) => Continue(ans, At(s, k - 1))
  }

  /** One more turn of the loop after a successful prefix. */
  lemma AccumulateNext(s: seq<bv8>, len: nat, k: nat, ans: bv32)
    requires 2 <= len <= 6 && 1 <= k < len
    requires Accumulate(s, len, k) == Success(ans)
    ensures Accumulate(s, len, k + 1) == Continue(ans, At(s, k))
  {
  }

  /** Once the loop has raised an error, later bytes change nothing. */
  lemma {:induction false} AccumulateFailureSticks(s: seq<bv8>, len: nat, i: nat, k: nat)
    requires 2 <= len <= 6 && 1 <= i <= k <= len
    requires Accumulate(s, len, i).Failure?
    ensures Accumulate(s, len, k) == Accumulate(s, len, i)
    decreases k
  {
    if k > i {
      AccumulateFailureSticks(s, len, i, k - 1);
    }
  }

  /** What _u8_read_char_with_len returns for a sequence of `len` bytes. */
  function DecodeWithLen(s: seq<bv8>, len: nat): Result<bv32, DecodeError>
    requires 1 <= len <= 6
  {
    if len == 1 then Success(At(s, 0) as bv32) else Accumulate(s, len, len)
  }

  /** What u8_read_char returns. */
  function Decode(s: seq<bv8>): Result<bv32, DecodeError> {
    match ReadCharLen(At(s, 0))
    case Failure(e) => Failure(e)
    case Success(len) => DecodeWithLen(s, len)
  }

  /** _u8_read_char_with_len, with its loop over the continuation bytes. */
  method ReadCharWithLen(s: seq<bv8>, len: nat) returns (r: Result<bv32, DecodeError>)
    requires 1 <= len <= 6
    ensures r == DecodeWithLen(s, len)
  {
    if len == 1 {
      return Success(At(s, 0) as bv32);
    }
    var ans: bv32 := (At(s, 0) & PrefixMask(len + 1)) as bv32;
    var i := 1;
    while i < len
      invariant 1 <= i <= len
      invariant Accumulate(s, len, i) == Success(ans)
    {
      var c := At(s, i);
      AccumulateNext(s, len, i, ans);
      if c >> 6 != 0x02 {
        AccumulateFailureSticks(s, len, i + 1, len);
        return Failure(BadFollowingChar(c));
      }
      ans := (ans << 6) | (c & PrefixMask(2)) as bv32;
      i := i + 1;
    }
    return Success(ans);
  }

  /** u8_read_char. */
  method ReadChar(s: seq<bv8>) returns (r: Result<bv32, DecodeError>)
    ensures r == Decode(s)
  {
    var len := ReadCharLen(At(s, 0));
    if len.Failure? {
      return Failure(len.error);
    }
    r := ReadCharWithLen(s, len.value);
  }

  /** The smallest code point that needs more than `n` bytes. */
  function Threshold(n: nat): bv32
    requires 1 <= n <= 5
  {
    match n
    case 1 => 0x80
    case 2 => 0x800
    case 3 => 0x1_0000
    case 4 => 0x20_0000
    case 5 => 0x400_0000
  }

  /** The number of bytes u8_char_len announces for `ch`: the least length
      whose payload holds `ch`. */
  function EncodedLength(ch: bv32): (n: nat)
    requires ch < 0x8000_0000
    ensures 1 <= n <= 6
    ensures n <= 5 ==> ch < Threshold(n)
    ensures n >= 2 ==> Threshold(n - 1) <= ch
  {
    if ch < 0x80 then 1
    else if ch < 0x800 then 2
    else if ch < 0x1_0000 then 3
    else if ch < 0x20_0000 then 4
    else if ch < 0x400_0000 then 5
    else 6
  }

  /** u8_char_len: a loop that shifts the bound `upper` left by 5 bits per
      extra byte. */
  method CharLen(ch: bv32) returns (n: nat)
    requires ch < 0x8000_0000
    ensures n == EncodedLength(ch)
  {
    if ch < 0x80 {
      return 1;
    }
    n := 2;
    var upper: bv32 := 0x800;
    while upper <= ch
      invariant 2 <= n <= 6
      invariant n <= 5 ==> upper == Threshold(n)
      invariant n == 6 ==> upper == 0x8000_0000
      invariant Threshold(n - 1) <= ch
      decreases 6 - n
    {
      n := n + 1;
      upper := upper << 5;
    }
  }

  /** static_cast<char> of a 32-bit value: its low eight bits. */
  function Low8(x: bv32): bv8 {
    (x & 0xFF) as bv8
  }

  /** `ch << (38 - 6 * len)`, the first shift of the `remain` register in
      _u8_write_char_with_len, with the amount written out for each length. */
  function ShiftToTop(ch: bv32, len: nat): bv32
    requires 2 <= len <= 6
  {
    match len
    case 2 => ch << 26
    case 3 => ch << 20
    case 4 => ch << 14
    case 5 => ch << 8
    case 6 => ch << 2
  }

  /** The `remain` register of _u8_write_char_with_len before it writes
      continuation byte `i`: `ch` shifted so that its bits for byte 1 are the
      top six, then 6 more bits per byte already written, wrapping at 32
      bits. */
  function Remain(ch: bv32, len: nat, i: nat): bv32
    requires 2 <= len <= 6 && 1 <= i <= len
  {
    if i == 1 then ShiftToTop(ch, len) else Remain(ch, len, i - 1) << 6
  }

  /** `ch` without its low `6 * m` bits: `ch >> (6 * m)`, with the amount
      written out for each `m`. */
  function HighBits(ch: bv32, m: nat): bv32
    requires m <= 5
  {
    match m
    case 0 => ch
    case 1 => ch >> 6
    case 2 => ch >> 12
    case 3 => ch >> 18
    case 4 => ch >> 24
    case 5 => ch >> 30
  }

  /** The leading byte _u8_write_char_with_len writes for a sequence of
      `len` >= 2 bytes: the top payload bits under the length prefix. */
  function LeadingByte(ch: bv32, len: nat): bv8
    requires 2 <= len <= 6
  {
    Low8(HighBits(ch, len - 1)) | Prefix(len)
  }

  /** Shifting the register by six bits moves it on to the next byte. */
  lemma RemainStep(ch: bv32, len: nat, i: nat)
    requires 2 <= len <= 6 && 1 <= i < len
    ensures Remain(ch, len, i + 1) == Remain(ch, len, i) << 6
  {
  }

  /** The continuation byte written from the top six bits of `remain`. */
  function ContinuationOf(remain: bv32): bv8 {
    Low8(remain >> 26) | Prefix(1)
  }

  /** Continuation byte `i` written by _u8_write_char_with_len. */
  function ContinuationByte(ch: bv32, len: nat, i: nat): bv8
    requires 2 <= len <= 6 && 1 <= i < len
  {
    ContinuationOf(Remain(ch, len, i))
  }

  /** Byte `j` of what _u8_write_char_with_len writes for `ch` in `len`
      bytes. */
  function EncodedByte(ch: bv32, len: nat, j: nat): bv8
    requires 1 <= len <= 6 && j < len
  {
    if len == 1 then Low8(ch)
    else if j == 0 then LeadingByte(ch, len)
    else ContinuationByte(ch, len, j)
  }

  /** The bytes _u8_write_char_with_len writes for `ch` in `len` bytes. */
  function EncodeWithLen(ch: bv32, len: nat): (r: seq<bv8>)
    requires 1 <= len <= 6
    ensures |r| == len
  {
    seq(len, j requires 0 <= j < len => EncodedByte(ch, len, j))
  }

  /** The bytes u8_write_char writes for `ch`. */
  function Encode(ch: bv32): seq<bv8>
    requires ch < 0x8000_0000
  {
    EncodeWithLen(ch, EncodedLength(ch))
  }

  /** _u8_write_char_with_len: writes `len` bytes at `buf[pos..]` and returns
      the advanced write position. */
  method WriteCharWithLen(buf: array<bv8>, pos: nat, ch: bv32, len: nat) returns (next: nat)
    requires 1 <= len <= 6 && pos + len <= buf.Length
    modifies buf
    ensures next == pos + len
    ensures buf[pos..next] == EncodeWithLen(ch, len)
    ensures forall k :: 0 <= k < buf.Length && !(pos <= k < next) ==> buf[k] == old(buf[k])
  {
    next := pos;
    if len == 1 {
      buf[next] := Low8(ch);
      next := next + 1;
    } else {
      buf[next] := LeadingByte(ch, len);
      next := next + 1;
      var remain := Remain(ch, len, 1);
      var i := 1;
      while i < len
        invariant 1 <= i <= len
        invariant next == pos + i
        invariant remain == Remain(ch, len, i)
        invariant forall j :: 0 <= j < i ==> buf[pos + j] == EncodedByte(ch, len, j)
        invariant forall k :: 0 <= k < buf.Length && !(pos <= k < next) ==> buf[k] == old(buf[k])
      {
        buf[next] := ContinuationOf(remain);
        next := next + 1;
        RemainStep(ch, len, i);
        remain := remain << 6;
        i := i + 1;
      }
    }
    assert forall j :: 0 <= j < len ==> buf[pos..next][j] == EncodeWithLen(ch, len)[j];
  }

  /** u8_write_char. */
  method WriteChar(buf: array<bv8>, pos: nat, ch: bv32) returns (next: nat)
    requires ch < 0x8000_0000 && pos + EncodedLength(ch) <= buf.Length
    modifies buf
    ensures next == pos + EncodedLength(ch)
    ensures buf[pos..next] == Encode(ch)
    ensures forall k :: 0 <= k < buf.Length && !(pos <= k < next) ==> buf[k] == old(buf[k])
  {
    var len := CharLen(ch);
    next := WriteCharWithLen(buf, pos, ch, len);
  }
}
