/** The round trip of the UTF-8 codec: reading back the bytes that
    u8_write_char wrote gives the character and its length, for every
    character below 0x8000_0000 (the limit u8_char_len asserts).

    Bit-vector facts are proved in small lemmas over plain variables; the
    lemmas that mention the codec's functions only chain them together. */
module Utf8RoundTrip {
  import opened Wrappers
  import opened Unicode

  /** The number of payload bits a leading byte of an `len`-byte sequence
      carries is 7 - len; this is the bound they stay below. */
  function PayloadBound(len: nat): bv32
    requires 2 <= len <= 6
  {
    match len
    case 2 => 0x20
    case 3 => 0x10
    case 4 => 0x08
    case 5 => 0x04
    case 6 => 0x02
  }

  /** Shifting right by 6 * (m + 1) bits is shifting by 6 * m and then by six. */
  lemma ShiftCompose(ch: bv32, a: bv32)
    requires a in {0, 6, 12, 18, 24}
    ensures ch >> (a + 6) == (ch >> a) >> 6
  {
  }

  /** HighBits(ch, m + 1) drops six more bits than HighBits(ch, m). */
  lemma HighBitsStep(ch: bv32, m: nat)
    requires m < 5
    ensures HighBits(ch, m + 1) == HighBits(ch, m) >> 6
  {
    if m == 0 {
    } else if m == 1 {
      ShiftCompose(ch, 6);
    } else if m == 2 {
      ShiftCompose(ch, 12);
    } else if m == 3 {
      ShiftCompose(ch, 18);
    } else {
      ShiftCompose(ch, 24);
    }
  }

  lemma RemainFirst(ch: bv32, len: nat)
    requires 2 <= len <= 6
    ensures Remain(ch, len, 1) == ShiftToTop(ch, len)
  {
  }

  lemma ContinuationByteIs(ch: bv32, len: nat, k: nat)
    requires 2 <= len <= 6 && 1 <= k < len
    ensures EncodedByte(ch, len, k) == Low8(Remain(ch, len, k) >> 26) | 0x80
  {
  }

  /** Splitting off the low six bits of `x` as a continuation byte and
      appending them again gives back `x`. */
  lemma ContinueSplit(x: bv32)
    ensures Continue(x >> 6, Low8(x & 0x3F) | 0x80) == Success(x)
  {
  }

  /** A 2-byte leading byte announces its length and carries its payload. */
  lemma LeadBits2(x: bv32)
    requires x < 0x20
    ensures ReadCharLen(Low8(x) | 0xC0) == Success(2)
    ensures LeadingPayload(Low8(x) | 0xC0, 2) == x
  {
  }

  /** The register arithmetic of the 2-byte form: the top six bits of the
      `remain` register before byte k are bits 6 * (1 - k) .. of `ch`. */
  lemma Register2(ch: bv32)
    ensures var r1 := ch << 26;
            var h0 := ch;
            var h1 := ch >> 6;
            r1 >> 26 == h0 & 0x3F &&
            (h1 < 0x20 <==> ch < 0x800)
  {
  }

  /** The continuation bytes of the 2-byte form carry six bits of `ch`
      each, most significant first. */
  lemma ContinuationBits2(ch: bv32, k: nat)
    requires 1 <= k < 2
    ensures EncodedByte(ch, 2, k) == Low8(HighBits(ch, 1 - k) & 0x3F) | 0x80
  {
    RemainFirst(ch, 2);
    ContinuationByteIs(ch, 2, k);
    Register2(ch);
  }

  /** The payload of a 2-byte leading byte fits in its 5 bits. */
  lemma PayloadFits2(ch: bv32)
    ensures HighBits(ch, 1) < 0x20 <==> ch < 0x800
  {
    Register2(ch);
  }

  /** A 3-byte leading byte announces its length and carries its payload. */
  lemma LeadBits3(x: bv32)
    requires x < 0x10
    ensures ReadCharLen(Low8(x) | 0xE0) == Success(3)
    ensures LeadingPayload(Low8(x) | 0xE0, 3) == x
  {
  }

  /** The register arithmetic of the 3-byte form: the top six bits of the
      `remain` register before byte k are bits 6 * (2 - k) .. of `ch`. */
  lemma Register3(ch: bv32)
    ensures var r1 := ch << 20;
            var r2 := r1 << 6;
            var h0 := ch;
            var h1 := ch >> 6;
            var h2 := ch >> 12;
            r1 >> 26 == h1 & 0x3F &&
            r2 >> 26 == h0 & 0x3F &&
            (h2 < 0x10 <==> ch < 0x1_0000)
  {
  }

  /** The continuation bytes of the 3-byte form carry six bits of `ch`
      each, most significant first. */
  lemma ContinuationBits3(ch: bv32, k: nat)
    requires 1 <= k < 3
    ensures EncodedByte(ch, 3, k) == Low8(HighBits(ch, 2 - k) & 0x3F) | 0x80
  {
    RemainFirst(ch, 3);
    RemainStep(ch, 3, 1);
    ContinuationByteIs(ch, 3, k);
    Register3(ch);
  }

  /** The payload of a 3-byte leading byte fits in its 4 bits. */
  lemma PayloadFits3(ch: bv32)
    ensures HighBits(ch, 2) < 0x10 <==> ch < 0x1_0000
  {
    Register3(ch);
  }

  /** A 4-byte leading byte announces its length and carries its payload. */
  lemma LeadBits4(x: bv32)
    requires x < 0x08
    ensures ReadCharLen(Low8(x) | 0xF0) == Success(4)
    ensures LeadingPayload(Low8(x) | 0xF0, 4) == x
  {
  }

  /** The register arithmetic of the 4-byte form: the top six bits of the
      `remain` register before byte k are bits 6 * (3 - k) .. of `ch`. */
  lemma Register4(ch: bv32)
    ensures var r1 := ch << 14;
            var r2 := r1 << 6;
            var r3 := r2 << 6;
            var h0 := ch;
            var h1 := ch >> 6;
            var h2 := ch >> 12;
            var h3 := ch >> 18;
            r1 >> 26 == h2 & 0x3F &&
            r2 >> 26 == h1 & 0x3F &&
            r3 >> 26 == h0 & 0x3F &&
            (h3 < 0x08 <==> ch < 0x20_0000)
  {
  }

  /** The continuation bytes of the 4-byte form carry six bits of `ch`
      each, most significant first. */
  lemma ContinuationBits4(ch: bv32, k: nat)
    requires 1 <= k < 4
    ensures EncodedByte(ch, 4, k) == Low8(HighBits(ch, 3 - k) & 0x3F) | 0x80
  {
    RemainFirst(ch, 4);
    RemainStep(ch, 4, 1);
    RemainStep(ch, 4, 2);
    ContinuationByteIs(ch, 4, k);
    Register4(ch);
  }

  /** The payload of a 4-byte leading byte fits in its 3 bits. */
  lemma PayloadFits4(ch: bv32)
    ensures HighBits(ch, 3) < 0x08 <==> ch < 0x20_0000
  {
    Register4(ch);
  }

  /** A 5-byte leading byte announces its length and carries its payload. */
  lemma LeadBits5(x: bv32)
    requires x < 0x04
    ensures ReadCharLen(Low8(x) | 0xF8) == Success(5)
    ensures LeadingPayload(Low8(x) | 0xF8, 5) == x
  {
  }

  /** The register arithmetic of the 5-byte form: the top six bits of the
      `remain` register before byte k are bits 6 * (4 - k) .. of `ch`. */
  lemma Register5(ch: bv32)
    ensures var r1 := ch << 8;
            var r2 := r1 << 6;
            var r3 := r2 << 6;
            var r4 := r3 << 6;
            var h0 := ch;
            var h1 := ch >> 6;
            var h2 := ch >> 12;
            var h3 := ch >> 18;
            var h4 := ch >> 24;
            r1 >> 26 == h3 & 0x3F &&
            r2 >> 26 == h2 & 0x3F &&
            r3 >> 26 == h1 & 0x3F &&
            r4 >> 26 == h0 & 0x3F &&
            (h4 < 0x04 <==> ch < 0x400_0000)
  {
  }

  /** The continuation bytes of the 5-byte form carry six bits of `ch`
      each, most significant first. */
  lemma ContinuationBits5(ch: bv32, k: nat)
    requires 1 <= k < 5
    ensures EncodedByte(ch, 5, k) == Low8(HighBits(ch, 4 - k) & 0x3F) | 0x80
  {
    RemainFirst(ch, 5);
    RemainStep(ch, 5, 1);
    RemainStep(ch, 5, 2);
    RemainStep(ch, 5, 3);
    ContinuationByteIs(ch, 5, k);
    Register5(ch);
  }

  /** The payload of a 5-byte leading byte fits in its 2 bits. */
  lemma PayloadFits5(ch: bv32)
    ensures HighBits(ch, 4) < 0x04 <==> ch < 0x400_0000
  {
    Register5(ch);
  }

  /** A 6-byte leading byte announces its length and carries its payload. */
  lemma LeadBits6(x: bv32)
    requires x < 0x02
    ensures ReadCharLen(Low8(x) | 0xFC) == Success(6)
    ensures LeadingPayload(Low8(x) | 0xFC, 6) == x
  {
  }

  /** The register arithmetic of the 6-byte form: the top six bits of the
      `remain` register before byte k are bits 6 * (5 - k) .. of `ch`. */
  lemma Register6(ch: bv32)
    ensures var r1 := ch << 2;
            var r2 := r1 << 6;
            var r3 := r2 << 6;
            var r4 := r3 << 6;
            var r5 := r4 << 6;
            var h0 := ch;
            var h1 := ch >> 6;
            var h2 := ch >> 12;
            var h3 := ch >> 18;
            var h4 := ch >> 24;
            var h5 := ch >> 30;
            r1 >> 26 == h4 & 0x3F &&
            r2 >> 26 == h3 & 0x3F &&
            r3 >> 26 == h2 & 0x3F &&
            r4 >> 26 == h1 & 0x3F &&
            r5 >> 26 == h0 & 0x3F &&
            (h5 < 0x02 <==> ch < 0x8000_0000)
  {
  }

  /** The continuation bytes of the 6-byte form carry six bits of `ch`
      each, most significant first. */
  lemma ContinuationBits6(ch: bv32, k: nat)
    requires 1 <= k < 6
    ensures EncodedByte(ch, 6, k) == Low8(HighBits(ch, 5 - k) & 0x3F) | 0x80
  {
    RemainFirst(ch, 6);
    RemainStep(ch, 6, 1);
    RemainStep(ch, 6, 2);
    RemainStep(ch, 6, 3);
    RemainStep(ch, 6, 4);
    ContinuationByteIs(ch, 6, k);
    Register6(ch);
  }

  /** The payload of a 6-byte leading byte fits in its 1 bits. */
  lemma PayloadFits6(ch: bv32)
    ensures HighBits(ch, 5) < 0x02 <==> ch < 0x8000_0000
  {
    Register6(ch);
  }

  /** Every continuation byte the encoder writes carries the six bits of
      `ch` that the decoder expects at that position. */
  lemma ContinuationBits(ch: bv32, len: nat, k: nat)
    requires 2 <= len <= 6 && 1 <= k < len
    ensures EncodedByte(ch, len, k) == Low8(HighBits(ch, len - 1 - k) & 0x3F) | 0x80
  {
    match len
    case 2 => ContinuationBits2(ch, k);
    case 3 => ContinuationBits3(ch, k);
    case 4 => ContinuationBits4(ch, k);
    case 5 => ContinuationBits5(ch, k);
    case 6 => ContinuationBits6(ch, k);
  }

  /** The leading byte the encoder writes announces the length u8_char_len
      chose and carries the top bits of `ch`. */
  lemma LeadingBits(ch: bv32, len: nat)
    requires 2 <= len <= 6 && ch < 0x8000_0000 && EncodedLength(ch) == len
    ensures ReadCharLen(EncodedByte(ch, len, 0)) == Success(len)
    ensures LeadingPayload(EncodedByte(ch, len, 0), len) == HighBits(ch, len - 1)
  {
    assert EncodedByte(ch, len, 0) == Low8(HighBits(ch, len - 1)) | Prefix(len);
    match len
    case 2 => PayloadFits2(ch); LeadBits2(HighBits(ch, 1));
    case 3 => PayloadFits3(ch); LeadBits3(HighBits(ch, 2));
    case 4 => PayloadFits4(ch); LeadBits4(HighBits(ch, 3));
    case 5 => PayloadFits5(ch); LeadBits5(HighBits(ch, 4));
    case 6 => PayloadFits6(ch); LeadBits6(HighBits(ch, 5));
  }

  /** Appending the continuation byte that carries bits 6 * m .. 6 * m + 5
      of `ch` to the bits above them gives the bits from 6 * m up. */
  lemma ContinueHighBits(ch: bv32, m: nat)
    requires m < 5
    ensures Continue(HighBits(ch, m + 1), Low8(HighBits(ch, m) & 0x3F) | 0x80)
            == Success(HighBits(ch, m))
  {
    HighBitsStep(ch, m);
    ContinueSplit(HighBits(ch, m));
  }

  /** The decoder's step on continuation byte k of the encoding. */
  lemma ContinueEncoded(ch: bv32, len: nat, k: nat)
    requires 2 <= len <= 6 && 1 <= k < len
    ensures Continue(HighBits(ch, len - k), EncodedByte(ch, len, k))
            == Success(HighBits(ch, len - k - 1))
  {
    ContinuationBits(ch, len, k);
    ContinueHighBits(ch, len - k - 1);
  }

  /** Every byte u8_write_char writes is read back at its index, whatever
      follows it. */
  lemma EncodedAt(ch: bv32, rest: seq<bv8>, i: nat)
    requires ch < 0x8000_0000 && i < EncodedLength(ch)
    ensures At(Encode(ch) + rest, i) == EncodedByte(ch, EncodedLength(ch), i)
  {
  }

  /** One continuation byte of an encoded character appends the next six
      bits of `ch`. */
  lemma AccumulateEncodedStep(ch: bv32, rest: seq<bv8>, k: nat)
    requires ch < 0x8000_0000 && 2 <= EncodedLength(ch) && 1 <= k < EncodedLength(ch)
    requires Accumulate(Encode(ch) + rest, EncodedLength(ch), k)
             == Success(HighBits(ch, EncodedLength(ch) - k))
    ensures Accumulate(Encode(ch) + rest, EncodedLength(ch), k + 1)
            == Success(HighBits(ch, EncodedLength(ch) - k - 1))
  {
    var len := EncodedLength(ch);
    AccumulateNext(Encode(ch) + rest, len, k, HighBits(ch, len - k));
    EncodedAt(ch, rest, k);
    ContinueEncoded(ch, len, k);
  }

  /** After k bytes of an encoded character the decoder has assembled `ch`
      without its low bits for the bytes still to come. */
  lemma {:induction false} AccumulateEncoded(ch: bv32, rest: seq<bv8>, k: nat)
    requires ch < 0x8000_0000 && 2 <= EncodedLength(ch) && 1 <= k <= EncodedLength(ch)
    ensures Accumulate(Encode(ch) + rest, EncodedLength(ch), k)
            == Success(HighBits(ch, EncodedLength(ch) - k))
  {
    if k == 1 {
      EncodedAt(ch, rest, 0);
      LeadingBits(ch, EncodedLength(ch));
    } else {
      AccumulateEncoded(ch, rest, k - 1);
      AccumulateEncodedStep(ch, rest, k - 1);
    }
  }

  /** Decoding what u8_write_char wrote gives back the character, and the
      length u8_read_char_len reads is the one u8_char_len chose, whatever
      bytes follow. */
  lemma DecodeEncode(ch: bv32, rest: seq<bv8>)
    requires ch < 0x8000_0000
    ensures ReadCharLen(At(Encode(ch) + rest, 0)) == Success(EncodedLength(ch))
    ensures Decode(Encode(ch) + rest) == Success(ch)
  {
    var len := EncodedLength(ch);
    EncodedAt(ch, rest, 0);
    if len == 1 {
      assert EncodedByte(ch, 1, 0) == Low8(ch);
    } else {
      LeadingBits(ch, len);
      AccumulateEncoded(ch, rest, len);
    }
  }
}
