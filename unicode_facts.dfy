/** What the UTF-8 decoder accepts and what it reports, and the values it
    computes on the examples of the repository's unit tests. */
module UnicodeFacts {
  import opened Wrappers
  import opened Unicode

  /** The loop of _u8_read_char_with_len gets past byte k - 1 exactly when
      bytes 1 .. k - 1 are all continuation bytes. */
  lemma {:induction false} AccumulateSucceeds(s: seq<bv8>, len: nat, k: nat)
    requires 2 <= len <= 6 && 1 <= k <= len
    ensures Accumulate(s, len, k).Success? <==> forall i :: 1 <= i < k ==> IsContinuation(At(s, i))
  {
    if k > 1 {
      AccumulateSucceeds(s, len, k - 1);
    }
  }

  /** The error the loop raises names the first byte that is not a
      continuation byte. */
  lemma {:induction false} AccumulateFailsAt(s: seq<bv8>, len: nat, k: nat, j: nat)
    requires 2 <= len <= 6 && 1 <= j < k <= len
    requires forall i :: 1 <= i < j ==> IsContinuation(At(s, i))
    requires !IsContinuation(At(s, j))
    ensures Accumulate(s, len, k) == Failure(BadFollowingChar(At(s, j)))
  {
    if k == j + 1 {
      AccumulateSucceeds(s, len, j);
    } else {
      AccumulateFailsAt(s, len, k - 1, j);
    }
  }

  /** u8_read_char succeeds exactly when the leading byte announces a length
      and every byte after it, up to that length, is a continuation byte. */
  lemma DecodeSucceeds(s: seq<bv8>)
    ensures Decode(s).Success? <==>
      ReadCharLen(At(s, 0)).Success? &&
      forall i :: 1 <= i < ReadCharLen(At(s, 0)).value ==> IsContinuation(At(s, i))
  {
    var r := ReadCharLen(At(s, 0));
    if r.Success? && r.value >= 2 {
      AccumulateSucceeds(s, r.value, r.value);
    }
  }

  /** A bad leading byte is reported as such. */
  lemma DecodeBadLeading(s: seq<bv8>)
    requires 0x80 <= At(s, 0) < 0xC0 || 0xFE <= At(s, 0)
    ensures Decode(s) == Failure(BadLeadingChar(At(s, 0)))
  {
  }

  /** A bad continuation byte is reported, and it is the first one. */
  lemma DecodeBadFollowing(s: seq<bv8>, j: nat)
    requires ReadCharLen(At(s, 0)).Success? && 1 <= j < ReadCharLen(At(s, 0)).value
    requires forall i :: 1 <= i < j ==> IsContinuation(At(s, i))
    requires !IsContinuation(At(s, j))
    ensures Decode(s) == Failure(BadFollowingChar(At(s, j)))
  {
    var len := ReadCharLen(At(s, 0)).value;
    AccumulateFailsAt(s, len, len, j);
  }

  /** The decoding examples of test_unicode.cpp. */
  lemma DecodeExamples()
    ensures Decode([0x7F]) == Success(0x7F)
    ensures Decode([0xC2, 0xB1]) == Success(0xB1)
    ensures Decode([0xE5, 0x95, 0x8A]) == Success(0x554A)
    ensures Decode([0xF0, 0xA0, 0x80, 0x80]) == Success(0x2_0000)
    ensures Decode([0xF4, 0x8F, 0xBF, 0xBF]) == Success(0x10_FFFF)
    ensures Decode([]) == Success(0)
    ensures Decode([0x80]) == Failure(BadLeadingChar(0x80))
    ensures Decode([0xE5, 0x95, 0xE5]) == Failure(BadFollowingChar(0xE5))
  {
  }

  /** The encoding examples of test_unicode.cpp. */
  lemma EncodeExamples()
    ensures Encode(0) == [0]
    ensures Encode(0xB1) == [0xC2, 0xB1]
    ensures Encode(0x554A) == [0xE5, 0x95, 0x8A]
    ensures Encode(0x10_FFFF) == [0xF4, 0x8F, 0xBF, 0xBF]
  {
  }
}
