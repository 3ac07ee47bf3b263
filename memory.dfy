/**
 * The buffer compare: two byte buffers are compared one 64-bit word at a
 * time with the 64-bit MeChelle compare, the remaining bytes with the
 * byte-wide compare, and the per-chunk results are combined with a bitwise
 * AND that never stops early. The model also gives memcmp, which the
 * buffer compare is meant to agree with on equality.
 */
module Memory {
  import opened Alu
  import opened MeChelle

  /** sizeof(size_t) on a 64-bit target: the number of bytes per word step. */
  const Step: nat := 8

  /** The word stored little-endian (as on x86) in the eight bytes from off. */
  function LoadWord(s: seq<Byte>, off: nat): (w: Word)
    requires off + Step <= |s|
    ensures StoreWord(w) == s[off..off + Step]
  {
    var w :=
      (s[off] as Word)
      | ((s[off + 1] as Word) << 8)
      | ((s[off + 2] as Word) << 16)
      | ((s[off + 3] as Word) << 24)
      | ((s[off + 4] as Word) << 32)
      | ((s[off + 5] as Word) << 40)
      | ((s[off + 6] as Word) << 48)
      | ((s[off + 7] as Word) << 56);
    assert StoreWord(w) == s[off..off + Step];
    w
  }

  /** The eight bytes of a word, least significant first. */
  function StoreWord(w: Word): (s: seq<Byte>)
    ensures |s| == Step
  {
    [ (w & 0xFF) as Byte,
      ((w >> 8) & 0xFF) as Byte,
      ((w >> 16) & 0xFF) as Byte,
      ((w >> 24) & 0xFF) as Byte,
      ((w >> 32) & 0xFF) as Byte,
      ((w >> 40) & 0xFF) as Byte,
      ((w >> 48) & 0xFF) as Byte,
      ((w >> 56) & 0xFF) as Byte ]
  }

  /** Loading the bytes of a stored word gives the word back: the other half
      of the round trip that LoadWord's contract states. Dafny proves it from
      the definitions alone; it is stated for readers and not used below. */
  lemma LoadStoreWord(w: Word)
    ensures LoadWord(StoreWord(w), 0) == w
  {
  }

  /** Two words loaded from the same offset are equal exactly when the
      eight bytes they were loaded from are. */
  lemma LoadWordEqual(a: seq<Byte>, b: seq<Byte>, off: nat)
    requires off + Step <= |a| && off + Step <= |b|
    ensures LoadWord(a, off) == LoadWord(b, off) <==> a[off..off + Step] == b[off..off + Step]
  {
  }

  /** memcmp over the first n bytes: negative, zero or positive as the first
      differing byte of a is below or above that of b (as unsigned char),
      zero when the first n bytes agree. */
  function MemCmp(a: seq<Byte>, b: seq<Byte>, n: nat): (r: int)
    requires n <= |a| && n <= |b|
    ensures -1 <= r <= 1
    decreases n
  {
    if n == 0 then 0
    else if a[0] < b[0] then -1
    else if a[0] > b[0] then 1
    else MemCmp(a[1..], b[1..], n - 1)
  }

  /** memcmp reports 0 exactly when the first n bytes are pairwise equal. */
  lemma {:induction false} MemCmpZeroIffEqual(a: seq<Byte>, b: seq<Byte>, n: nat)
    requires n <= |a| && n <= |b|
    ensures MemCmp(a, b, n) == 0 <==> a[..n] == b[..n]
    decreases n
  {
    if n > 0 {
      MemCmpZeroIffEqual(a[1..], b[1..], n - 1);
      assert a[..n][1..] == a[1..][..n - 1];
      assert b[..n][1..] == b[1..][..n - 1];
      assert a[..n] == b[..n] <==> a[0] == b[0] && a[..n][1..] == b[..n][1..];
    }
  }

  /** A prefix of two buffers agrees up to j exactly when it agrees up to i
      and on the chunk from i to j. */
  lemma PrefixEqualSplit(a: seq<Byte>, b: seq<Byte>, i: nat, j: nat)
    requires i <= j <= |a| && j <= |b|
    ensures a[..j] == b[..j] <==> a[..i] == b[..i] && a[i..j] == b[i..j]
  {
  }

  /**
   * The buffer compare: 1 when the first size bytes of a and b are pairwise
   * equal, 0 otherwise, in agreement with memcmp reporting 0. Every full
   * word is compared with the 64-bit compare and every remaining byte with
   * the byte compare; the results are AND-ed bitwise, so a mismatch found
   * early never cuts the loop short. The ghost results count the word and
   * byte compares performed, which depend on size alone.
   */
  method MeChelleCompareMemory(a: seq<Byte>, b: seq<Byte>, size: nat)
    returns (eq: Byte, ghost words: nat, ghost tail: nat)
    requires size <= |a| && size <= |b|
    ensures eq == 0 || eq == 1
    ensures eq == 1 <==> a[..size] == b[..size]
    ensures eq == 1 <==> MemCmp(a, b, size) == 0
    ensures words == size / Step && tail == size % Step
  {
    eq := 1;
    var i: nat := 0;
    words, tail := 0, 0;
    while size - i >= Step
      invariant i <= size && i == words * Step
      invariant eq == 0 || eq == 1
      invariant eq == 1 <==> a[..i] == b[..i]
    {
      var wordEq := MeChelleCompareUInt64(LoadWord(a, i), LoadWord(b, i));
      LoadWordEqual(a, b, i);
      PrefixEqualSplit(a, b, i, i + Step);
      eq := eq & wordEq;
      i := i + Step;
      words := words + 1;
    }
    while i < size
      invariant i <= size && i == words * Step + tail && tail < Step
      invariant eq == 0 || eq == 1
      invariant eq == 1 <==> a[..i] == b[..i]
    {
      var byteEq := MeChelleCompareUInt8(a[i], b[i]);
      assert a[i..i + 1] == [a[i]] && b[i..i + 1] == [b[i]];
      PrefixEqualSplit(a, b, i, i + 1);
      eq := eq & byteEq;
      i := i + 1;
      tail := tail + 1;
    }
    MemCmpZeroIffEqual(a, b, size);
  }
}
