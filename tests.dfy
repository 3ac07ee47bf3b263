/**
 * The test drivers of the MeChelle proof of concept, with each runtime
 * assertion stated as a postcondition that holds for every run.
 */
module Tests {
  import opened Alu
  import opened MeChelle
  import opened Memory

  /** The letter the byte-wide compare is exercised against. */
  const Probe: Byte := 0x78  // 'x'

  /**
   * The byte-wide test. A wrapping byte counter i runs through all 256
   * values, twice, in do-while loops that stop when i wraps back to 0; each
   * compare result indexes a two-entry array of byte counters, so a result
   * other than 0 or 1 would index out of bounds. The first loop compares
   * Probe with i, the second compares i with itself. Both pairs of counters
   * are returned as they stand after each loop, together with the final
   * compare of Probe with itself. The ghost results say that the first loop
   * runs 256 rounds and leaves i wrapped to 0, where the second loop starts.
   * The second loop increments counter 1 on all 256 rounds, so the byte
   * counter wraps to 0; the ghost result selfHits records those increments.
   */
  method TestUInt8()
    returns (first: (Byte, Byte), second: (Byte, Byte), sanity: Byte,
             ghost probeRounds: nat, ghost wrapped: Byte, ghost selfHits: nat)
    ensures probeRounds == 256 && wrapped == 0
    ensures first == (255, 1)
    ensures second == (0, 0) && selfHits == 256
    ensures sanity != 0
  {
    var counted := new Byte[2](_ => 0);
    var c: Byte := 0;
    var i: Byte := 0;
    ghost var n: nat := 0;  // rounds done so far
    while true
      invariant n < 256 && i as int == n
      invariant counted.Length == 2
      invariant counted[1] == (if Probe < i then 1 else 0)
      invariant counted[0] == i - counted[1]
      decreases 256 - n
    {
      c := MeChelleCompareUInt8(Probe, i);
      counted[c] := counted[c] + 1;
      i := i + 1;
      n := n + 1;
      if i == 0 {
        break;
      }
    }
    first := (counted[0], counted[1]);
    probeRounds, wrapped := n, i;

    counted[0], counted[1] := 0, 0;
    n, selfHits := 0, 0;
    while true
      invariant n < 256 && i as int == n
      invariant counted.Length == 2
      invariant selfHits == n && counted[0] == 0 && counted[1] == i
      decreases 256 - n
    {
      c := MeChelleCompareUInt8(i, i);
      counted[c] := counted[c] + 1;
      selfHits := selfHits + c as nat;
      i := i + 1;
      n := n + 1;
      if i == 0 {
        break;
      }
    }
    second := (counted[0], counted[1]);

    sanity := MeChelleCompareUInt8(Probe, Probe);
  }

  /** The 64-bit test vectors: both zero, both all ones, an equal non-trivial
      pattern, and two patterns one bit apart. */
  lemma TestUInt64()
    ensures MeChelleCompareUInt64(0x0000000000000000, 0x0000000000000000) == 1
    ensures MeChelleCompareUInt64(0xffffffffffffffff, 0xffffffffffffffff) == 1
    ensures MeChelleCompareUInt64(0x4D654368656C6C65, 0x4D654368656C6C65) == 1
    ensures MeChelleCompareUInt64(0x4D654368656C6C64, 0x4D654368656C6C65) == 0
  {
  }

  /** Two zero-filled 1024-byte buffers: the buffer compare reports 1 and
      agrees with memcmp reporting 0. */
  method TestMemCmpZeroed() returns (result: Byte)
    ensures result == 1
    ensures result == (if MemCmp(seq(1024, _ => 0), seq(1024, _ => 0), 1024) == 0 then 1 else 0)
  {
    var size := 1024;
    var a: seq<Byte> := seq(size, _ => 0);
    var b: seq<Byte> := seq(size, _ => 0);
    ghost var words, tail;
    result, words, tail := MeChelleCompareMemory(a, b, size);
  }
}
