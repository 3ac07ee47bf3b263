/**
 * MeChelle, the branchless equality test: complement one operand, XOR it
 * with the other, add one and keep the carry. The XOR gives the all-ones
 * word exactly when the operands are equal, and adding one to a word
 * carries out of the top bit exactly when the word is all ones.
 *
 * Each function below is one straight-line expression per instruction,
 * with no conditional, mirroring the four-instruction inline assembly.
 */
module MeChelle {
  import opened Alu

  /** The byte-wide compare: 1 when b == c, 0 otherwise. */
  function MeChelleCompareUInt8(b: Byte, c: Byte): (r: Byte)
    ensures r == 0 || r == 1
    ensures r == 1 <==> b == c
  {
    var notB := b ^ AllOnes8;   // XOR $0xFF,%1
    var x := notB ^ c;          // XOR %1,%2
    var add := Add8(x, 1);      // ADD $0x1,%2
    ComplementXorIsAllOnes8(b, c);
    IncrementCarries8(x);
    SetC(add.cf)                // SETC %0
  }

  /** The 64-bit compare, same four steps with the 64-bit all-ones mask.
      The result is a byte, as in the source's return type. */
  function MeChelleCompareUInt64(b: Word, c: Word): (r: Byte)
    ensures r == 0 || r == 1
    ensures r == 1 <==> b == c
  {
    var notB := b ^ AllOnes64;  // XOR $0xFFFFFFFFFFFFFFFF,%1
    var x := notB ^ c;          // XOR %1,%2
    var add := Add64(x, 1);     // ADD $0x1,%2
    ComplementXorIsAllOnes64(b, c);
    SetC(add.cf)                // SETC %0
  }

  /** The complement of b XOR c is all ones exactly when b == c: the first
      half of the argument behind both compares, which pass it on. */
  lemma ComplementXorIsAllOnes8(b: Byte, c: Byte)
    ensures (b ^ AllOnes8) ^ c == AllOnes8 <==> b == c
  {
  }

  lemma ComplementXorIsAllOnes64(b: Word, c: Word)
    ensures (b ^ AllOnes64) ^ c == AllOnes64 <==> b == c
  {
  }

  /** Adding one to a byte carries exactly when the byte is 0xFF: the second
      half of the argument (for words, Add64's own contract says it). */
  lemma IncrementCarries8(x: Byte)
    ensures Add8(x, 1).cf == 1 <==> x == AllOnes8
  {
  }
}
