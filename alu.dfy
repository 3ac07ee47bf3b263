/**
 * The x86 integer operations that the MeChelle primitive is built from,
 * as arithmetic on fixed-width bit-vectors: XOR (native on bit-vectors),
 * ADD with the carry flag it produces, and SETC, which copies the carry
 * flag into a byte register.
 */
module Alu {

  type Byte = bv8
  type Word = bv64

  const AllOnes8: Byte := 0xFF
  const AllOnes64: Word := 0xFFFF_FFFF_FFFF_FFFF

  /** What an ADD leaves behind: the wrapped sum in the destination
      register and the carry flag CF (unsigned overflow out of the top bit). */
  datatype AddResult<T> = AddResult(sum: T, cf: bv1)

  /** ADD on 8-bit operands. The carry is read off bit 8 of a 9-bit sum, so
      the definition itself contains no comparison and no branch. */
  function Add8(x: Byte, y: Byte): (r: AddResult<Byte>)
    ensures r.cf == 1 <==> x as int + y as int >= 0x100
    ensures r.cf == 1 <==> r.sum < x
  {
    var wide := x as bv9 + y as bv9;
    AddResult(x + y, (wide >> 8) as bv1)
  }

  /** ADD on 64-bit operands, carry read off bit 64 of a 65-bit sum. */
  function Add64(x: Word, y: Word): (r: AddResult<Word>)
    ensures y == 1 ==> (r.cf == 1 <==> x == AllOnes64)
    ensures y == 1 ==> (r.cf == 1 <==> r.sum == 0)
  {
    var wide := x as bv65 + y as bv65;
    AddResult(x + y, (wide >> 64) as bv1)
  }

  /** SETC: the destination byte becomes 1 when CF is set and 0 otherwise. */
  function SetC(cf: bv1): (r: Byte)
    ensures r == 0 || r == 1
    ensures r == 1 <==> cf == 1
  {
    cf as Byte
  }
}
