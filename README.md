# MeChelleCompare in Dafny

MeChelleCompare is a proof of concept for a branchless, constant-time
equality test. It compares two values with four x86 instructions:

1. XOR one operand with the all-ones mask, which gives its complement.
2. XOR the complement into the other operand.
3. ADD one.
4. SETC, which copies the carry flag into a byte.

The XOR gives the all-ones word exactly when the operands are equal. Adding
one to a word carries out of the top bit exactly when the word is all ones.
So the captured carry is 1 for equal operands and 0 otherwise, and the code
needs no conditional branch.

The model has four modules:

- `Alu` (alu.dfy) holds the x86 operations on `bv8`/`bv64`. ADD returns the
  wrapped sum and the carry flag, with the carry read off the top bit of a
  wider sum. SETC is a zero-extension of the carry.
- `MeChelle` (mechelle.dfy) holds `MeChelleCompareUInt8` and
  `MeChelleCompareUInt64`. Each is written as straight-line code with one
  step per instruction and no `if`. Each is proved to return only 0 or 1,
  and 1 exactly when its operands are equal.
- `Memory` (memory.dfy) holds the buffer compare `MeChelleCompareMemory`, a
  method with loops. It compares full 8-byte words with the 64-bit compare,
  loaded little-endian as on x86. It compares the remaining `size % 8` bytes
  one at a time with the byte compare. It combines every result with a
  bitwise AND and never exits early. It is proved to return 1 exactly when the
  first `size` bytes agree, which is also exactly when `memcmp` returns 0.
  `memcmp` is modelled as `MemCmp`, which returns the sign of the first
  differing byte.
- `Tests` (tests.dfy) holds the repository's test drivers. Each runtime
  `assert` is stated as a postcondition. The byte test keeps the source's
  wrapping `uint8_t` loop counter, its two-entry `counted` array indexed by
  the compare result, and its do-while loops. The verifier therefore proves
  the array index in bounds on every round. It also proves the final counts,
  including the deliberate wrap of `counted[1]` from 256 to 0.

The source of `MeChelleCompareMemory` (src/test.c:53-77) is unfinished and
does not compile. This model gives the intended loop instead: a step of
`sizeof(size_t)` = 8 bytes, the all-ones mask, a running index, and the
64-bit compare on each word. The source says nothing about a length that is
not a multiple of 8. The model accepts any length and compares the tail
bytes with the byte compare. The only precondition is the caller's own
obligation: both buffers must hold at least `size` readable bytes.

The test at src/test.c:186 calls `memcmp(a, b)` with no length argument. The
model reads it as `memcmp(a, b, size)`. That test also sits after an
unconditional `return 0;` (line 177), so it never runs. The model states and
proves its assertion anyway.

## Model

| member | source | states |
|---|---|---|
| Alu.Add8 | src/test.c:30 | ADD on bytes: the carry flag is set exactly when the unsigned sum of the operands reaches 256, equivalently exactly when the wrapped sum is below the first operand |
| Alu.Add64 | src/test.c:46 | ADD on 64-bit words, for the increment by one the source performs: the carry is set exactly when the operand is all ones, which is exactly when the sum wraps to 0 |
| Alu.SetC | src/test.c:31 | SETC yields only 0 or 1, and 1 exactly when the carry flag is set |
| MeChelle.MeChelleCompareUInt8 | src/test.c:22-35 | the byte compare returns only 0 or 1, and 1 if and only if b == c, for all 256 x 256 inputs |
| MeChelle.MeChelleCompareUInt64 | src/test.c:37-51 | the 64-bit compare returns only 0 or 1, and 1 if and only if b == c |
| MeChelle.ComplementXorIsAllOnes8 | src/test.c:28-29 | (b XOR 0xFF) XOR c is 0xFF exactly when b == c |
| MeChelle.ComplementXorIsAllOnes64 | src/test.c:44-45 | (b XOR all-ones) XOR c is all ones exactly when b == c |
| MeChelle.IncrementCarries8 | src/test.c:30-31 | adding 1 to a byte carries exactly when the byte is 0xFF |
| Memory.LoadWord | src/test.c:59 | the word loaded from 8 bytes at an offset splits back into exactly those 8 bytes |
| Memory.LoadStoreWord | src/test.c:59 | splitting a word into bytes and loading them back gives the same word |
| Memory.LoadWordEqual | src/test.c:59-60 | two words loaded at the same offset are equal exactly when the two 8-byte chunks are equal |
| Memory.MemCmp | src/test.c:186 | memcmp returns a negative, zero or positive sign |
| Memory.MemCmpZeroIffEqual | src/test.c:186 | memcmp over n bytes is 0 exactly when the first n bytes are pairwise equal |
| Memory.MeChelleCompareMemory | src/test.c:53-77 | the buffer compare returns only 0 or 1. It returns 1 exactly when all size bytes are pairwise equal, and exactly when memcmp returns 0. It runs size / 8 word rounds and size % 8 byte rounds whatever the contents, each round performing one compare |
| Tests.TestUInt8 | src/test.c:93-138 | with 'x' fixed and a wrapping byte counter over all 256 values, the first loop runs 256 rounds, exits with the counter wrapped to 0, and the counters end at 255 zeros and 1 one. Comparing each byte with itself counts 256 ones, so the byte counter wraps to 0 and the zero counter stays 0. Comparing 'x' with 'x' gives a nonzero result |
| Tests.TestUInt64 | src/test.c:143-153 | the 64-bit vectors: (0,0), (all ones, all ones) and the equal 0x4D654368656C6C65 pair give 1, and the pair differing in the lowest bit gives 0 |
| Tests.TestMemCmpZeroed | src/test.c:171-189 | two zero-filled 1024-byte buffers compare as equal (1), in agreement with memcmp returning 0 |

## Left out

- Alu.Add64: the carry law is stated only for the `+1` that the source adds, not for arbitrary 64-bit addends. The general law is costly for the solver at 64 bits. At 8 bits `Alu.Add8` states it in full.
- The constant-time claim itself, and `measure` (src/test.c:155-166), which times runs with `clock_gettime` and prints the result. The model can only mirror the branch-free shape: the scalar compares contain no `if`, and the buffer compare ANDs every chunk without exiting early. Its ghost results count the loop rounds, each of which performs exactly one compare, and that count depends on `size` alone.
- `main` (src/test.c:82-87), the `printf` calls in the tests, and the `GIZMORE_DEBUG` tracing. These are output only.
- GCC inline-assembly details. These are register allocation, the asm writing to its input operands, operand-width suffixes, and the sign-extended 32-bit immediate behind `$0xFFFFFFFFFFFFFFFF`. The model covers the arithmetic the instructions perform, not the x86 encoding.
- The parts of `MeChelleCompareMemory` that do not compile: the C label `loop:`, the asm label `LOOP:`, the empty immediate at line 69, the undefined `c`, and the uninitialised `eax`. The model gives the intended loop instead.
- Pointers and integer widths in the buffer compare. The buffers are immutable byte sequences, and `size` and the index are unbounded naturals. The loop tests `size - i >= 8`, so a `uint64_t` index can never overflow.
- `malloc` and `memset` in `testMEMCMP_zeroed`. The two zeroed buffers are given as sequences of 1024 zeros.
- MemCmp: C's `memcmp` promises only the sign of its result, so the model returns -1, 0 or 1 rather than a byte difference.
- src/mechellecompare.c: `mechelle_memcmp` returns 0 unconditionally and takes no length. It contains no logic to model.
