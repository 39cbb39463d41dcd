/** The two-share masked algebra over 32-bit words, as hand-written in a masked
    test program (the masking tool itself never emits it): a secret word x is
    carried as a pair of shares (s1, s2) with x == s1 ^ s2. Every gadget takes its
    operands by value and returns a fresh pair; the random word a gadget draws from
    `get_random32` is an explicit parameter here, so each law below holds for every
    possible draw. */
module MaskedAlgebra {

  /** "Masked32": two 32-bit shares. */
  datatype Masked32 = Masked32(s1: bv32, s2: bv32)

  /** The plaintext a pair of shares stands for: either share is the plaintext
      masked with the other. */
  function Demask(m: Masked32): (x: bv32)
    ensures x ^ m.s2 == m.s1 && x ^ m.s1 == m.s2
  {
    m.s1 ^ m.s2
  }

  /** Masks `x` with the random draw `rnd`: the draw becomes the second share. */
  function Create(x: bv32, rnd: bv32): (m: Masked32)
    ensures m.s2 == rnd
    ensures Demask(m) == x
  {
    Masked32(x ^ rnd, rnd)
  }

  /** Share-wise XOR; draws no randomness. The result demasks to the XOR of the
      two plaintexts. */
  function Xor(x: Masked32, y: Masked32): (out: Masked32)
    ensures out.s1 ^ out.s2 == (x.s1 ^ x.s2) ^ (y.s1 ^ y.s2)
  {
    Masked32(x.s1 ^ y.s1, x.s2 ^ y.s2)
  }

  /** The AND gadget with fresh random word `r`. Whatever `r` is, the result
      demasks to the AND of the two plaintexts. */
  function And(x: Masked32, y: Masked32, r: bv32): (out: Masked32)
    ensures out.s1 ^ out.s2 == (x.s1 ^ x.s2) & (y.s1 ^ y.s2)
  {
    var t1 := x.s1 & y.s1;
    Masked32(t1 ^ r, r ^ (x.s1 & y.s2) ^ (x.s2 & y.s1) ^ (x.s2 & y.s2))
  }

  /** The gadget named "or": the AND gadget's shape with `|` in place of `&`. The
      fresh word cancels, leaving the XOR of the four OR cross terms of the shares,
      and those XOR to the AND of the plaintexts, not to their OR (see
      `OrCrossTerms` and `OrDemasksToAnd`). */
  function Or(x: Masked32, y: Masked32, r: bv32): (out: Masked32)
    ensures out.s1 ^ out.s2 == (x.s1 ^ x.s2) & (y.s1 ^ y.s2)
  {
    var t1 := x.s1 | y.s1;
    Masked32(t1 ^ r, r ^ (x.s1 | y.s2) ^ (x.s2 | y.s1) ^ (x.s2 | y.s2))
  }

  /** The four OR cross terms of two sharings XOR to the AND of the values they
      share. */
  lemma OrCrossTerms(a1: bv32, a2: bv32, b1: bv32, b2: bv32)
    ensures (a1 | b1) ^ (a1 | b2) ^ (a2 | b1) ^ (a2 | b2) == (a1 ^ a2) & (b1 ^ b2)
  {
  }

  /** The OR gadget as written does not compute OR: masking 0 and 1 and combining
      them demasks to 0, while 0 | 1 == 1. */
  lemma OrDemasksToAnd()
    ensures Demask(Or(Create(0, 0), Create(1, 0), 0)) == 0
    ensures Demask(Create(0, 0)) | Demask(Create(1, 0)) == 1
  {
  }

  /** A masked OR that does compute OR, from the identity a | b == a ^ b ^ (a & b):
      the AND gadget's shares with the share-wise XOR of the operands folded in. */
  function OrCorrected(x: Masked32, y: Masked32, r: bv32): (out: Masked32)
    ensures out.s1 ^ out.s2 == (x.s1 ^ x.s2) | (y.s1 ^ y.s2)
  {
    var t1 := (x.s1 ^ y.s1) ^ (x.s1 & y.s1);
    Masked32(t1 ^ r, r ^ (x.s2 ^ y.s2) ^ (x.s1 & y.s2) ^ (x.s2 & y.s1) ^ (x.s2 & y.s2))
  }

  /** The "naive" masked addition: each share pair is added separately (modulo
      2^32). The fresh word cancels, so the result demasks to the XOR of the two
      share sums. */
  function Add(x: Masked32, y: Masked32, r: bv32): (out: Masked32)
    ensures out.s1 ^ out.s2 == (x.s1 + y.s1) ^ (x.s2 + y.s2)
  {
    Masked32((x.s1 + y.s1) ^ r, (x.s2 + y.s2) ^ r)
  }

  /** Share-wise addition is not masked addition: the carries of the two share sums
      do not combine into the carries of the plaintext sum. Masking 1 and 0 with the
      draw 1 and adding them demasks to 3, not 1. */
  lemma AddIsNotSum()
    ensures Demask(Add(Create(1, 1), Create(0, 1), 0)) == 3
    ensures Demask(Create(1, 1)) + Demask(Create(0, 1)) == 1
  {
  }

  /** C's `<<` on a uint32_t. C leaves a shift by 32 or more undefined, so the
      amount is a 5-bit word. */
  function Shl(w: bv32, n: bv5): bv32
  {
    w << n
  }

  /** Shifting both shares left shifts the plaintext; the shift amount is public
      and is never masked. */
  function ShiftLeft(x: Masked32, shift: bv5): (out: Masked32)
    ensures out.s1 ^ out.s2 == Shl(x.s1 ^ x.s2, shift)
  {
    Masked32(Shl(x.s1, shift), Shl(x.s2, shift))
  }

  /** What a masked program relies on: masking two plaintexts with any draws and
      combining them with the AND gadget demasks to their AND, for every fresh word
      the gadget draws. */
  lemma AndOnFreshMasks(x: bv32, y: bv32, rx: bv32, ry: bv32, r: bv32)
    ensures Demask(And(Create(x, rx), Create(y, ry), r)) == x & y
  {
  }

  /** Whatever the draws, the "or" gadget on two fresh masks demasks to AND. */
  lemma OrOnFreshMasks(x: bv32, y: bv32, rx: bv32, ry: bv32, r: bv32)
    ensures Demask(Or(Create(x, rx), Create(y, ry), r)) == x & y
  {
  }

  lemma OrCorrectedOnFreshMasks(x: bv32, y: bv32, rx: bv32, ry: bv32, r: bv32)
    ensures Demask(OrCorrected(Create(x, rx), Create(y, ry), r)) == x | y
  {
  }
}
