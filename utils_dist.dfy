/**
 * The compiled copy of the helpers in `dist/src/Utils.js`. Its `IsPowerOfTwo` is
 * transcribed on its own here and proved to agree with the one of `Utils` on every
 * 32-bit input, so the facts proved there carry over.
 */
module UtilsDist {
  import Utils

  /** `IsPowerOfTwo(val)` of the compiled file, over the int32 bit pattern of `val`. */
  function IsPowerOfTwo(val: bv32): (r: bool)
    ensures r == Utils.IsPowerOfTwo(val)
  {
    (val & (val - 1)) == 0 && val != 0
  }

  /**
   * Zero fails the test, 2^k passes it for every k below 31, and on the positive int32
   * values nothing else passes it; six is a value that fails.
   */
  lemma PowerOfTwoCharacterized(v: bv32)
    ensures !IsPowerOfTwo(0)
    ensures forall k: bv32 :: k < 31 ==> IsPowerOfTwo(Utils.Pow2(k))
    ensures 0 < v < 0x8000_0000 ==> (IsPowerOfTwo(v) <==> exists k: bv32 :: k < 31 && v == Utils.Pow2(k))
    ensures IsPowerOfTwo(1) && !IsPowerOfTwo(6)
  {
    Utils.PowerOfTwoSamples();
    forall k: bv32 | k < 31
      ensures IsPowerOfTwo(Utils.Pow2(k))
    {
      Utils.Pow2IsPowerOfTwo(k);
    }
    if 0 < v < 0x8000_0000 {
      Utils.PowerOfTwoPositive(v);
    }
  }
}
