/**
 * The "JS compatibility" encoding of a 64-bit unsigned value as two 32-bit
 * halves, [v >> 32, v & 0xffffffff], which the binding repeats for kernel
 * memory sizes, device ulong parameters and event profiling times. Its
 * doc-comment promises that ((hi << 32) | lo) gives the value back.
 */
module Split64 {

  const TwoTo32Int: int := 0x1_0000_0000

  /** A half: a value below 2^32. */
  predicate IsHalf(x: bv64) {
    x <= 0xffff_ffff
  }

  /** The two halves of a cl_ulong, computed as the source computes them. */
  function Split(v: bv64): (r: (bv64, bv64))
    ensures IsHalf(r.0) && IsHalf(r.1)
  {
    (v >> 32, v & 0xffff_ffff)
  }

  /** The reconstruction the doc-comment gives: ((hi << 32) | lo). */
  function Join(hi: bv64, lo: bv64): bv64 {
    (hi << 32) | lo
  }

  /** The halves are the quotient and remainder of the value by 2^32. */
  lemma SplitArithmetic(v: bv64)
    ensures Split(v).0 * 0x1_0000_0000 + Split(v).1 == v
    ensures Split(v).0 == v / 0x1_0000_0000 && Split(v).1 == v % 0x1_0000_0000
  {
  }

  /** The promised round trip: joining the two halves gives the value back. */
  lemma JoinSplit(v: bv64)
    ensures Join(Split(v).0, Split(v).1) == v
  {
  }

  /** Splitting is also the inverse of joining, so no two values share their halves. */
  lemma SplitJoin(hi: bv64, lo: bv64)
    requires IsHalf(hi) && IsHalf(lo)
    ensures Split(Join(hi, lo)) == (hi, lo)
  {
  }
}
