/**
 * The crate's only operation, `add`, over Rust's `usize`.
 *
 * `usize` is the pointer-sized unsigned integer; this model takes a 64-bit
 * target, so a `usize` is an integer in [0, 2^64 - 1].
 *
 * Rust's `+` on `usize` depends on the build profile: with overflow checks
 * on (debug builds) a sum above `usize::MAX` panics, and with them off
 * (release builds) it wraps modulo 2^64. `Add` is the contract of the
 * checked `+` (a caller must keep the sum in range), `AddDebug` is the same
 * operation made total with the panic as an outcome, and `AddRelease` is the
 * release-profile alternative.
 */
module Lib {

  /** `usize::MAX` on a 64-bit target: 2^64 - 1. */
  const USIZE_MAX: int := 0xFFFF_FFFF_FFFF_FFFF

  /** 2^64: the number of distinct `usize` values. */
  const USIZE_MODULUS: int := USIZE_MAX + 1

  newtype usize = x: int | 0 <= x <= USIZE_MAX

  /** What evaluating `left + right` does in a build with overflow checks. */
  datatype Outcome = Returned(value: usize) | Panicked

  /** True when the mathematical sum is representable, i.e. `+` does not overflow. */
  predicate Fits(left: usize, right: usize) {
    left as int + right as int <= USIZE_MAX
  }

  /**
   * The crate's `add`: the sum of two `usize` values under Rust's checked `+`.
   * Dafny's range check on the newtype sum fails on exactly the inputs where
   * the checked `+` panics, so the precondition is the condition under which
   * the call returns.
   */
  function Add(left: usize, right: usize): (r: usize)
    requires Fits(left, right)
    ensures r as int == left as int + right as int
    ensures left <= r && right <= r
  {
    left + right
  }

  /** `add` in a debug build: the sum when it fits, a panic when it does not. */
  function AddDebug(left: usize, right: usize): (o: Outcome)
    ensures o.Panicked? <==> left as int + right as int > USIZE_MAX
    ensures o.Returned? ==> o.value as int == left as int + right as int
  {
    if Fits(left, right) then Returned(Add(left, right)) else Panicked
  }

  /** `add` in a release build (no overflow checks): the sum modulo 2^64. */
  function AddRelease(left: usize, right: usize): (r: usize)
    ensures Fits(left, right) ==> r as int == left as int + right as int
    ensures !Fits(left, right) ==> r as int == left as int + right as int - USIZE_MODULUS
  {
    ((left as int + right as int) % USIZE_MODULUS) as usize
  }

  // Reference definitions: addition as `n` successive increments by one.

  /** `n` checked increments of `v`; the first one past `USIZE_MAX` panics. */
  function Increments(v: usize, n: nat): Outcome
    decreases n
  {
    if n == 0 then Returned(v)
    else
      match Increments(v, n - 1)
      case Panicked => Panicked
      case Returned(w) => if w as int == USIZE_MAX then Panicked else Returned(w + 1)
  }

  /** `n` wrapping increments of `v`; an increment of `USIZE_MAX` gives 0. */
  function WrappingIncrements(v: usize, n: nat): usize
    decreases n
  {
    if n == 0 then v
    else
      var w := WrappingIncrements(v, n - 1);
      if w as int == USIZE_MAX then 0 else w + 1
  }

  /** The checked `+` is `right` checked increments of `left`, panic included. */
  lemma {:induction false} AddDebugIsIncrements(left: usize, right: usize)
    ensures AddDebug(left, right) == Increments(left, right as nat)
    decreases right
  {
    if right > 0 {
      AddDebugIsIncrements(left, right - 1);
    }
  }

  /** The wrapping `+` is `right` wrapping increments of `left`. */
  lemma {:induction false} AddReleaseIsWrappingIncrements(left: usize, right: usize)
    ensures AddRelease(left, right) == WrappingIncrements(left, right as nat)
    decreases right
  {
    if right > 0 {
      AddReleaseIsWrappingIncrements(left, right - 1);
    }
  }

  // Algebra of the checked `+`.

  lemma AddCommutative(a: usize, b: usize)
    requires Fits(a, b)
    ensures Fits(b, a) && Add(a, b) == Add(b, a)
  {
  }

  lemma AddZeroIdentity(a: usize)
    ensures Fits(a, 0) && Add(a, 0) == a
    ensures Fits(0, a) && Add(0, a) == a
  {
  }

  lemma AddAssociative(a: usize, b: usize, c: usize)
    requires Fits(a, b) && Fits(Add(a, b), c)
    ensures Fits(b, c) && Fits(a, Add(b, c))
    ensures Add(Add(a, b), c) == Add(a, Add(b, c))
  {
  }

  lemma AddCancel(a: usize, b: usize, c: usize)
    requires Fits(a, c) && Fits(b, c)
    ensures Add(a, c) == Add(b, c) <==> a == b
  {
  }

  // The release-profile `+` against the checked one.

  /** Where the checked `+` returns, the wrapping `+` returns the same value. */
  lemma AddReleaseAgreesWithAddDebug(left: usize, right: usize)
    ensures AddDebug(left, right).Returned? ==> AddRelease(left, right) == AddDebug(left, right).value
  {
  }

  /** The carry test: the wrapped sum is below an operand iff the sum overflowed. */
  lemma AddReleaseOverflowDetect(left: usize, right: usize)
    ensures AddRelease(left, right) < left <==> !Fits(left, right)
    ensures AddRelease(left, right) < right <==> !Fits(left, right)
  {
  }

  lemma AddReleaseCommutative(a: usize, b: usize)
    ensures AddRelease(a, b) == AddRelease(b, a)
  {
  }

  lemma AddReleaseAssociative(a: usize, b: usize, c: usize)
    ensures AddRelease(AddRelease(a, b), c) == AddRelease(a, AddRelease(b, c))
  {
  }
}
