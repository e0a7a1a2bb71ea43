# twistlock `add` in Dafny

The crate exposes one function, `add(left: usize, right: usize) -> usize`. It returns `left + right`. It has one unit test, `it_works`, which checks that `add(2, 2) == 4`.

This project models that function over Rust's `usize`. A `usize` is pointer-sized, and the model takes a 64-bit target: `usize` is the newtype of integers in `[0, 2^64 - 1]` (`Lib.usize`, `Lib.USIZE_MAX`).

Rust's `+` on `usize` behaves differently in the two build profiles, which the source does not choose between:

- `Lib.Add` is the function under overflow checks, which is the debug-build default. Its precondition `Fits(left, right)` says the sum is at most `usize::MAX`. That is exactly when the checked `+` does not panic. Dafny checks every newtype sum against the type's range, and that check fails on exactly the inputs where Rust's checked `+` panics.
- `Lib.AddDebug` is the same operation made total. It returns `Returned(sum)` when the sum fits and `Panicked` otherwise, so the panic is modelled as an outcome.
- `Lib.AddRelease` is the release-profile alternative. It has no overflow checks and wraps modulo 2^64.

`Lib.Increments` and `Lib.WrappingIncrements` are independent reference definitions. They are not in the source. They define addition as `right` successive increments of `left`, each of which either panics or wraps at `usize::MAX`. Lemmas prove, by induction, that both profiles of `+` agree with them on all inputs.

The module `LibTests` (file `lib_tests.dfy`) restates the crate's `tests` module and the boundary cases as lemmas.

## Model

| member | source | states |
|---|---|---|
| `Lib.Add` | src/lib.rs:8-10 | Whenever the sum fits in `usize`, `add(left, right)` is the mathematical sum `left + right`. The result is a `usize` and is at least each operand. The only precondition is that the sum does not exceed `usize::MAX`. |
| `Lib.AddDebug` | src/lib.rs:9 | With overflow checks on, `+` panics exactly when `left + right > usize::MAX`, so overflow is the only error. Otherwise it returns the mathematical sum. |
| `Lib.AddRelease` | src/lib.rs:9 | In a release build without overflow checks, `+` returns the sum when it fits and the sum minus 2^64 when it overflows. |
| `Lib.AddDebugIsIncrements` | src/lib.rs:9 | For all inputs, the checked `+` equals `right` checked increments of `left`, including when it panics. |
| `Lib.AddReleaseIsWrappingIncrements` | src/lib.rs:9 | For all inputs, the wrapping `+` equals `right` wrapping increments of `left`. |
| `Lib.AddCommutative` | src/lib.rs:9 | If `add(a, b)` does not overflow, then `add(b, a)` does not either, and the two are equal. |
| `Lib.AddZeroIdentity` | src/lib.rs:9 | Zero is a left and a right identity, and adding it never overflows. |
| `Lib.AddAssociative` | src/lib.rs:9 | If `(a + b) + c` does not overflow, then `a + (b + c)` does not either, and the two are equal. |
| `Lib.AddCancel` | src/lib.rs:9 | With a fixed right operand and no overflow, `add` is injective in its left operand. |
| `Lib.AddReleaseAgreesWithAddDebug` | src/lib.rs:9 | Wherever the checked `+` returns, the wrapping `+` returns the same value. |
| `Lib.AddReleaseOverflowDetect` | src/lib.rs:9 | The wrapped sum is below either operand exactly when the sum overflowed. This is the carry test. |
| `Lib.AddReleaseCommutative` | src/lib.rs:9 | The wrapping `+` is commutative on all inputs. |
| `Lib.AddReleaseAssociative` | src/lib.rs:9 | The wrapping `+` is associative on all inputs. |
| `LibTests.ItWorks` | src/lib.rs:16-20 | The test `it_works`: `add(2, 2)` does not overflow and returns 4. |
| `LibTests.AddZeroZero` | src/lib.rs:8-10 | `add(0, 0)` returns 0. |
| `LibTests.AddOneZero` | src/lib.rs:8-10 | `add(1, 0)` returns 1. |
| `LibTests.AddAtMax` | src/lib.rs:9 | `add(usize::MAX, 0)` returns `usize::MAX`. `usize::MAX + 1` panics with overflow checks and wraps to 0 without them. |

## Left out

- The crate-level lint attributes (src/lib.rs:1-6) are left out. They configure the compiler and have no run-time behaviour.
- The model does not say which build profile is used, because the source does not fix it. Both profiles are modelled, as `Lib.AddDebug` and `Lib.AddRelease`.
- The model takes a 64-bit pointer width. On a 32-bit or 16-bit target, `usize::MAX` would be smaller.
- The Rust test harness (`#[cfg(test)]`, `#[test]`, `assert_eq!`) is left out. Its one assertion is the lemma `LibTests.ItWorks`.
- The panic message and the unwinding it triggers are left out. A panic is the single outcome `Panicked`.
