/** The crate's unit test `it_works`, and the boundary cases of `add`, as lemmas. */
module LibTests {
  import opened Lib

  /** `it_works`: `add(2, 2)` is 4. */
  lemma ItWorks()
    ensures Fits(2, 2) && Add(2, 2) == 4
  {
  }

  lemma AddZeroZero()
    ensures Fits(0, 0) && Add(0, 0) == 0
  {
  }

  lemma AddOneZero()
    ensures Fits(1, 0) && Add(1, 0) == 1
  {
  }

  /** At `usize::MAX`: adding 0 returns it, adding 1 panics (debug) or wraps to 0 (release). */
  lemma AddAtMax()
    ensures Fits(USIZE_MAX as usize, 0) && Add(USIZE_MAX as usize, 0) as int == USIZE_MAX
    ensures AddDebug(USIZE_MAX as usize, 1) == Panicked
    ensures AddRelease(USIZE_MAX as usize, 1) == 0
  {
  }
}
