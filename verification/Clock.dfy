/** Fixed-width integers and the wrapping millisecond clock shared by the
    controller and its timed instructions. */
module Clock {
  type uint8 = x: nat | x < 0x100
  type uint16 = x: nat | x < 0x1_0000
  type uint32 = x: nat | x < 0x1_0000_0000
  type int16 = x: int | -0x8000 <= x < 0x8000

  const HALF_RANGE: nat := 0x8000_0000

  /** `a + b` in 32-bit unsigned arithmetic. */
  function Plus(a: uint32, b: nat): uint32 {
    (a + b) % 0x1_0000_0000
  }

  /** `later - earlier` in 32-bit unsigned arithmetic. */
  function Since(later: uint32, earlier: uint32): uint32 {
    (later - earlier) % 0x1_0000_0000
  }

  /** A deadline counts as reached for half the clock range after it. */
  predicate Reached(timestamp: uint32, deadline: uint32) {
    Since(timestamp, deadline) < HALF_RANGE
  }

  lemma {:induction false} PlusIsNotReached(t: uint32, delay: nat)
    requires 0 < delay < HALF_RANGE
    ensures !Reached(t, Plus(t, delay))
  {
  }

  /** While less than the remaining wait has passed, a deadline stays ahead, and
      the remaining wait shrinks by exactly the time passed. */
  lemma {:induction false} EarlyIsNotReached(t: uint32, deadline: uint32, e: nat)
    requires !Reached(t, deadline) && e < Since(deadline, t)
    ensures !Reached(Plus(t, e), deadline)
    ensures Since(deadline, Plus(t, e)) == Since(deadline, t) - e
  {
  }

  lemma {:induction false} ElapsedGrows(t: uint32, start: uint32, e: nat)
    requires Since(t, start) + e < 0x1_0000_0000
    ensures Since(Plus(t, e), start) == Since(t, start) + e
  {
  }

  lemma {:induction false} ShiftSince(a: uint32, b: uint32, k: nat)
    ensures Since(Plus(a, k), Plus(b, k)) == Since(a, b)
  {
  }

  lemma {:induction false} ShiftPlus(a: uint32, b: nat, k: nat)
    ensures Plus(Plus(a, k), b) == Plus(Plus(a, b), k)
  {
  }
}
