/**
 * The two index and angle helpers of the rotation tab: wrapping an angle
 * into a half-open interval, and stepping an index around a circular buffer.
 */
module Rotation {
  import opened Common

  // ---------------------------------------------------------------------
  // Real-arithmetic facts, each stated over atoms so the solver can use them
  // ---------------------------------------------------------------------

  lemma DivisionCancels(x: real, d: real)
    requires d != 0.0
    ensures (x / d) * d == x
  {
  }

  lemma ScaleStrict(a: real, b: real, d: real)
    requires d > 0.0 && a < b
    ensures a * d < b * d
  {
  }

  lemma ScaleMonotone(a: real, b: real, d: real)
    requires d > 0.0 && a <= b
    ensures a * d <= b * d
  {
  }

  lemma ScaleSuccessor(a: real, d: real)
    ensures (a + 1.0) * d == a * d + d
  {
  }

  lemma ScaleDifference(k: real, up: real, down: real, d: real)
    requires k == up - down
    ensures k * d == up * d - down * d
  {
  }

  /** Some whole number of positive steps d exceeds any x: this bounds both loops of ReduceAngle. */
  lemma Archimedes(x: real, d: real) returns (n: nat)
    requires d > 0.0
    ensures x < (n as real) * d
  {
    if x < 0.0 {
      n := 0;
    } else {
      var q := x / d;
      n := q.Floor + 1;
      DivisionCancels(x, d);
      ScaleStrict(q, n as real, d);
    }
  }

  // ---------------------------------------------------------------------
  // reduceAngle
  // ---------------------------------------------------------------------

  /**
   * Subtract the period while the angle is at or above max, then add it
   * while the angle is below min. With max <= min the first loop never ends
   * for an angle >= max, so max > min is what callers must guarantee.
   * The ghost k counts net periods added.
   */
  method ReduceAngle(angle: real, min: real, max: real) returns (r: real, ghost k: int)
    requires max > min
    ensures min <= r < max
    ensures r == angle + (k as real) * (max - min)
    ensures min <= angle < max ==> r == angle && k == 0
  {
    var d := max - min;
    r := angle;
    ghost var n := Archimedes(angle - max, d);
    ghost var down: nat := 0;
    while r >= max
      invariant r == angle - (down as real) * d
      invariant down <= n
      invariant angle < max ==> down == 0
      invariant min <= angle ==> min <= r
      decreases n - down
    {
      if down >= n {
        ScaleMonotone(n as real, down as real, d);
      }
      ScaleSuccessor(down as real, d);
      r := r - d;
      down := down + 1;
    }
    ghost var reduced := r;
    ghost var m := Archimedes(min - r, d);
    ghost var up: nat := 0;
    while r < min
      invariant r == reduced + (up as real) * d
      invariant r < max
      invariant up <= m
      invariant min <= angle ==> min <= reduced && up == 0
      decreases m - up
    {
      if up >= m {
        ScaleMonotone(m as real, up as real, d);
      }
      ScaleSuccessor(up as real, d);
      r := r + d;
      up := up + 1;
    }
    k := up - down;
    ScaleDifference(k as real, up as real, down as real, d);
  }

  // ---------------------------------------------------------------------
  // circularIndex, on 64-bit size_t
  // ---------------------------------------------------------------------

  const SIZE_MODULUS: int := 0x1_0000_0000_0000_0000
  type size_t = n: int | 0 <= n < SIZE_MODULUS

  /**
   * Increment: (idx + 1) mod modulus, with idx + 1 wrapping at 2^64 first.
   * Decrement: modulus - 1 at idx 0 (wrapping to 2^64 - 1 when modulus is 0),
   * otherwise idx - 1. Increment divides by modulus, so it needs modulus > 0.
   */
  function CircularIndex(idx: size_t, increment: bool, modulus: size_t): (r: size_t)
    requires increment ==> modulus > 0
    ensures increment ==> r < modulus
    ensures increment && idx + 1 < modulus ==> r == idx + 1
    ensures increment && idx + 1 == modulus ==> r == 0
    ensures !increment && idx > 0 ==> r == idx - 1
    ensures !increment && idx == 0 && modulus > 0 ==> r == modulus - 1
    ensures !increment && idx == 0 && modulus == 0 ==> r == SIZE_MODULUS - 1
  {
    if increment then ((idx + 1) % SIZE_MODULUS) % modulus
    else if idx == 0 then (modulus + SIZE_MODULUS - 1) % SIZE_MODULUS
    else idx - 1
  }

  /** Within a buffer, stepping forward is the cyclic successor used for boundary walls. */
  lemma IncrementIsCyclicSuccessor(idx: size_t, modulus: size_t)
    requires idx < modulus
    ensures CircularIndex(idx, true, modulus) == CyclicSuccessor(idx, modulus)
  {
  }

  /** Within a buffer, both directions stay inside it. */
  lemma CircularIndexInBounds(idx: size_t, increment: bool, modulus: size_t)
    requires idx < modulus
    ensures CircularIndex(idx, increment, modulus) < modulus
  {
  }

  /** Within a buffer, stepping back undoes stepping forward and vice versa. */
  lemma CircularIndexSteps(idx: size_t, modulus: size_t)
    requires idx < modulus
    ensures CircularIndex(CircularIndex(idx, true, modulus), false, modulus) == idx
    ensures CircularIndex(CircularIndex(idx, false, modulus), true, modulus) == idx
  {
  }
}
