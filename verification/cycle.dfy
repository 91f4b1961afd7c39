/** The index-wrapping rule shared by the project sliders (`updateSlider`)
    and the lightbox (`navigateLightbox`): a requested index below zero
    becomes the last slot, one at or past the end becomes the first slot,
    and any other index is kept. Both handlers apply the two tests one
    after the other, so with no slots at all a negative request yields -1. */
module Cycle {

  /** The slot that a request for `index` lands on, among `length` slots. */
  function Wrap(index: int, length: nat): (r: int)
    ensures index < 0 ==> r == length - 1
    ensures index >= length ==> r == 0
    ensures 0 <= index < length ==> r == index
    ensures length >= 1 ==> 0 <= r < length
  {
    var below := if index < 0 then length - 1 else index;
    if below >= length then 0 else below
  }

  /** One press of "next" (`direction` 1) or "previous" (`direction` -1). */
  function Step(index: int, direction: int, length: nat): (r: int)
    ensures length >= 1 ==> 0 <= r < length
    ensures 0 <= index + direction < length ==> r == index + direction
    ensures direction == 1 && index == length - 1 ==> r == 0
    ensures direction == -1 && index == 0 ==> r == length - 1
  {
    Wrap(index + direction, length)
  }

  /** From a slot in range, a single step is addition modulo the number of slots. */
  lemma StepIsModular(index: int, direction: int, length: nat)
    requires 0 <= index < length
    requires direction == 1 || direction == -1
    ensures Step(index, direction, length) == (index + direction) % length
  {
  }

  /** Euclidean remainder is determined by any quotient/remainder split. */
  lemma ModUnique(k: int, n: nat, q: int, m: int)
    requires n > 0 && 0 <= m < n && k == q * n + m
    ensures k % n == m
  {
    var q', m' := k / n, k % n;
    var d := q - q';
    assert d * n == q * n - q' * n;
    assert d * n == m' - m;
  }

  /** A forward step undone by a backward step, and the other way round. */
  lemma StepRoundTrip(index: int, length: nat)
    requires 0 <= index < length
    ensures Step(Step(index, 1, length), -1, length) == index
    ensures Step(Step(index, -1, length), 1, length) == index
  {
  }

  /** The slot reached from `index` after `k` presses in `direction`. */
  function Presses(index: int, direction: int, length: nat, k: nat): int
  {
    if k == 0 then index else Step(Presses(index, direction, length, k - 1), direction, length)
  }

  /** `k` presses in one direction move `k` slots around the cycle, so
      `length` presses bring the viewer back to where it started. */
  lemma {:induction false} PressesAreModular(index: int, direction: int, length: nat, k: nat)
    requires 0 <= index < length
    requires direction == 1 || direction == -1
    ensures Presses(index, direction, length, k) == (index + direction * k) % length
  {
    if k == 0 {
      ModUnique(index, length, 0, index);
    } else {
      var a := index + direction * (k - 1);
      PressesAreModular(index, direction, length, k - 1);
      StepIsModular(a % length, direction, length);
      ModShift(a, direction, length);
      assert a + direction == index + direction * k;
    }
  }

  /** Adding to a remainder and reducing again is the same as adding first. */
  lemma ModShift(a: int, d: int, n: nat)
    requires n > 0
    ensures (a % n + d) % n == (a + d) % n
  {
    var q1, r1 := a / n, a % n;
    var q2, r2 := (r1 + d) / n, (r1 + d) % n;
    assert a + d == q1 * n + q2 * n + r2;
    assert q1 * n + q2 * n == (q1 + q2) * n;
    ModUnique(a + d, n, q1 + q2, r2);
  }

  /** A full lap of presses returns to the starting slot. */
  lemma FullLap(index: int, direction: int, length: nat)
    requires 0 <= index < length
    requires direction == 1 || direction == -1
    ensures Presses(index, direction, length, length) == index
  {
    PressesAreModular(index, direction, length, length);
    ModUnique(index + direction * length, length, direction, index);
  }
}
