/**
 * Animation cursors: a fractional index into a frame list, advanced every
 * tick and put back to 0 once it reaches the list's length.
 */
module Cursor {
  import opened Geometry

  type Cursor = c: real | 0.0 <= c

  /**
   * One tick of a cursor over a track of `len` frames: add `step`, and
   * restart at 0 when the sum reaches `len`.
   */
  function Advance(cursor: Cursor, step: real, len: nat): (c: Cursor)
    requires 0.0 < step && 0 < len
    ensures c < len as real
    ensures c == 0.0 <==> cursor + step >= len as real
    ensures c != 0.0 ==> c == cursor + step
  {
    if cursor + step >= len as real then 0.0 else cursor + step
  }

  /** The frame shown for a cursor: Python's int() of it. */
  function FrameAt(c: Cursor, len: nat): (i: nat)
    requires c < len as real
    ensures i < len && i as real <= c < i as real + 1.0
  {
    Trunc(c)
  }

  /** The cursor after `n` ticks on one track, starting from 0. */
  function Iterate(step: real, len: nat, n: nat): Cursor
    requires 0.0 < step && 0 < len
  {
    if n == 0 then 0.0 else Advance(Iterate(step, len, n - 1), step, len)
  }

  /** `n` steps of size `step` laid end to end: n * step, built one step at a time. */
  function Steps(step: real, n: nat): real {
    if n == 0 then 0.0 else Steps(step, n - 1) + step
  }

  /** Steps is the product it stands for. */
  lemma {:induction false} StepsIsProduct(step: real, n: nat)
    ensures Steps(step, n) == n as real * step
  {
    if n > 0 {
      StepsIsProduct(step, n - 1);
      ProductStep(n as real, step);
      assert (n - 1) as real == n as real - 1.0;
    }
  }

  /** Proof step for StepsIsProduct (distributivity), not a property of the game. */
  lemma ProductStep(a: real, step: real)
    ensures (a - 1.0) * step + step == a * step
  {}

  /** Fewer steps of a positive size cover less distance. */
  lemma {:induction false} StepsBelow(step: real, j: nat, k: nat)
    requires 0.0 < step && j < k
    ensures Steps(step, j) < Steps(step, k)
    decreases k
  {
    if j < k - 1 {
      StepsBelow(step, j, k - 1);
    }
  }

  /** Within the first cycle the cursor is the number of ticks times the step. */
  lemma {:induction false} IterateFirstCycle(step: real, len: nat, k: nat, j: nat)
    requires 0.0 < step && 0 < k && 0 < len && Steps(step, k) == len as real
    requires j < k
    ensures Iterate(step, len, j) == Steps(step, j)
  {
    if j > 0 {
      IterateFirstCycle(step, len, k, j - 1);
      StepsBelow(step, j, k);
    }
  }

  /**
   * When a track's length is `k` steps exactly, the cursor comes back to
   * where it was every `k` ticks: no drift across cycles.
   */
  lemma {:induction false} IteratePeriodic(step: real, len: nat, k: nat, n: nat)
    requires 0.0 < step && 0 < k && 0 < len && Steps(step, k) == len as real
    ensures Iterate(step, len, n + k) == Iterate(step, len, n)
  {
    if n == 0 {
      IterateFirstCycle(step, len, k, k - 1);
    } else {
      IteratePeriodic(step, len, k, n - 1);
    }
  }

  /**
   * The cursor after q full cycles and j more ticks is j * step: with
   * n = q * k + j, that is (n * step) mod len.
   */
  lemma {:induction false} IterateIsModulo(step: real, len: nat, k: nat, q: nat, j: nat)
    requires 0.0 < step && 0 < k && 0 < len && k as real * step == len as real
    requires j < k
    ensures Iterate(step, len, q * k + j) == j as real * step
  {
    StepsIsProduct(step, k);
    StepsIsProduct(step, j);
    AfterCycles(step, len, k, q, j);
  }

  lemma {:induction false} AfterCycles(step: real, len: nat, k: nat, q: nat, j: nat)
    requires 0.0 < step && 0 < k && 0 < len && Steps(step, k) == len as real
    requires j < k
    ensures Iterate(step, len, q * k + j) == Steps(step, j)
  {
    if q == 0 {
      IterateFirstCycle(step, len, k, j);
    } else {
      AfterCycles(step, len, k, q - 1, j);
      assert q * k + j == (q - 1) * k + j + k;
      IteratePeriodic(step, len, k, (q - 1) * k + j);
    }
  }
}
