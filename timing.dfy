/**
 * The reading index of a timed sensor as a function of elapsed minutes. A sensor
 * with update frequency f over n readings shows reading (t / f) mod n after t
 * minutes; the tick rule only recomputes the index when t is a multiple of f.
 */
module Timing {
  import opened Arith

  /** Closed form of the current index after t minutes. */
  function IndexAt(t: nat, f: int, n: int): (i: nat)
    requires f >= 1 && n >= 1
    ensures i < n
  {
    (t / f) % n
  }

  /** One tick, moving time from t to t + 1: the index is recomputed only on a multiple of f. */
  function TickIndex(t: nat, index: nat, f: int, n: int): nat
    requires f >= 1 && n >= 1
  {
    if (t + 1) % f == 0 then ((t + 1) / f) % n else index
  }

  /** The index reached by starting at 0 and applying the tick rule k times. */
  function IndexAfterTicks(k: nat, f: int, n: int): nat
    requires f >= 1 && n >= 1
  {
    if k == 0 then 0 else TickIndex(k - 1, IndexAfterTicks(k - 1, f, n), f, n)
  }

  /** A tick that does not land on a multiple of f leaves the closed form unchanged. */
  lemma StepWithinPeriod(t: nat, f: int, n: int)
    requires f >= 1 && n >= 1 && (t + 1) % f != 0
    ensures IndexAt(t + 1, f, n) == IndexAt(t, f, n)
  {
    var q, r := t / f, t % f;
    if r + 1 < f {
      DivModUnique(t + 1, f, q, r + 1);
    } else {
      DivModUnique(t + 1, f, q + 1, 0);
    }
  }

  /** The closed form is exactly what repeated ticks from construction produce. */
  lemma {:induction false} TicksMatchClosedForm(k: nat, f: int, n: int)
    requires f >= 1 && n >= 1
    ensures IndexAfterTicks(k, f, n) == IndexAt(k, f, n)
  {
    if k > 0 {
      TicksMatchClosedForm(k - 1, f, n);
      if k % f != 0 {
        StepWithinPeriod(k - 1, f, n);
      }
    }
  }

  /** The index, hence the reading, only moves on a multiple of the update frequency. */
  lemma ChangesOnlyAtMultiples(t: nat, f: int, n: int)
    requires f >= 1 && n >= 1
    requires IndexAt(t + 1, f, n) != IndexAt(t, f, n)
    ensures (t + 1) % f == 0
  {
    if (t + 1) % f != 0 {
      StepWithinPeriod(t, f, n);
    }
  }

  /** The reading sequence repeats with period f * n. */
  lemma Periodic(t: nat, f: int, n: int)
    requires f >= 1 && n >= 1
    ensures IndexAt(t + f * n, f, n) == IndexAt(t, f, n)
  {
    var q, r := t / f, t % f;
    DivModUnique(t + f * n, f, q + n, r);
    var a, b := q / n, q % n;
    DivModUnique(q + n, n, a + 1, b);
  }

  /** With frequency 1 every tick advances the index circularly. */
  lemma FrequencyOne(t: nat, n: int)
    requires n >= 1
    ensures IndexAt(t, 1, n) == t % n
  {
  }

  /** Frequency 2 over three readings: index 0 at minutes 0 and 1, 1 at minute 2, 0 again at 6. */
  lemma IndexExample()
    ensures IndexAt(0, 2, 3) == 0 && IndexAt(1, 2, 3) == 0
    ensures IndexAt(2, 2, 3) == 1 && IndexAt(6, 2, 3) == 0
  {
  }
}
