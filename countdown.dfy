/** Arithmetic the game screens share: the one-second countdown of a timed
    game and the rounded percentage they show as accuracy. */
module Countdown {

  /** One tick of the countdown: at one second or less the game ends with
      zero left, otherwise a second is taken off. */
  function TickTime(t: nat): (r: nat)
    ensures t <= 1 <==> r == 0
    ensures t > 1 ==> r + 1 == t
  {
    if t <= 1 then 0 else t - 1
  }

  /** The time left after `n` ticks from `t`, the countdown stopping at zero. */
  function TimeAfter(t: nat, n: nat): nat
  {
    if n == 0 || t == 0 then t else TimeAfter(TickTime(t), n - 1)
  }

  /** From `t` seconds the countdown reaches zero after exactly `t` ticks,
      taking one second off per tick until then. */
  lemma {:induction false} CountdownLength(t: nat, n: nat)
    ensures TimeAfter(t, n) == if n >= t then 0 else t - n
    decreases n
  {
    if n > 0 && t > 0 {
      CountdownLength(TickTime(t), n - 1);
    }
  }

  /** `Math.round(part / whole * 100)` computed exactly: the percentage
      rounded half up, that is the `r` within one half of `100 * part / whole`. */
  function RoundedPercent(part: nat, whole: nat): (r: nat)
    requires whole > 0
    ensures 2 * whole * r <= 200 * part + whole < 2 * whole * (r + 1)
  {
    (200 * part + whole) / (2 * whole)
  }

  /** A part of the whole gives at most 100, and the whole gives exactly 100. */
  lemma PercentBounds(part: nat, whole: nat)
    requires 0 < whole && part <= whole
    ensures RoundedPercent(part, whole) <= 100
    ensures part == whole ==> RoundedPercent(part, whole) == 100
    ensures part == 0 ==> RoundedPercent(part, whole) == 0
  {
    var r := RoundedPercent(part, whole);
    var m := 2 * whole;
    assert r * m < 101 * m;
    FactorBelow(r, 101, m);
    if part == whole {
      assert 100 * m < (r + 1) * m;
      FactorBelow(100, r + 1, m);
    }
    if part == 0 {
      assert r * m < 1 * m;
      FactorBelow(r, 1, m);
    }
  }

  /** A positive factor can be cancelled from a strict inequality. */
  lemma FactorBelow(a: nat, b: nat, m: nat)
    requires m > 0 && a * m < b * m
    ensures a < b
  {
  }
}
