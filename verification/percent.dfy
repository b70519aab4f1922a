/** `Math.round(part / total * 100)` as the two views compute their
    percentages, in exact rational arithmetic. */
module Percent {
  import opened Options

  /** The percentage of `total` that `part` is, rounded to the nearest
      integer with halves rounded up; `None` stands for the `NaN` that
      `0 / 0` yields when the list is empty. */
  function RoundPercent(part: nat, total: nat): (r: Option<nat>)
    ensures r.None? <==> total == 0
    ensures r.Some? ==> 2 * total * r.value <= 200 * part + total < 2 * total * r.value + 2 * total
  {
    if total == 0 then None else Some((200 * part + total) / (2 * total))
  }

  /** Any integer within half a point below or strictly less than half a
      point above the exact percentage is the rounded one. */
  lemma RoundPercentNearest(part: nat, total: nat, q: nat)
    requires total > 0
    requires 2 * total * q <= 200 * part + total < 2 * total * q + 2 * total
    ensures RoundPercent(part, total) == Some(q)
  {
    var r := RoundPercent(part, total).value;
    var t := 2 * total;
    assert t * r <= 200 * part + total < t * r + t;
    assert t * q <= 200 * part + total < t * q + t;
    if r < q {
      assert t * (r + 1) <= t * q by { MulMono(t, r + 1, q); }
    } else if q < r {
      assert t * (q + 1) <= t * r by { MulMono(t, q + 1, r); }
    }
  }

  lemma MulMono(t: nat, a: nat, b: nat)
    requires a <= b
    ensures t * a <= t * b
  {
  }

  /** A part no larger than the whole is at most one hundred percent. */
  lemma RoundPercentBounded(part: nat, total: nat)
    requires total > 0 && part <= total
    ensures RoundPercent(part, total).value <= 100
  {
    var r := RoundPercent(part, total).value;
    var t := 2 * total;
    if r > 100 {
      MulMono(t, 101, r);
    }
  }

  lemma RoundPercentExtremes(total: nat)
    requires total > 0
    ensures RoundPercent(0, total) == Some(0)
    ensures RoundPercent(total, total) == Some(100)
  {
    RoundPercentNearest(0, total, 0);
    RoundPercentNearest(total, total, 100);
  }

  /** More of the same whole never rounds to a smaller percentage. */
  lemma RoundPercentMonotone(a: nat, b: nat, total: nat)
    requires total > 0 && a <= b
    ensures RoundPercent(a, total).value <= RoundPercent(b, total).value
  {
    var ra := RoundPercent(a, total).value;
    var rb := RoundPercent(b, total).value;
    var t := 2 * total;
    if rb < ra {
      MulMono(t, rb + 1, ra);
    }
  }
}
