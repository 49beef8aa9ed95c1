/** The guarded percentage the dashboard uses for every margin:
    `(part / whole * 100) if whole > 0 else 0`, in exact arithmetic. */
module Ratios {

  function GuardedPercent(part: int, whole: int): (r: real)
    ensures whole <= 0 ==> r == 0.0
    ensures whole > 0 ==> r * whole as real == part as real * 100.0
  {
    if whole > 0 then part as real / whole as real * 100.0 else 0.0
  }

  /** With a positive denominator, comparing the percentage with a whole-number
      threshold is comparing `100 * part` with `threshold * whole`. */
  lemma PercentBelow(part: int, whole: int, threshold: int)
    requires whole > 0
    ensures GuardedPercent(part, whole) < threshold as real <==> part * 100 < threshold * whole
    ensures GuardedPercent(part, whole) == threshold as real <==> part * 100 == threshold * whole
  {
    var r := GuardedPercent(part, whole);
    var w := whole as real;
    assert r * w == (part * 100) as real;
    assert threshold as real * w == (threshold * whole) as real;
    if r < threshold as real {
      assert r * w < threshold as real * w;
    } else if r > threshold as real {
      assert r * w > threshold as real * w;
    }
  }
}
