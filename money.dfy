/** Money is a `real`. `Math.round` and the cents rounding used by every
    `roundCurrency`/`round2` helper of the system, without binary floating point. */
module Money {

  /** `Math.round(x)`: the nearest integer, a half rounding up. */
  function MathRound(x: real): (r: int)
    ensures x - 0.5 < r as real <= x + 0.5
  {
    (x + 0.5).Floor
  }

  /** A whole number of cents. */
  predicate IsCents(v: real) {
    (v * 100.0).Floor as real == v * 100.0
  }

  /** `roundCurrency(v)` / `round2(v)`: `Math.round(v * 100) / 100`. */
  function RoundCents(v: real): (r: real)
    ensures IsCents(r)
    ensures v - 0.005 < r <= v + 0.005
  {
    MathRound(v * 100.0) as real / 100.0
  }

  /** Rounding a value that is already a whole number of cents leaves it unchanged. */
  lemma RoundCentsOfCents(v: real)
    requires IsCents(v)
    ensures RoundCents(v) == v
  {
    var k := (v * 100.0).Floor;
    assert (k as real + 0.5).Floor == k;
  }

  lemma RoundCentsIdempotent(v: real)
    ensures RoundCents(RoundCents(v)) == RoundCents(v)
  {
    RoundCentsOfCents(RoundCents(v));
  }

  lemma RoundCentsMonotone(a: real, b: real)
    requires a <= b
    ensures RoundCents(a) <= RoundCents(b)
  {
    assert (a * 100.0 + 0.5).Floor <= (b * 100.0 + 0.5).Floor;
  }

  /** The sign of a value survives rounding, up to values that round to zero. */
  lemma RoundCentsSign(v: real)
    ensures v >= 0.0 ==> RoundCents(v) >= 0.0
    ensures v <= 0.0 ==> RoundCents(v) <= 0.0
  {
    RoundCentsOfCents(0.0);
    if v >= 0.0 { RoundCentsMonotone(0.0, v); } else { RoundCentsMonotone(v, 0.0); }
  }

  /** `Math.abs` */
  function Abs(x: real): (r: real)
    ensures r >= 0.0
  {
    if x < 0.0 then -x else x
  }

  function Max(a: real, b: real): (r: real)
    ensures r >= a && r >= b && (r == a || r == b)
  {
    if a >= b then a else b
  }
}
