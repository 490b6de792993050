/** The quadratic distance-to-intensity mapper of the current prototype
    (`spazz_intensity` in main.py). Distances are kilometres. */
module Intensity {
  import opened Rounding

  /** Beyond this distance there is no signal (500 metres). */
  const MaxRangeKm: real := 0.5
  /** At or within this distance the phone goes solid (5 metres). */
  const SolidRangeKm: real := 0.005
  /** The "solid mode" sentinel, kept apart from every percentage. */
  const SolidMode: int := 101

  /** The unrounded quadratic falloff `(1 - d/R)^2 * 100`. */
  function Falloff(d: real): real
  {
    (1.0 - d / MaxRangeKm) * (1.0 - d / MaxRangeKm) * 100.0
  }

  /** Inside the gradient band the falloff lies in [0, 98.01). */
  lemma FalloffRange(d: real)
    requires SolidRangeKm < d <= MaxRangeKm
    ensures 0.0 <= Falloff(d) < 98.5
  {
    var u := 1.0 - d / MaxRangeKm;
    assert 0.0 <= u < 0.99;
    assert u * u <= 0.99 * u <= 0.99 * 0.99;
  }

  /** The falloff shrinks as the distance grows, up to the maximum range. */
  lemma FalloffMonotone(d1: real, d2: real)
    requires d1 <= d2 <= MaxRangeKm
    ensures Falloff(d2) <= Falloff(d1)
  {
    var u1, u2 := 1.0 - d1 / MaxRangeKm, 1.0 - d2 / MaxRangeKm;
    assert 0.0 <= u2 <= u1;
    assert u2 * u2 <= u2 * u1 <= u1 * u1;
  }

  /** Intensity for a distance in kilometres: 0 out of range, the sentinel
      101 face to face, and otherwise the rounded quadratic falloff. */
  function SpazzIntensity(d: real): (r: int)
    ensures d > MaxRangeKm ==> r == 0
    ensures r == SolidMode <==> d <= SolidRangeKm
    ensures SolidRangeKm < d ==> 0 <= r <= 98
    ensures SolidRangeKm < d <= MaxRangeKm ==> NearestHalfEven(Falloff(d), r)
  {
    if d > MaxRangeKm then 0
    else if d <= SolidRangeKm then SolidMode
    else
      FalloffRange(d);
      RoundBetween(Falloff(d), 0, 99);
      var r := Round(Falloff(d));
      assert r as real <= Falloff(d) + 0.5;
      r
  }

  /** Closer never means weaker: the intensity is non-increasing in the
      distance over all reals (so in particular on (0.005, 0.5]). */
  lemma {:induction false} SpazzIntensityMonotone(d1: real, d2: real)
    requires d1 <= d2
    ensures SpazzIntensity(d2) <= SpazzIntensity(d1)
  {
    if d2 <= MaxRangeKm && SolidRangeKm < d1 {
      FalloffMonotone(d1, d2);
      RoundMonotone(Falloff(d2), Falloff(d1));
    }
  }

  /** From the maximum range on, nothing is signalled: the range check and
      the rounding agree at exactly 0.5 km. */
  lemma SilentFromMaxRange(d: real)
    requires d >= MaxRangeKm
    ensures SpazzIntensity(d) == 0
  {
    if d == MaxRangeKm {
      assert Falloff(d) == 0.0;
      RoundInteger(0);
    }
  }

  /** Worked values: 10 m gives 96, 500 m gives 0, 4 m and 0 m give the
      sentinel. */
  lemma SpazzIntensityExamples()
    ensures SpazzIntensity(0.01) == 96
    ensures SpazzIntensity(0.5) == 0
    ensures SpazzIntensity(0.004) == SolidMode
    ensures SpazzIntensity(0.0) == SolidMode
  {
    assert Falloff(0.01) == 96.04;
    RoundUnique(96.04, 96);
    SilentFromMaxRange(0.5);
  }
}
