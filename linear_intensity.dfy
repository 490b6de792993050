/** The older linear distance-to-intensity mapper (`spazz_intensity` in
    Main.py). It has no solid-mode sentinel. */
module LinearIntensity {
  import opened Rounding

  /** Beyond this distance there is no signal (500 metres). */
  const MaxRangeKm: real := 0.5

  /** The unrounded linear falloff `(1 - d/R) * 100`. */
  function LinearFalloff(d: real): real
  {
    (1.0 - d / MaxRangeKm) * 100.0
  }

  /** Facts about the rounded falloff used by the mapper's contract. */
  lemma LinearRange(d: real)
    requires d <= MaxRangeKm
    ensures 0 <= Round(LinearFalloff(d))
    ensures 0.0 <= d ==> Round(LinearFalloff(d)) <= 100
    ensures d == 0.0 ==> Round(LinearFalloff(d)) == 100
  {
    RoundInteger(0);
    RoundMonotone(0.0, LinearFalloff(d));
    if 0.0 <= d {
      RoundBetween(LinearFalloff(d), 0, 100);
    }
    if d == 0.0 {
      RoundInteger(100);
    }
  }

  /** Intensity for a distance in kilometres: 0 out of range, otherwise the
      rounded linear falloff, a percentage for every non-negative distance. */
  function SpazzIntensity(d: real): (r: int)
    ensures d > MaxRangeKm ==> r == 0
    ensures 0.0 <= d <= MaxRangeKm ==> 0 <= r <= 100 && NearestHalfEven(LinearFalloff(d), r)
    ensures d == 0.0 ==> r == 100
  {
    if d > MaxRangeKm then 0
    else
      LinearRange(d);
      Round(LinearFalloff(d))
  }

  /** No non-negative distance produces the quadratic mapper's 101. */
  lemma NoSentinel(d: real)
    requires 0.0 <= d
    ensures SpazzIntensity(d) != 101
  {
  }

  /** Closer never means weaker: non-increasing in the distance over all
      reals (so in particular on [0, 0.5]). */
  lemma {:induction false} SpazzIntensityMonotone(d1: real, d2: real)
    requires d1 <= d2
    ensures SpazzIntensity(d2) <= SpazzIntensity(d1)
  {
    if d2 <= MaxRangeKm {
      RoundMonotone(LinearFalloff(d2), LinearFalloff(d1));
    } else if d1 <= MaxRangeKm {
      LinearRange(d1);
    }
  }
}
