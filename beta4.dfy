/** The four-parameter Beta distribution of beta4.go: a standard Beta on [0, 1]
    carried to [min, max] by the affine map of module Affine. */
module Beta4Distribution {
  import opened Float64
  import opened Distuv
  import opened Params
  import Affine

  /** checkBeta4Parameters: the only constraint is min < max. */
  function CheckBeta4Parameters(min: real, max: real): (o: Outcome)
    ensures o.Pass? <==> min < max
    ensures o.Fail? ==> o.error == MinNotBelowMax
  {
    if min >= max then Fail(MinNotBelowMax) else Pass
  }

  /** NewBeta4: check the range, then store the four parameters unchanged.
      The random source argument is not modelled. */
  function NewBeta4(alpha: real, beta: real, min: real, max: real): (r: Result<Beta4>)
    ensures r.Ok? <==> min < max
    ensures r.Err? ==> r.error == MinNotBelowMax
    ensures r.Ok? ==> r.value.Valid()
    ensures r.Ok? ==> r.value.min == min && r.value.max == max
    ensures r.Ok? ==> r.value.bd.alpha == alpha && r.value.bd.beta == beta
  {
    match CheckBeta4Parameters(min, max)
    case Fail(e) => Err(e)
    case Pass => Ok(Beta4(min, max, Shape(alpha, beta)))
  }

  /** A Beta4 value: the range and the shape of the standard Beta it owns. */
  datatype Beta4 = Beta4(min: real, max: real, bd: Shape) {

    /** What construction guarantees: a range of positive width. */
    predicate Valid() {
      min < max
    }

    /** The cumulative function at y: the standard CDF at the normalised point,
        divided by the scale (as written, so it is not a probability unless
        max - min == 1). */
    function CDF(lib: BetaLib, y: real): (r: real)
      requires Valid()
      ensures r * (max - min) == lib.cdf(bd, Affine.Normalize(min, max, y))
    {
      var x := Affine.Normalize(min, max, y);
      lib.cdf(bd, x) / (max - min)
    }

    /** The mean: the standard mean carried into [min, max]. */
    function Mean(lib: BetaLib): (r: real)
      ensures Valid() ==> Affine.Normalize(min, max, r) == lib.mean(bd)
      ensures Valid() ==> (0.0 <= lib.mean(bd) <= 1.0 <==> min <= r <= max)
    {
      Affine.FromUnit(min, max, lib.mean(bd))
    }

    /** The mode: NaN as soon as either shape parameter is at most 1 (there is
        no 0.0 or 1.0 case); otherwise the standard mode carried into [min, max]. */
    function Mode(lib: BetaLib): (r: Float)
      ensures r.NaN? <==> bd.alpha <= 1.0 || bd.beta <= 1.0
      ensures r.Num? && Valid() ==> Affine.Normalize(min, max, r.value) == lib.mode(bd)
      ensures r.Num? && Valid() ==> (0.0 <= lib.mode(bd) <= 1.0 <==> min <= r.value <= max)
    {
      if bd.alpha <= 1.0 || bd.beta <= 1.0 then NaN
      else Num(Affine.FromUnit(min, max, lib.mode(bd)))
    }

    /** alpha, beta, min and max. */
    function NumParameters(): (n: int)
      ensures n == 4
    {
      4
    }

    /** The density at y: the standard density at the normalised point,
        divided by the scale. */
    function Prob(lib: BetaLib, y: real): (r: real)
      requires Valid()
      ensures r * (max - min) == lib.prob(bd, Affine.Normalize(min, max, y))
    {
      var x := Affine.Normalize(min, max, y);
      lib.prob(bd, x) / (max - min)
    }

    /** One draw, given the unit sample u that the standard Beta drew from its source. */
    function Rand(u: real): (r: real)
      ensures Valid() ==> Affine.Normalize(min, max, r) == u
      ensures Valid() ==> (0.0 <= u <= 1.0 <==> min <= r <= max)
    {
      Affine.FromUnit(min, max, u)
    }

    /** The standard deviation, stretched by the scale. */
    function StdDev(lib: BetaLib): (r: real)
      ensures Valid() ==> r / (max - min) == lib.stdDev(bd)
      ensures Valid() && lib.stdDev(bd) >= 0.0 ==> r >= 0.0
    {
      lib.stdDev(bd) * (max - min)
    }

    /** The variance, stretched by the square of the scale. */
    function Variance(lib: BetaLib): (r: real)
      ensures Valid() ==> r / (max - min) / (max - min) == lib.variance(bd)
      ensures Valid() && lib.variance(bd) >= 0.0 ==> r >= 0.0
    {
      var a, s := lib.variance(bd), max - min;
      if Valid() then
        Affine.ScaleKeepsSign(a, s);
        Affine.ScaleKeepsSign(a * s, s);
        assert (a * s * s) / s == a * s;
        assert (a * s * s) / s / s == a;
        a * s * s
      else
        a * s * s
    }
  }

  /** Rand's round trip: normalising a draw gives back the unit sample, and the
      end points of the range normalise to 0 and 1. */
  lemma RandRoundTrip(b: Beta4, u: real)
    requires b.Valid()
    ensures Affine.Normalize(b.min, b.max, b.Rand(u)) == u
    ensures Affine.Normalize(b.min, b.max, b.min) == 0.0
    ensures Affine.Normalize(b.min, b.max, b.max) == 1.0
  {
  }

  /** The variance is the square of the standard deviation whenever the
      standard Beta's are so related. */
  lemma VarianceIsStdDevSquared(b: Beta4, lib: BetaLib)
    requires lib.variance(b.bd) == lib.stdDev(b.bd) * lib.stdDev(b.bd)
    ensures b.Variance(lib) == b.StdDev(lib) * b.StdDev(lib)
  {
  }

  /** The standard CDF at a unit point x shows up, divided by the scale, at the
      point of [min, max] that x stands for; likewise the density. */
  lemma QueriesAtMappedPoint(b: Beta4, lib: BetaLib, x: real)
    requires b.Valid()
    ensures b.CDF(lib, Affine.FromUnit(b.min, b.max, x)) == lib.cdf(b.bd, x) / (b.max - b.min)
    ensures b.Prob(lib, Affine.FromUnit(b.min, b.max, x)) == lib.prob(b.bd, x) / (b.max - b.min)
  {
  }

  /** Because of the division by the scale, CDF at max is 1/(max-min), not 1,
      even when the standard CDF reaches 1 at the right end. */
  lemma CDFAtMax(b: Beta4, lib: BetaLib)
    requires b.Valid()
    requires lib.cdf(b.bd, 1.0) == 1.0
    ensures b.CDF(lib, b.max) == 1.0 / (b.max - b.min)
    ensures b.CDF(lib, b.max) == 1.0 <==> b.max - b.min == 1.0
  {
    assert Affine.FromUnit(b.min, b.max, 1.0) == b.max;
  }

  /** The fixture alpha = beta = 2 on [5, 10], given the closed-form answers of a
      standard Beta(2, 2) (mean and mode 1/2, variance 1/20, density 3/2 and CDF 1/2 at 1/2). */
  lemma Beta4Fixture(lib: BetaLib)
    requires lib.mean(Shape(2.0, 2.0)) == 0.5 && lib.mode(Shape(2.0, 2.0)) == 0.5
    requires lib.variance(Shape(2.0, 2.0)) == 0.05
    requires lib.prob(Shape(2.0, 2.0), 0.5) == 1.5 && lib.cdf(Shape(2.0, 2.0), 0.5) == 0.5
    ensures NewBeta4(2.0, 2.0, 5.0, 10.0).Ok?
    ensures var b := NewBeta4(2.0, 2.0, 5.0, 10.0).value;
      && b.Mean(lib) == 7.5 && b.Mode(lib) == Num(7.5) && b.Variance(lib) == 1.25
      && b.Prob(lib, 7.5) == 0.3 && b.CDF(lib, 7.5) == 0.1 && b.NumParameters() == 4
  {
  }

  /** The fixture alpha = 0.5, beta = 2 on [0, 1]: the mode is NaN for every
      library, not the literal 0.0 that gonum's own Mode would give. */
  lemma DegenerateModeIsNaN(lib: BetaLib)
    ensures NewBeta4(0.5, 2.0, 0.0, 1.0).Ok?
    ensures NewBeta4(0.5, 2.0, 0.0, 1.0).value.Mode(lib) == NaN
  {
  }
}
