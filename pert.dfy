/** The PERT distribution of pert.go: a Beta4 whose shape is derived from
    (min, max, mode) so that its mean is (min + 4*mode + max)/6. */
module PertDistribution {
  import opened Float64
  import opened Distuv
  import opened Params
  import opened Beta4Distribution
  import Affine

  /** checkPERTParameters: three checks in order, and the first one that fails
      decides the error. */
  function CheckPERTParameters(min: real, max: real, mode: real): (o: Outcome)
    ensures o == Pass <==> min < max && min <= mode <= max
    ensures o == Fail(MinNotBelowMax) <==> min >= max
    ensures o == Fail(MinAboveMode) <==> min < max && min > mode
    ensures o == Fail(ModeAboveMax) <==> min < max && min <= mode && mode > max
  {
    if min >= max then Fail(MinNotBelowMax)
    else if min > mode then Fail(MinAboveMode)
    else if mode > max then Fail(ModeAboveMax)
    else Pass
  }

  /** The shape NewPERT derives: alpha - 1 is four times the normalised mode and
      beta - 1 four times its distance from 1, so alpha + beta = 6, both lie in
      [1, 5] exactly when the mode lies in [min, max], and they are equal exactly
      when the mode is the midpoint. */
  function ShapeFor(min: real, max: real, mode: real): (s: Shape)
    requires min < max
    ensures s.alpha == 1.0 + 4.0 * Affine.Normalize(min, max, mode)
    ensures s.beta == 5.0 - 4.0 * Affine.Normalize(min, max, mode)
    ensures s.alpha + s.beta == 6.0
    ensures min <= mode <= max <==> 1.0 <= s.alpha <= 5.0 && 1.0 <= s.beta <= 5.0
    ensures mode == (min + max) / 2.0 <==> s.alpha == s.beta
  {
    var x := Affine.Normalize(min, max, mode);
    assert 4.0 * (mode - min) / (max - min) == 4.0 * x;
    assert 4.0 * (max - mode) / (max - min) == 4.0 * (1.0 - x) by {
      Affine.QuotientByScale(4.0 * (max - mode), 4.0 * (1.0 - x), max - min);
    }
    assert mode == (min + max) / 2.0 <==> x == 0.5 by {
      assert 0.5 * (max - min) + min == (min + max) / 2.0;
      Affine.FromUnitMonotone(min, max, x, 0.5);
      Affine.FromUnitMonotone(min, max, 0.5, x);
    }
    Shape(1.0 + 4.0 * (mode - min) / (max - min), 1.0 + 4.0 * (max - mode) / (max - min))
  }

  /** NewPERT: run the checks, then store min, max and mode with the derived shape.
      The random source argument is not modelled. */
  function NewPERT(min: real, max: real, mode: real): (r: Result<PERT>)
    ensures r.Ok? <==> min < max && min <= mode <= max
    ensures r.Err? ==> CheckPERTParameters(min, max, mode) == Fail(r.error)
    ensures r.Ok? ==> r.value.Valid()
    ensures r.Ok? ==> r.value.min == min && r.value.max == max && r.value.mode == mode
    ensures r.Ok? ==> 1.0 <= r.value.bd.alpha <= 5.0 && 1.0 <= r.value.bd.beta <= 5.0
    ensures r.Ok? ==> r.value.bd.alpha + r.value.bd.beta == 6.0
  {
    match CheckPERTParameters(min, max, mode)
    case Fail(e) => Err(e)
    case Pass => Ok(PERT(min, max, mode, ShapeFor(min, max, mode)))
  }

  /** A PERT value: the range, the mode and the shape of the standard Beta it owns. */
  datatype PERT = PERT(min: real, max: real, mode: real, bd: Shape) {

    /** What construction guarantees. */
    predicate Valid() {
      min < max && min <= mode <= max && bd == ShapeFor(min, max, mode)
    }

    /** The cumulative function at y, computed as Beta4's: the standard CDF at
        the normalised point, divided by the scale. */
    function CDF(lib: BetaLib, y: real): (r: real)
      requires min < max
      ensures r * (max - min) == lib.cdf(bd, Affine.Normalize(min, max, y))
    {
      var x := Affine.Normalize(min, max, y);
      lib.cdf(bd, x) / (max - min)
    }

    /** The PERT mean, a weighted average of min, mode and max, so it lies in
        the range whenever the mode does. */
    function Mean(): (r: real)
      ensures min <= mode <= max ==> min <= r <= max
      ensures r - min == (max - min) / 6.0 + 2.0 * (mode - min) / 3.0
    {
      (min + 4.0 * mode + max) / 6.0
    }

    /** The mode is the stored parameter. */
    function Mode(): (r: real)
      ensures Valid() ==> min <= r <= max
    {
      mode
    }

    /** min, max and mode. */
    function NumParameters(): (n: int)
      ensures n == 3
    {
      3
    }

    /** The density at y, computed as Beta4's. */
    function Prob(lib: BetaLib, y: real): (r: real)
      requires min < max
      ensures r * (max - min) == lib.prob(bd, Affine.Normalize(min, max, y))
    {
      var x := Affine.Normalize(min, max, y);
      lib.prob(bd, x) / (max - min)
    }

    /** One draw, given the unit sample u that the standard Beta drew from its source. */
    function Rand(u: real): (r: real)
      ensures min < max ==> Affine.Normalize(min, max, r) == u
      ensures min < max ==> (0.0 <= u <= 1.0 <==> min <= r <= max)
    {
      Affine.FromUnit(min, max, u)
    }

    /** The Beta4 with the same range and shape. */
    function AsBeta4(): Beta4 {
      Beta4(min, max, bd)
    }
  }

  /** The PERT mean is the mean alpha/(alpha+beta) of the derived standard Beta,
      carried into [min, max], as the type's documentation requires. */
  lemma MeanIsShapeMean(p: PERT)
    requires p.Valid()
    ensures p.Mean() == Affine.FromUnit(p.min, p.max, p.bd.alpha / (p.bd.alpha + p.bd.beta))
  {
  }

  /** The stored mode is the mode (alpha-1)/(alpha+beta-2) of the derived
      standard Beta, carried into [min, max]. */
  lemma ModeIsShapeMode(p: PERT)
    requires p.Valid()
    ensures p.Mode() == Affine.FromUnit(p.min, p.max, (p.bd.alpha - 1.0) / (p.bd.alpha + p.bd.beta - 2.0))
  {
  }

  /** A mode at the midpoint gives a symmetric shape, alpha = beta = 3, and then
      the mean is the mode. */
  lemma SymmetricMode(p: PERT)
    requires p.Valid()
    requires p.mode == (p.min + p.max) / 2.0
    ensures p.bd.alpha == p.bd.beta == 3.0
    ensures p.Mean() == p.Mode()
  {
  }

  /** CDF, Prob and Rand are those of the Beta4 with the same range and shape. */
  lemma SharesBeta4Transforms(p: PERT, lib: BetaLib, y: real, u: real)
    requires p.min < p.max
    ensures p.AsBeta4().Valid()
    ensures p.CDF(lib, y) == p.AsBeta4().CDF(lib, y)
    ensures p.Prob(lib, y) == p.AsBeta4().Prob(lib, y)
    ensures p.Rand(u) == p.AsBeta4().Rand(u)
  {
  }

  /** Where the library's standard mean is alpha/(alpha+beta), PERT's closed-form
      mean is the mean of the Beta4 with the same range and shape. */
  lemma MeanAgreesWithBeta4(p: PERT, lib: BetaLib)
    requires p.Valid()
    requires lib.mean(p.bd) == p.bd.alpha / (p.bd.alpha + p.bd.beta)
    ensures p.Mean() == p.AsBeta4().Mean(lib)
  {
    MeanIsShapeMean(p);
  }

  /** With the mode strictly inside the range both shape parameters exceed 1,
      and where the library's standard mode is (alpha-1)/(alpha+beta-2) the
      Beta4 with the same range and shape has the stored mode as its mode. */
  lemma ModeAgreesWithBeta4(p: PERT, lib: BetaLib)
    requires p.Valid() && p.min < p.mode < p.max
    requires lib.mode(p.bd) == (p.bd.alpha - 1.0) / (p.bd.alpha + p.bd.beta - 2.0)
    ensures p.AsBeta4().Mode(lib) == Num(p.Mode())
  {
    ModeIsShapeMode(p);
  }

  /** With the mode at an end of the range one shape parameter is 1, so the
      Beta4 with the same range and shape has a NaN mode while PERT still
      answers the stored mode. */
  lemma ModeAtEndDiffersFromBeta4(p: PERT, lib: BetaLib)
    requires p.Valid() && (p.mode == p.min || p.mode == p.max)
    ensures p.AsBeta4().Mode(lib) == NaN
    ensures p.Mode() == p.mode
  {
    assert Affine.FromUnit(p.min, p.max, 0.0) == p.min;
    assert Affine.FromUnit(p.min, p.max, 1.0) == p.max;
  }

  /** The fixture (min, max, mode) = (0, 10, 5), given the closed-form answers
      of a standard Beta(3, 3) at 3/4 (density 135/128, CDF 459/512). */
  lemma PertFixture(lib: BetaLib)
    requires lib.prob(Shape(3.0, 3.0), 0.75) == 1.0546875
    requires lib.cdf(Shape(3.0, 3.0), 0.75) == 0.896484375
    ensures NewPERT(0.0, 10.0, 5.0).Ok?
    ensures var p := NewPERT(0.0, 10.0, 5.0).value;
      && p.bd == Shape(3.0, 3.0) && p.Mean() == 5.0 && p.Mode() == 5.0 && p.NumParameters() == 3
      && p.Prob(lib, 7.5) == 0.10546875 && p.CDF(lib, 7.5) == 0.0896484375
  {
  }
}
