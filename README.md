# distuvx in Dafny

A model of the distuvx Go package: probability distributions for Monte-Carlo
estimation, built on gonum's standard two-parameter Beta distribution.

- **Beta4** (`beta4.dfy`): a standard Beta on [0, 1] carried to [min, max].
  Construction checks `min < max`. Every query is the affine map
  `u*(max-min)+min`, or its inverse `(y-min)/(max-min)`, applied around the
  standard Beta's answer. `CDF` and `Prob` divide the standard answer by the
  scale `max-min`. `StdDev` multiplies by the scale and `Variance` by its
  square. `Mode` is NaN as soon as either shape parameter is at most 1.
- **PERT** (`pert.dfy`): three ordered checks, each with its own error, then the
  shape `alpha = 1 + 4(mode-min)/(max-min)`, `beta = 1 + 4(max-mode)/(max-min)`.
  The mean has the closed form `(min+4*mode+max)/6`. The mode is the stored
  parameter. CDF, Prob and Rand use the same transforms as Beta4.
- **Fixed** (`fixed.dfy`): one number, returned by every draw.
- `affine.dfy` holds the affine map and its round trip, bounds and order.
- `params.dfy` holds the error taxonomy and the panic messages.
- `distuv.dfy` holds the external standard Beta.
- `float64.dfy` holds the NaN case.

gonum's `distuv.Beta` is foreign code. The model takes it as a `BetaLib`
value: a record of total functions from the shape `(alpha, beta)` to its mean,
mode, standard deviation, variance, CDF and density. Every query that consults the standard Beta takes this
record as a parameter. `Rand` takes the unit sample `u` that gonum's sampler drew from
its random source. A `panic` becomes an `Err` with one `ParamError` variant
per check. Beta4's panic message is the same text as PERT's first message, so the two share
`MinNotBelowMax`. `math.NaN()` becomes `Float.NaN`.

gonum's own `Beta.Mode` returns 0 when only alpha <= 1 and 1 when only
beta <= 1. `Beta4.Mode` instead returns NaN whenever `alpha <= 1 || beta <= 1`
(beta4.go:60-62), and the model follows that code. The Go tests expect 0.0
and 1.0 in two such cases (beta4_test.go:132, beta4_test.go:149); their
explicit NaN guard (beta4_test.go:246-248) would report both.
`Beta4Distribution.DegenerateModeIsNaN` states the code's answer for the
first of them. The same test file reads a `BetaDist` field and calls
`NewBeta4One`, neither of which beta4.go defines.

## Model

| member | source | states |
|---|---|---|
| Affine.FromUnit | beta4.go:79 | for min < max, Normalize undoes the map; [0,1] is carried exactly onto [min,max]; 0 goes to min and 1 to max, and only they do |
| Affine.Normalize | beta4.go:46 | the normalised point is the unit point that the map sends back to y; it lies in [0,1] exactly when y lies in [min,max] |
| Affine.FromUnitMonotone | beta4.go:79 | the map keeps order, weak and strict, in both directions |
| Params.Message | pert.go:45-51 | each panic text, shared by beta4.go:40, reads "pert: constraint of ... violated" |
| Params.MessagesDistinct | pert.go:44-52 | the three panic messages are pairwise distinct |
| Beta4Distribution.CheckBeta4Parameters | beta4.go:38-42 | passes exactly when min < max, and otherwise fails with MinNotBelowMax |
| Beta4Distribution.NewBeta4 | beta4.go:25-36 | succeeds exactly when min < max; on failure the error is MinNotBelowMax; on success the value is valid and holds alpha, beta, min and max unchanged |
| Beta4Distribution.Beta4.CDF | beta4.go:45-48 | the result times the scale is the standard CDF at the normalised point |
| Beta4Distribution.Beta4.Mean | beta4.go:51-53 | the result normalises to the standard mean; it lies in [min,max] exactly when the standard mean lies in [0,1] |
| Beta4Distribution.Beta4.Mode | beta4.go:55-64 | NaN exactly when alpha <= 1 or beta <= 1; otherwise it normalises to the standard mode and lies in [min,max] exactly when that mode lies in [0,1] |
| Beta4Distribution.Beta4.NumParameters | beta4.go:67-69 | always 4 |
| Beta4Distribution.Beta4.Prob | beta4.go:72-75 | the result times the scale is the standard density at the normalised point |
| Beta4Distribution.Beta4.Rand | beta4.go:78-80 | the draw normalises back to the unit sample; it lies in [min,max] exactly when the sample lies in [0,1] |
| Beta4Distribution.Beta4.StdDev | beta4.go:83-85 | the result divided by the scale is the standard deviation; it is non-negative when that is |
| Beta4Distribution.Beta4.Variance | beta4.go:88-90 | the result divided twice by the scale is the standard variance; it is non-negative when that is |
| Beta4Distribution.RandRoundTrip | beta4.go:78-80 | normalising Rand(u) gives u; min normalises to 0 and max to 1 |
| Beta4Distribution.VarianceIsStdDevSquared | beta4.go:83-90 | Variance is StdDev squared whenever the standard variance is the standard deviation squared |
| Beta4Distribution.QueriesAtMappedPoint | beta4.go:45-48 | at the point that a unit point x stands for, CDF and Prob are the standard answers at x divided by the scale |
| Beta4Distribution.CDFAtMax | beta4.go:45-48 | with a standard CDF of 1 at the right end, CDF(max) is 1/(max-min), which is 1 only when the scale is 1 |
| Beta4Distribution.Beta4Fixture | beta4_test.go:73-89 | for alpha = beta = 2 on [5,10], given Beta(2,2)'s closed-form values: Mean 7.5, Mode 7.5, Variance 1.25, Prob(7.5) 0.3, CDF(7.5) 0.1, and 4 parameters |
| Beta4Distribution.DegenerateModeIsNaN | beta4.go:60-62 | for alpha = 0.5, beta = 2 on [0,1], the mode is NaN with any library |
| PertDistribution.CheckPERTParameters | pert.go:43-53 | passes exactly when min < max and min <= mode <= max; MinNotBelowMax exactly when min >= max; MinAboveMode exactly when that passes and min > mode; ModeAboveMax exactly when both pass and mode > max |
| PertDistribution.ShapeFor | pert.go:29-30 | alpha is 1 plus 4 times the normalised mode and beta is 5 minus that; alpha + beta = 6; both lie in [1,5] exactly when the mode lies in [min,max]; alpha = beta exactly when the mode is the midpoint |
| PertDistribution.NewPERT | pert.go:27-41 | succeeds exactly when min < max and min <= mode <= max; a failure carries the error of the first failing check; on success the value is valid, holds min, max and mode unchanged, has 1 <= alpha, beta <= 5 and alpha + beta = 6 |
| PertDistribution.PERT.CDF | pert.go:56-59 | the result times the scale is the standard CDF at the normalised point |
| PertDistribution.PERT.Mean | pert.go:62-64 | lies in [min,max] when the mode does; exceeds min by a sixth of the scale plus two thirds of the mode's offset |
| PertDistribution.PERT.Mode | pert.go:67-69 | on a constructed value, lies in [min,max] |
| PertDistribution.PERT.NumParameters | pert.go:72-74 | always 3 |
| PertDistribution.PERT.Prob | pert.go:77-80 | the result times the scale is the standard density at the normalised point |
| PertDistribution.PERT.Rand | pert.go:83-85 | the draw normalises back to the unit sample; it lies in [min,max] exactly when the sample lies in [0,1] |
| PertDistribution.MeanIsShapeMean | pert.go:14-17 | the closed-form mean equals alpha/(alpha+beta) of the derived shape, carried into [min,max] |
| PertDistribution.ModeIsShapeMode | pert.go:67-69 | the stored mode equals (alpha-1)/(alpha+beta-2) of the derived shape, carried into [min,max] |
| PertDistribution.SymmetricMode | pert.go:29-30 | a midpoint mode gives alpha = beta = 3 and a mean equal to the mode |
| PertDistribution.SharesBeta4Transforms | pert.go:56-85 | CDF, Prob and Rand equal those of the Beta4 with the same range and shape |
| PertDistribution.MeanAgreesWithBeta4 | pert.go:62-64 | if the library's mean is alpha/(alpha+beta), PERT's mean is that Beta4's mean |
| PertDistribution.ModeAgreesWithBeta4 | pert.go:67-69 | for a mode strictly inside the range, if the library's mode is the closed form, then that Beta4's mode is the stored mode |
| PertDistribution.ModeAtEndDiffersFromBeta4 | pert.go:67-69 | for a mode at either end, that Beta4's mode is NaN while PERT answers the stored mode |
| PertDistribution.PertFixture | pert_test.go:69-84 | NewPERT(0, 10, 5) succeeds with shape (3,3), Mean 5, Mode 5 and 3 parameters; given Beta(3,3)'s density and CDF at 3/4, Prob(7.5) is 0.10546875 and CDF(7.5) is 0.0896484375 |
| FixedDistribution.Fixed.Rand | fixed.go:14-16 | returns the stored number; takes no source and changes nothing |
| FixedDistribution.NewFixed | fixed.go:19-21 | a draw from the result returns the number it was built from |
| FixedDistribution.Draws | fixed_test.go:26-30 | n draws in a row are n values, each the stored number |
| FixedDistribution.NewFixedInjective | fixed.go:9-21 | two Fixed values are equal exactly when built from equal numbers |

## Left out

- gonum's `distuv.Beta` numerics: the incomplete beta function, log-gamma, the sampling algorithm and the closed-form moments. They are foreign code and use floating point. They enter only as the `BetaLib` parameter and the unit sample `u`.
- The `rand.Source` argument and the `Src` field: seeded reproducibility and the stream the source advances are not modelled. The fixture values for Rand and StdDev depend on them, or on square roots, and are not stated.
- IEEE-754 semantics: values are `real`; rounding, infinities and signed zero are not modelled. NaN appears only where the code returns `math.NaN()`.
- Go's zero values `Beta4{}` and `PERT{}` give `min == max`. Division by zero on them is not modelled, so CDF and Prob require `min < max`. The other queries need no such requirement.
- `NewBeta4One`, `NewPERTOne`, `PERT.StdDev` and `PERT.Variance` are used by the tests but are not defined in the files modelled here.
- triangle.go (`NewTriangleOne`) is not part of this model. It draws once from gonum's Triangle distribution and wraps the draw in a `Fixed`, which `FixedDistribution.NewFixed` covers.
- The tests' `assertFloat64` and the other test helpers.
