/** The standard two-parameter Beta distribution on [0, 1] that gonum's
    distuv.Beta supplies. Its numerics (incomplete beta function, log-gamma,
    the sampling algorithm) are foreign code: the model takes them as an
    abstract library of total functions of the shape parameters. */
module Distuv {

  /** The Alpha and Beta fields of a distuv.Beta value (its Src field is not modelled). */
  datatype Shape = Shape(alpha: real, beta: real)

  /** What the external library answers for a standard Beta of a given shape:
      Mean(), Mode(), StdDev(), Variance(), CDF(x) and Prob(x). */
  datatype BetaLib = BetaLib(
    mean: Shape -> real,
    mode: Shape -> real,
    stdDev: Shape -> real,
    variance: Shape -> real,
    cdf: (Shape, real) -> real,
    prob: (Shape, real) -> real)
}
