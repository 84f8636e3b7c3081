/** The Fixed distribution of fixed.go: one number, returned by every draw. */
module FixedDistribution {

  /** A Fixed value holds a single number. */
  datatype Fixed = Fixed(num: real) {

    /** A draw reads the stored number: no random source, no state change. */
    function Rand(): (r: real)
      ensures r == num
    {
      num
    }
  }

  /** NewFixed stores its argument, so every draw from the result returns it. */
  function NewFixed(num: real): (f: Fixed)
    ensures f.Rand() == num
  {
    Fixed(num)
  }

  /** The values of n draws in a row from f: as Rand changes nothing, every
      one of them is the first. */
  function Draws(f: Fixed, n: nat): (r: seq<real>)
    ensures |r| == n
    ensures forall i :: 0 <= i < n ==> r[i] == f.Rand()
  {
    if n == 0 then [] else Draws(f, n - 1) + [f.Rand()]
  }

  /** Two Fixed values are equal exactly when they were built from equal numbers. */
  lemma NewFixedInjective(a: real, b: real)
    ensures NewFixed(a) == NewFixed(b) <==> a == b
  {
  }
}
