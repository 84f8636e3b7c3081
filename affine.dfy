/** The affine map between the unit interval and [min, max] that every Beta4 and
    PERT query is built from: `u*(max-min)+min` one way, `(y-min)/(max-min)` back. */
module Affine {

  /** The point of [min, max] that the unit point u stands for, u*(max-min)+min.
      Over a range of positive width it is undone by Normalize and carries
      [0, 1] onto [min, max], end point to end point. */
  function FromUnit(min: real, max: real, u: real): (y: real)
    ensures min < max ==> Normalize(min, max, y) == u
    ensures min < max ==> (0.0 <= u <= 1.0 <==> min <= y <= max)
    ensures min < max ==> (u == 0.0 <==> y == min) && (u == 1.0 <==> y == max)
  {
    if min < max then
      CancelScale(u, max - min);
      ScaleKeepsSign(u, max - min);
      ScaleKeepsSign(1.0 - u, max - min);
      u * (max - min) + min
    else
      u * (max - min) + min
  }

  /** The normalised coordinate x = (y-min)/(max-min) of a domain value y: the
      unit point that the map u*(max-min)+min sends back to y. */
  function Normalize(min: real, max: real, y: real): (x: real)
    requires min < max
    ensures x * (max - min) + min == y
    ensures min <= y <= max <==> 0.0 <= x <= 1.0
  {
    var x := (y - min) / (max - min);
    ScaleKeepsSign(x, max - min);
    ScaleKeepsSign(1.0 - x, max - min);
    x
  }

  /** Multiplying by a positive scale keeps the sign. */
  lemma ScaleKeepsSign(a: real, s: real)
    requires s > 0.0
    ensures a >= 0.0 <==> a * s >= 0.0
    ensures a > 0.0 <==> a * s > 0.0
  {
  }

  /** Dividing by the scale undoes multiplying by it. */
  lemma CancelScale(u: real, s: real)
    requires s != 0.0
    ensures u * s / s == u
  {
  }

  /** A quotient by the scale is the factor that the scale multiplies. */
  lemma QuotientByScale(a: real, b: real, s: real)
    requires s != 0.0 && a == b * s
    ensures a / s == b
  {
  }

  /** FromUnit preserves order strictly, so distinct unit points stay distinct. */
  lemma FromUnitMonotone(min: real, max: real, u: real, v: real)
    requires min < max
    ensures u <= v <==> FromUnit(min, max, u) <= FromUnit(min, max, v)
    ensures u < v <==> FromUnit(min, max, u) < FromUnit(min, max, v)
  {
    assert FromUnit(min, max, v) - FromUnit(min, max, u) == (v - u) * (max - min);
    ScaleKeepsSign(v - u, max - min);
  }
}
