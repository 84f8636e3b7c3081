/** The part of IEEE-754 float64 that the model needs: a real value, or the NaN
    that math.NaN() returns. Rounding, infinities and signed zero are not modelled. */
module Float64 {

  datatype Float = Num(value: real) | NaN
}
