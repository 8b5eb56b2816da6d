/** Time is a real number that never runs backwards. */
module Clock {

  type Duration = r: real | r >= 0.0 witness 0.0
}
