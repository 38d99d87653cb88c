/**
  The numeric capability the window code is generic over.

  The sample type itself is modelled as `real`, and coercion from an integer
  or a decimal literal is exact. What remains of the capability is the
  constant pi and the cosine function. Neither is given a definition here. A
  `Trig` value supplies both, and `Valid` asks only for the standard values
  of cosine at the multiples of pi that the window formulas reach.
*/
module Sample {

  datatype Trig = Trig(pi: real, cos: real -> real) {

    /** pi is positive, and cos 0 = 1, cos pi = -1, cos 2pi = 1, cos 3pi = -1. */
    predicate Valid() {
      && pi > 0.0
      && cos(0.0) == 1.0
      && cos(pi) == -1.0
      && cos(2.0 * pi) == 1.0
      && cos(3.0 * pi) == -1.0
    }
  }
}
