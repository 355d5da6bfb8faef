/** The elementary functions the resonator wake uses, treated as
    uninterpreted: the model fixes only the few facts its properties need.
    `std::exp`, `std::cos`, `std::sin`, `std::sqrt` and the constant π of the
    C++ code are the fields of one value passed to every operation
    that evaluates them. */
module Transcendental {
  import opened RealFacts

  datatype Functions = Functions(
    pi: real,
    exp: real -> real,
    cos: real -> real,
    sin: real -> real,
    sqrt: real -> real)

  /** The facts assumed of the elementary functions: their values at the
      origin, that `sqrt` is the non-negative square root, and π to five
      decimal places. */
  ghost predicate Valid(fs: Functions)
  {
    && 3.14159 < fs.pi < 3.14160
    && fs.exp(0.0) == 1.0
    && fs.cos(0.0) == 1.0
    && fs.sin(0.0) == 0.0
    && forall y :: 0.0 <= y ==> 0.0 <= fs.sqrt(y) && Sq(fs.sqrt(y)) == y
  }

  /** The square root of a positive number is positive. */
  lemma SqrtPositive(fs: Functions, y: real)
    requires Valid(fs) && 0.0 < y
    ensures 0.0 < fs.sqrt(y)
    ensures Sq(fs.sqrt(y)) == y
  {
    SqSign(fs.sqrt(y));
  }
}
