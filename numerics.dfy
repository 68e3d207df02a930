/** The floating-point facilities the script borrows from Python: `math.sqrt`,
    `math.pi` and `float()`. They are modelled over the reals and passed in as a
    value, so that nothing is assumed about them beyond `Valid`. */
module Numerics {
  import opened Common

  datatype Numerics = Numerics(
    sqrt: real -> real,
    pi: real,
    parseFloat: string -> Option<real>)   // `float(text)`; None is a ValueError
  {
    /** The only facts the model relies on: pi is positive and sqrt is a
        square root on the non-negative reals. */
    ghost predicate Valid()
    {
      && pi > 0.0
      && forall x: real :: x >= 0.0 ==> sqrt(x) >= 0.0 && sqrt(x) * sqrt(x) == x
    }
  }

  /** A square root is determined by its square: the non-negative r with r*r == x. */
  lemma SqrtOfSquare(num: Numerics, x: real, r: real)
    requires num.Valid()
    requires r >= 0.0 && x == r * r
    ensures num.sqrt(x) == r
  {
    var s := num.sqrt(x);
    assert s >= 0.0 && s * s == r * r;
    assert (s - r) * (s + r) == 0.0;
    if s + r != 0.0 {
      assert s - r == (s - r) * (s + r) / (s + r);
    }
  }
}
