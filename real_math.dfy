/** Real arithmetic shared by the whole model.

    The C code calls the C library's sqrt. The model works over the reals
    and takes sqrt as a parameter: members that rely on what sqrt means
    require IsSqrt of it, which says what the model assumes about it. */
module RealMath {

  /** sqrt maps every non-negative real to its non-negative square root.
      Nothing is assumed about negative arguments (C returns NaN there). */
  ghost predicate IsSqrt(sqrt: real -> real)
  {
    forall x :: x >= 0.0 ==> sqrt(x) >= 0.0 && sqrt(x) * sqrt(x) == x
  }

  function Square(x: real): (r: real)
    ensures r >= 0.0
  {
    x * x
  }

  /** a b as a named function. Facts stated with it pass from one lemma to
      the next by plain equality of terms, without the solver redoing
      nonlinear arithmetic. */
  function Product(a: real, b: real): real
  {
    a * b
  }

  /** A square is zero only at zero. */
  lemma SquareZero(x: real)
    requires Square(x) == 0.0
    ensures x == 0.0
  {
    ZeroProduct(x, x);
  }

  lemma ProductPositive(a: real, b: real)
    requires a > 0.0 && b > 0.0
    ensures a * b > 0.0
  {
  }

  /** A product of three non-zero factors is non-zero. */
  lemma NonZeroProduct3(p: real, q: real, r: real)
    requires p != 0.0 && q != 0.0 && r != 0.0
    ensures p * (q * r) != 0.0
  {
    if q * r == 0.0 {
      ZeroProduct(q, r);
    }
    if p * (q * r) == 0.0 {
      ZeroProduct(p, q * r);
    }
  }

  lemma ReciprocalBelowOne(d: real)
    requires d > 1.0
    ensures 0.0 < 1.0 / d < 1.0
  {
  }

  /** k x, built up by repeated addition so that the specifications that use
      it stay linear; MultipleIsProduct relates it to the product. */
  function Multiple(k: nat, x: real): real
  {
    if k == 0 then 0.0 else Multiple(k - 1, x) + x
  }

  lemma {:induction false} MultipleIsProduct(k: nat, x: real)
    ensures Multiple(k, x) == (k as real) * x
  {
    if k > 0 {
      MultipleIsProduct(k - 1, x);
    }
  }

  /** Dividing a total shifted by k t by the count k shifts the mean by t. */
  lemma MeanOfShifted(a: real, t: real, k: nat)
    requires k >= 1
    ensures (a + Multiple(k, t)) / (k as real) == a / (k as real) + t
  {
    MultipleIsProduct(k, t);
    DivideShifted(a, t, k as real);
  }

  /** k copies of t have mean t. */
  lemma MeanOfMultiple(t: real, k: nat)
    requires k >= 1
    ensures Multiple(k, t) / (k as real) == t
  {
    MeanOfShifted(0.0, t, k);
    ZeroDividend(k as real);
  }

  lemma DivideShifted(a: real, t: real, d: real)
    requires d > 0.0
    ensures (a + d * t) / d == a / d + t
  {
    assert (a + d * t) / d == a / d + (d * t) / d;
  }

  /** 0 / d = 0 for d > 0. */
  lemma ZeroDividend(d: real)
    requires d > 0.0
    ensures 0.0 / d == 0.0
  {
  }

  /** The root of a square is the original non-negative number. */
  lemma SqrtOfSquare(sqrt: real -> real, r: real)
    requires IsSqrt(sqrt)
    requires r >= 0.0
    ensures sqrt(r * r) == r
  {
    var s := sqrt(r * r);
    assert s >= 0.0 && s * s == r * r;
    DifferenceOfSquares(s, r);
    ZeroProduct(s - r, s + r);
  }

  lemma DifferenceOfSquares(s: real, r: real)
    ensures (s - r) * (s + r) == s * s - r * r
  {
  }

  lemma ZeroProduct(a: real, b: real)
    requires a * b == 0.0
    ensures a == 0.0 || b == 0.0
  {
  }

  /** sqrt(0) is 0: a zero argument gives a zero result. */
  lemma SqrtZero(sqrt: real -> real)
    requires IsSqrt(sqrt)
    ensures sqrt(0.0) == 0.0
  {
    SqrtOfSquare(sqrt, 0.0);
  }

  /** The root of a positive number is positive, so dividing by it is defined. */
  lemma SqrtPositive(sqrt: real -> real, x: real)
    requires IsSqrt(sqrt)
    requires x > 0.0
    ensures sqrt(x) > 0.0
  {
  }
}
