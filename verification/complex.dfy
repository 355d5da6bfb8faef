/** Complex numbers as pairs of reals, standing in for `complex_t`
    (`std::complex<double>`) in the C++ code. Only the operations
    the resonator impedance needs are defined. */
module Complex {
  import opened RealFacts

  datatype Complex = Complex(re: real, im: real)

  const Zero: Complex := Complex(0.0, 0.0)

  function Add(a: Complex, b: Complex): Complex
  {
    Complex(a.re + b.re, a.im + b.im)
  }

  function Mul(a: Complex, b: Complex): Complex
  {
    Complex(a.re * b.re - a.im * b.im, a.re * b.im + a.im * b.re)
  }

  function Conj(a: Complex): Complex
  {
    Complex(a.re, -a.im)
  }

  /** Squared modulus |a|², zero only at the origin. */
  function Norm(a: Complex): (r: real)
    ensures 0.0 <= r
    ensures r == 0.0 <==> a == Zero
  {
    SqSign(a.re);
    SqSign(a.im);
    assert a == Zero <==> a.re == 0.0 && a.im == 0.0;
    Sq(a.re) + Sq(a.im)
  }

  /** Quotient a / b, written out as a·conj(b) / |b|². Division by the zero
      complex number is left undefined. */
  function Div(a: Complex, b: Complex): (r: Complex)
    requires b != Zero
    ensures Mul(r, b) == a
  {
    var n := Norm(b);
    DivIsInverse(a, b, n);
    Complex((a.re * b.re + a.im * b.im) / n, (a.im * b.re - a.re * b.im) / n)
  }

  lemma DivIsInverse(a: Complex, b: Complex, n: real)
    requires n == b.re * b.re + b.im * b.im && n != 0.0
    ensures Mul(Complex((a.re * b.re + a.im * b.im) / n, (a.im * b.re - a.re * b.im) / n), b) == a
  {
    var x := (a.re * b.re + a.im * b.im) / n;
    var y := (a.im * b.re - a.re * b.im) / n;
    assert x * n == a.re * b.re + a.im * b.im;
    assert y * n == a.im * b.re - a.re * b.im;
    calc {
      (x * b.re - y * b.im) * n;
      (x * n) * b.re - (y * n) * b.im;
      (a.re * b.re + a.im * b.im) * b.re - (a.im * b.re - a.re * b.im) * b.im;
      a.re * n;
    }
    calc {
      (x * b.im + y * b.re) * n;
      (x * n) * b.im + (y * n) * b.re;
      (a.re * b.re + a.im * b.im) * b.im + (a.im * b.re - a.re * b.im) * b.re;
      a.im * n;
    }
  }
}
