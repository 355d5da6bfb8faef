/** One resonant mode of the analytic resonator model and the per-mode wake
    and impedance terms that `Resonators::wake_calc` and
    `Resonators::imped_calc` accumulate, together with their sums over a
    list of modes in the order the C++ loops add them. */
module Modes {
  import opened RealFacts
  import opened Transcendental
  import opened Complex

  /** A resonant mode: shunt resistance R, resonant frequency f_r, quality
      factor Q, and the angular resonant frequency ω_r that the constructor
      precomputes as 2π·f_r. */
  datatype Mode = Mode(rs: real, frequencyR: real, q: real, omegaR: real)

  /** Damping rate α = ω_r / (2Q). */
  function Alpha(m: Mode): real
    requires m.q != 0.0
  {
    m.omegaR / (2.0 * m.q)
  }

  /** ω_r² − α², whose square root is the damped frequency ω̄. */
  function Discriminant(m: Mode): real
    requires m.q != 0.0
  {
    Sq(m.omegaR) - Sq(Alpha(m))
  }

  /** The modes whose wake is a real number in `Resonators::wake_calc`: Q is nonzero (so
      α is finite) and ω_r² − α² is positive (so ω̄ is a nonzero real and
      α/ω̄ is finite). Every other mode yields NaN or infinity there. */
  predicate Underdamped(m: Mode)
  {
    m.q != 0.0 && Discriminant(m) > 0.0
  }

  predicate AllUnderdamped(ms: seq<Mode>)
  {
    forall i :: 0 <= i < |ms| ==> Underdamped(ms[i])
  }

  /** Damped angular frequency ω̄ = sqrt(ω_r² − α²). */
  function OmegaBar(fs: Functions, m: Mode): (r: real)
    requires Valid(fs) && Underdamped(m)
    ensures 0.0 < r
    ensures Sq(r) == Discriminant(m)
  {
    SqrtPositive(fs, Discriminant(m));
    fs.sqrt(Discriminant(m))
  }

  /** The integer `(t > 0) - (t < 0)` of `Resonators::wake_calc`. The sample weight
      `sign + 1` is therefore 0 before the origin, 1 at it and 2 after it. */
  function Sign(t: real): int
  {
    (if t > 0.0 then 1 else 0) - (if t < 0.0 then 1 else 0)
  }

  /** The contribution of one mode to the wake at time t, as one iteration
      of the inner loop of `wake_calc` adds it. */
  function ModeWake(fs: Functions, m: Mode, t: real): (w: real)
    requires Valid(fs) && Underdamped(m)
    ensures t < 0.0 ==> w == 0.0
    ensures t == 0.0 ==> w == m.rs * Alpha(m)
  {
    var alpha := Alpha(m);
    var omegaBar := OmegaBar(fs, m);
    (Sign(t) + 1) as real * m.rs * alpha * fs.exp(-alpha * t)
      * (fs.cos(omegaBar * t) - alpha / omegaBar * fs.sin(omegaBar * t))
  }

  /** The wake of one mode as the doc comment of the constructor writes it:
      W(t>0) = 2αR·e^(−αt)·(cos ω̄t − (α/ω̄)·sin ω̄t) and W(0) = αR, and
      nothing before the particle passes. */
  function DocumentedWake(fs: Functions, m: Mode, t: real): real
    requires Valid(fs) && Underdamped(m)
  {
    var alpha := Alpha(m);
    var omegaBar := OmegaBar(fs, m);
    if t > 0.0 then
      2.0 * alpha * m.rs * fs.exp(-alpha * t)
        * (fs.cos(omegaBar * t) - alpha / omegaBar * fs.sin(omegaBar * t))
    else if t == 0.0 then
      alpha * m.rs
    else
      0.0
  }

  /** Σ R·α over the modes: the documented wake at the origin, summed. */
  function OriginWake(ms: seq<Mode>): real
    requires AllUnderdamped(ms)
    decreases |ms|
  {
    if |ms| == 0 then 0.0
    else OriginWake(ms[..|ms| - 1]) + ms[|ms| - 1].rs * Alpha(ms[|ms| - 1])
  }

  /** The wake of a list of modes at time t, adding one mode after the other
      to an initial 0 as `wake_calc` does. */
  function WakeSum(fs: Functions, ms: seq<Mode>, t: real): (w: real)
    requires Valid(fs) && AllUnderdamped(ms)
    ensures t < 0.0 ==> w == 0.0
    ensures t == 0.0 ==> w == OriginWake(ms)
    decreases |ms|
  {
    if |ms| == 0 then 0.0
    else WakeSum(fs, ms[..|ms| - 1], t) + ModeWake(fs, ms[|ms| - 1], t)
  }

  /** The impedance of a mode is evaluated only away from f = 0 and for a
      nonzero resonant frequency: both appear as divisors. */
  predicate ImpedanceDefinedAt(m: Mode, f: real)
  {
    m.frequencyR != 0.0 && f != 0.0
  }

  /** Q·(f/f_r − f_r/f), the imaginary part of the denominator. */
  function Detuning(m: Mode, f: real): real
    requires ImpedanceDefinedAt(m, f)
  {
    m.q * (f / m.frequencyR - m.frequencyR / f)
  }

  /** The contribution of one mode to the impedance at frequency f,
      R / (1 + jQ(f/f_r − f_r/f)). */
  function ModeImpedance(m: Mode, f: real): (z: Complex)
    requires ImpedanceDefinedAt(m, f)
    ensures Mul(z, Complex(1.0, Detuning(m, f))) == Complex(m.rs, 0.0)
  {
    Div(Complex(m.rs, 0.0), Complex(1.0, Detuning(m, f)))
  }

  /** Σ R over the modes: the impedance every mode reaches at its own
      resonance, summed. */
  function ShuntSum(ms: seq<Mode>): real
    decreases |ms|
  {
    if |ms| == 0 then 0.0 else ShuntSum(ms[..|ms| - 1]) + ms[|ms| - 1].rs
  }

  predicate AllImpedanceDefinedAt(ms: seq<Mode>, f: real)
  {
    forall i :: 0 <= i < |ms| ==> ImpedanceDefinedAt(ms[i], f)
  }

  predicate AllPassive(ms: seq<Mode>)
  {
    forall i :: 0 <= i < |ms| ==> ms[i].rs >= 0.0
  }

  /** The impedance of a list of modes at frequency f, adding one mode after
      the other to an initial (0, 0) as `imped_calc` does. */
  function ImpedanceSum(ms: seq<Mode>, f: real): Complex
    requires AllImpedanceDefinedAt(ms, f)
    decreases |ms|
  {
    if |ms| == 0 then Zero
    else Add(ImpedanceSum(ms[..|ms| - 1], f), ModeImpedance(ms[|ms| - 1], f))
  }

  /** With non-negative shunt resistances the real part of the impedance
      lies between 0 and Σ R at every frequency. */
  lemma {:induction false} ImpedanceSumPassive(ms: seq<Mode>, f: real)
    requires AllImpedanceDefinedAt(ms, f) && AllPassive(ms)
    ensures 0.0 <= ImpedanceSum(ms, f).re <= ShuntSum(ms)
    decreases |ms|
  {
    if |ms| > 0 {
      var ms' := ms[..|ms| - 1];
      assert AllImpedanceDefinedAt(ms', f) && AllPassive(ms');
      ImpedanceSumPassive(ms', f);
      ModeImpedanceBounds(ms[|ms| - 1], f);
    }
  }

  /** The real and imaginary parts of one mode's impedance: with x the
      detuning, Re Z = R/(1 + x²) and Im Z = −R·x/(1 + x²). */
  lemma ModeImpedanceParts(m: Mode, f: real)
    requires ImpedanceDefinedAt(m, f)
    ensures var x := Detuning(m, f);
      && ModeImpedance(m, f).re == m.rs / (1.0 + Sq(x))
      && ModeImpedance(m, f).im == -(m.rs * x) / (1.0 + Sq(x))
  {
    var x := Detuning(m, f);
    var b := Complex(1.0, x);
    assert Norm(b) == 1.0 + Sq(x) by {
      assert Sq(1.0) == 1.0;
    }
  }

  /** With R ≥ 0 the real part of one mode's impedance lies in [0, R], and
      it reaches R exactly when the detuning is zero. */
  lemma ModeImpedanceBounds(m: Mode, f: real)
    requires ImpedanceDefinedAt(m, f)
    ensures m.rs >= 0.0 ==> 0.0 <= ModeImpedance(m, f).re <= m.rs
    ensures ModeImpedance(m, f).re == m.rs <==> m.rs == 0.0 || Detuning(m, f) == 0.0
  {
    ModeImpedanceParts(m, f);
    RealPartBounds(m.rs, Detuning(m, f), ModeImpedance(m, f).re);
  }

  /** The real part R/(1 + x²) of a single-mode impedance, bounded. */
  lemma RealPartBounds(rs: real, x: real, re: real)
    requires re == rs / (1.0 + Sq(x))
    ensures rs >= 0.0 ==> 0.0 <= re <= rs
    ensures re == rs <==> rs == 0.0 || x == 0.0
  {
    SqSign(x);
    var d := 1.0 + Sq(x);
    assert re * d == rs;
    QuotientBounds(rs, d, re);
    if re == rs && rs != 0.0 {
      assert rs * d == rs * 1.0;
      CancelFactor(rs, d, 1.0);
    }
  }

  /** The per-mode wake of `wake_calc` is the documented wake: the weight
      `sign + 1` doubles the causal wake after the origin, halves it at the
      origin, and removes it before. */
  lemma ModeWakeIsDocumented(fs: Functions, m: Mode, t: real)
    requires Valid(fs) && Underdamped(m)
    ensures ModeWake(fs, m, t) == DocumentedWake(fs, m, t)
  {
    if t > 0.0 {
      var alpha := Alpha(m);
      var omegaBar := OmegaBar(fs, m);
      var e := fs.exp(-alpha * t);
      var c := fs.cos(omegaBar * t) - alpha / omegaBar * fs.sin(omegaBar * t);
      assert 2.0 * m.rs * alpha * e * c == 2.0 * alpha * m.rs * e * c;
    }
  }

  /** At its own resonant frequency a mode's impedance is purely real and
      equal to its shunt resistance. */
  lemma ModeImpedanceAtResonance(m: Mode)
    requires m.frequencyR != 0.0
    ensures ModeImpedance(m, m.frequencyR) == Complex(m.rs, 0.0)
  {
    assert m.frequencyR / m.frequencyR == 1.0;
    assert Detuning(m, m.frequencyR) == 0.0;
    ModeImpedanceParts(m, m.frequencyR);
    assert Sq(0.0) == 0.0;
  }

  /** The impedance at −f is the complex conjugate of the impedance at f, as
      for the transform of any real wake. */
  lemma ModeImpedanceConjugate(m: Mode, f: real)
    requires ImpedanceDefinedAt(m, f)
    ensures ModeImpedance(m, -f) == Conj(ModeImpedance(m, f))
  {
    DetuningOdd(m, f);
    ModeImpedanceParts(m, f);
    ModeImpedanceParts(m, -f);
    NegatedDetuningParts(m.rs, Detuning(m, f));
  }

  /** Reversing the frequency reverses the detuning. */
  lemma DetuningOdd(m: Mode, f: real)
    requires ImpedanceDefinedAt(m, f)
    ensures ImpedanceDefinedAt(m, -f) && Detuning(m, -f) == -Detuning(m, f)
  {
    var u := f / m.frequencyR;
    assert u * m.frequencyR == f;
    QuotientUnique(-f, m.frequencyR, -u);
    var g := m.frequencyR / f;
    assert g * f == m.frequencyR;
    assert (-g) * (-f) == m.frequencyR;
    QuotientUnique(m.frequencyR, -f, -g);
  }

  /** The parts R/(1 + x²) and −R·x/(1 + x²) at −x: the same real part and
      the opposite imaginary part. */
  lemma NegatedDetuningParts(rs: real, x: real)
    ensures rs / (1.0 + Sq(-x)) == rs / (1.0 + Sq(x))
    ensures -(rs * -x) / (1.0 + Sq(-x)) == -(-(rs * x) / (1.0 + Sq(x)))
  {
    assert Sq(-x) == Sq(x);
    assert -(rs * -x) == rs * x;
  }

  /** A mode built by the constructor, with ω_r = 2π·f_r, is underdamped
      exactly when f_r ≠ 0 and Q² > 1/4: the condition under which the
      wake of `Resonators::wake_calc` is finite. */
  lemma UnderdampedExactly(fs: Functions, rs: real, frequencyR: real, q: real)
    requires Valid(fs)
    ensures Underdamped(Mode(rs, frequencyR, q, 2.0 * fs.pi * frequencyR))
        <==> frequencyR != 0.0 && 4.0 * Sq(q) > 1.0
  {
    var m := Mode(rs, frequencyR, q, 2.0 * fs.pi * frequencyR);
    var omega := m.omegaR;
    SqSign(q);
    if q != 0.0 {
      var alpha := Alpha(m);
      assert alpha * (2.0 * q) == omega;
      var a := Sq(alpha);
      var k := 4.0 * Sq(q);
      assert Sq(omega) == a * k by {
        assert Sq(omega) == (alpha * (2.0 * q)) * (alpha * (2.0 * q));
      }
      assert Discriminant(m) == a * (k - 1.0);
      SqSign(alpha);
      if alpha == 0.0 {
        assert omega == 0.0;
        PositiveFactor(2.0 * fs.pi, frequencyR, omega);
      } else {
        PositiveFactor(a, k - 1.0, Discriminant(m));
        PositiveFactor(2.0 * fs.pi, frequencyR, omega);
      }
    }
  }
}
