/** The `Resonators` wake source of `src/impedances/Intensity.cpp`: its
    constructor and the two calculations that fill its wake over a time grid
    and its impedance over a frequency grid. The object is a value here; each
    calculation returns the updated object. */
module ResonatorsSource {
  import opened Transcendental
  import opened Complex
  import opened Modes
  import opened RealFacts

  /** The fields of a `Resonators` object: the parallel mode tables, their
      count, the precomputed ω_r, and the grids and results of the last
      wake and impedance calculations. */
  datatype Resonators = Resonators(
    rs: seq<real>,
    frequencyR: seq<real>,
    q: seq<real>,
    nResonators: nat,
    omegaR: seq<real>,
    timeArray: seq<real>,
    wake: seq<real>,
    freqArray: seq<real>,
    impedance: seq<Complex>)

  /** The calculations read entry i of every mode table for i below the
      mode count; the C++ code never checks this, it relies on callers
      passing tables of one length. */
  predicate Shaped(r: Resonators)
  {
    && r.nResonators == |r.rs| == |r.omegaR|
    && |r.frequencyR| >= r.nResonators
    && |r.q| >= r.nResonators
  }

  /** The modes of the object, one per index below the mode count. */
  function ModesOf(r: Resonators): (ms: seq<Mode>)
    requires Shaped(r)
    ensures |ms| == r.nResonators
  {
    seq(r.nResonators, i requires 0 <= i < r.nResonators =>
      Mode(r.rs[i], r.frequencyR[i], r.q[i], r.omegaR[i]))
  }

  /** The constructor: stores the three tables, counts the modes by the
      length of the shunt resistance table, and records ω_r = 2π·f_r for
      each of them. */
  method Build(fs: Functions, rs: seq<real>, frequencyR: seq<real>, q: seq<real>)
    returns (r: Resonators)
    requires |frequencyR| >= |rs|
    ensures r.rs == rs && r.frequencyR == frequencyR && r.q == q
    ensures r.nResonators == |rs|
    ensures |r.omegaR| == |rs|
    ensures forall i :: 0 <= i < |rs| ==> r.omegaR[i] == 2.0 * fs.pi * frequencyR[i]
    ensures r.timeArray == [] && r.wake == [] && r.freqArray == [] && r.impedance == []
    ensures |q| >= |rs| ==> Shaped(r)
  {
    var omegaR: seq<real> := [];
    for i := 0 to |rs|
      invariant |omegaR| == i
      invariant forall k :: 0 <= k < i ==> omegaR[k] == 2.0 * fs.pi * frequencyR[k]
    {
      omegaR := omegaR + [2.0 * fs.pi * frequencyR[i]];
    }
    r := Resonators(rs, frequencyR, q, |rs|, omegaR, [], [], [], []);
  }

  /** For an object whose ω_r were recorded by the constructor, the wake is
      defined for all modes exactly when every f_r is nonzero and every
      Q² exceeds 1/4. */
  lemma ConstructedModesUnderdamped(fs: Functions, r: Resonators)
    requires Valid(fs) && Shaped(r)
    requires forall i :: 0 <= i < r.nResonators ==> r.omegaR[i] == 2.0 * fs.pi * r.frequencyR[i]
    ensures AllUnderdamped(ModesOf(r)) <==>
      forall i :: 0 <= i < r.nResonators ==> r.frequencyR[i] != 0.0 && 4.0 * Sq(r.q[i]) > 1.0
  {
    var ms := ModesOf(r);
    forall i | 0 <= i < r.nResonators
      ensures Underdamped(ms[i]) <==> r.frequencyR[i] != 0.0 && 4.0 * Sq(r.q[i]) > 1.0
    {
      UnderdampedExactly(fs, r.rs[i], r.frequencyR[i], r.q[i]);
    }
  }

  /** The inner loop of `wake_calc`: adds one mode's contribution to every
      sample of the wake (the sample formula is `Modes.ModeWake`). */
  method AddModeWake(fs: Functions, m: Mode, times: seq<real>, wake: seq<real>)
    returns (w: seq<real>)
    requires Valid(fs) && |wake| == |times|
    requires |times| > 0 ==> Underdamped(m)
    ensures |w| == |times|
    ensures forall k :: 0 <= k < |w| ==> w[k] == wake[k] + ModeWake(fs, m, times[k])
  {
    w := wake;
    for j := 0 to |w|
      invariant |w| == |times|
      invariant forall k :: 0 <= k < j ==> w[k] == wake[k] + ModeWake(fs, m, times[k])
      invariant forall k :: j <= k < |w| ==> w[k] == wake[k]
    {
      w := w[j := w[j] + ModeWake(fs, m, times[j])];
    }
  }

  /** `wake_calc`: replaces the time grid, and overwrites the wake with
      zeros before adding every mode's contribution at every sample. The
      result is the sum over the modes at each sample and does not depend on
      the wake held before. */
  method WakeCalc(fs: Functions, self: Resonators, newTimeArray: seq<real>)
    returns (r: Resonators)
    requires Valid(fs) && Shaped(self)
    requires |newTimeArray| > 0 ==> AllUnderdamped(ModesOf(self))
    ensures r == self.(timeArray := newTimeArray, wake := r.wake)
    ensures |r.wake| == |newTimeArray|
    ensures forall j :: 0 <= j < |newTimeArray| ==>
      r.wake[j] == WakeSum(fs, ModesOf(self), newTimeArray[j])
  {
    var ms := ModesOf(self);
    var wake := seq(|newTimeArray|, _ => 0.0);
    for i := 0 to self.nResonators
      invariant |wake| == |newTimeArray|
      invariant |wake| > 0 ==> AllUnderdamped(ms[..i])
      invariant forall k :: 0 <= k < |wake| ==> wake[k] == WakeSum(fs, ms[..i], newTimeArray[k])
    {
      assert ms[..i + 1][..i] == ms[..i];
      assert ms[..i + 1][i] == ms[i];
      assert |wake| > 0 ==> AllUnderdamped(ms[..i + 1]);
      wake := AddModeWake(fs, ms[i], newTimeArray, wake);
    }
    assert ms[..self.nResonators] == ms;
    r := self.(timeArray := newTimeArray, wake := wake);
  }

  /** Every mode's impedance is evaluated at every grid frequency except the
      first: f_r and those frequencies must be nonzero. */
  predicate ImpedanceDefinedOn(ms: seq<Mode>, freqs: seq<real>)
  {
    forall i, j :: 0 <= i < |ms| && 1 <= j < |freqs| ==> ImpedanceDefinedAt(ms[i], freqs[j])
  }

  /** The inner loop of `imped_calc`: adds one mode's contribution to
      every entry of the impedance but the first (the sample formula is
      `Modes.ModeImpedance`). */
  method AddModeImpedance(m: Mode, freqs: seq<real>, z: seq<Complex>) returns (w: seq<Complex>)
    requires |z| == |freqs|
    requires forall k :: 1 <= k < |freqs| ==> ImpedanceDefinedAt(m, freqs[k])
    ensures |w| == |freqs|
    ensures |w| > 0 ==> w[0] == z[0]
    ensures forall k :: 1 <= k < |w| ==> w[k] == Add(z[k], ModeImpedance(m, freqs[k]))
  {
    w := z;
    if |w| > 0 {
      for j := 1 to |w|
        invariant |w| == |freqs| && w[0] == z[0]
        invariant forall k :: 1 <= k < j ==> w[k] == Add(z[k], ModeImpedance(m, freqs[k]))
        invariant forall k :: j <= k < |w| ==> w[k] == z[k]
      {
        w := w[j := Add(w[j], ModeImpedance(m, freqs[j]))];
      }
    }
  }

  /** `imped_calc`: replaces the frequency grid, and overwrites the
      impedance with (0, 0) before adding every mode's contribution at every
      frequency but the first. Entry 0, the zero-frequency sentinel, stays
      (0, 0) whatever the modes and the grid. */
  method ImpedCalc(self: Resonators, newFrequencyArray: seq<real>) returns (r: Resonators)
    requires Shaped(self) && ImpedanceDefinedOn(ModesOf(self), newFrequencyArray)
    ensures r == self.(freqArray := newFrequencyArray, impedance := r.impedance)
    ensures |r.impedance| == |newFrequencyArray|
    ensures |newFrequencyArray| > 0 ==> r.impedance[0] == Zero
    ensures forall j :: 1 <= j < |newFrequencyArray| ==>
      AllImpedanceDefinedAt(ModesOf(self), newFrequencyArray[j]) &&
      r.impedance[j] == ImpedanceSum(ModesOf(self), newFrequencyArray[j])
  {
    var ms := ModesOf(self);
    var impedance := seq(|newFrequencyArray|, _ => Zero);
    for i := 0 to self.nResonators
      invariant |impedance| == |newFrequencyArray|
      invariant |impedance| > 0 ==> impedance[0] == Zero
      invariant forall k :: 1 <= k < |impedance| ==>
        AllImpedanceDefinedAt(ms[..i], newFrequencyArray[k]) &&
        impedance[k] == ImpedanceSum(ms[..i], newFrequencyArray[k])
    {
      assert ms[..i + 1][..i] == ms[..i];
      assert ms[..i + 1][i] == ms[i];
      impedance := AddModeImpedance(ms[i], newFrequencyArray, impedance);
    }
    assert ms[..self.nResonators] == ms;
    r := self.(freqArray := newFrequencyArray, impedance := impedance);
  }
}
