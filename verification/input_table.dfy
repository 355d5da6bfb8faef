/** The `InputTable` wake source of `src/impedances/Intensity.cpp`: a table
    loaded either in the time domain (time, wake) or in the frequency domain
    (frequency, real and imaginary impedance). Only its constructor is
    modelled; the interpolation that evaluates the table lives elsewhere. */
module InputTableSource {
  import opened Complex

  /** The fields of an `InputTable` object. The fields of the domain not
      loaded stay empty. */
  datatype InputTable = InputTable(
    timeArray: seq<real>,
    wakeArray: seq<real>,
    frequencyArrayLoaded: seq<real>,
    reZArrayLoaded: seq<real>,
    imZArrayLoaded: seq<real>,
    impedanceLoaded: seq<Complex>)

  /** The one failure the constructor checks: real and imaginary parts of
      different lengths. */
  datatype TableError = ImpedancePartsMismatch

  datatype Result<T> = Ok(value: T) | Err(error: TableError)

  /** The complex impedance samples, built by pairing the two part tables
      entry by entry, in order. */
  function ZipImpedance(re: seq<real>, im: seq<real>): (z: seq<Complex>)
    requires |re| == |im|
    ensures |z| == |re|
    ensures forall i :: 0 <= i < |z| ==> z[i] == Complex(re[i], im[i])
    decreases |re|
  {
    if |re| == 0 then []
    else ZipImpedance(re[..|re| - 1], im[..|im| - 1]) + [Complex(re[|re| - 1], im[|im| - 1])]
  }

  /** How many zero samples the constructor puts in front of the frequency
      tables: one when the first loaded frequency is not 0, none otherwise. */
  function SentinelCount(frequencies: seq<real>): nat
    requires |frequencies| > 0
  {
    if frequencies[0] != 0.0 then 1 else 0
  }

  /** Prepends `count` zeros. */
  function ZeroPadded(xs: seq<real>, count: nat): seq<real>
  {
    seq(count, _ => 0.0) + xs
  }

  /** The constructor. With an empty third table it stores the time and
      wake tables as they are. Otherwise it checks that the real and
      imaginary parts have one length, records the complex samples, and then
      makes the frequency tables start at f = 0 by prepending a (0, 0 + 0j)
      sample when the first frequency is not 0. The length check comes
      first, so mismatched parts are an error whatever the frequency table
      holds; past it, the first frequency is read, which is undefined for an
      empty table, so the frequency table must then not be empty. */
  function NewInputTable(input1: seq<real>, input2: seq<real>, input3: seq<real>): (r: Result<InputTable>)
    requires |input3| > 0 && |input2| == |input3| ==> |input1| > 0
    ensures |input3| == 0 ==> r == Ok(InputTable(input1, input2, [], [], [], []))
    ensures |input3| > 0 ==> (r.Err? <==> |input2| != |input3|)
    ensures r.Ok? && |input3| > 0 ==>
      var t := r.value;
      var k := |t.frequencyArrayLoaded| - |input1|;
      && t.timeArray == [] && t.wakeArray == []
      && (k == 0 || k == 1) && (k == 1 <==> input1[0] != 0.0)
      && t.frequencyArrayLoaded[0] == 0.0
      && t.frequencyArrayLoaded[k..] == input1
      && |t.reZArrayLoaded| == |input2| + k && t.reZArrayLoaded[k..] == input2
      && |t.imZArrayLoaded| == |input3| + k && t.imZArrayLoaded[k..] == input3
      && (forall i :: 0 <= i < k ==> t.reZArrayLoaded[i] == 0.0 && t.imZArrayLoaded[i] == 0.0)
      && |t.impedanceLoaded| == |input2|
      && (forall i :: 0 <= i < |input2| ==> t.impedanceLoaded[i] == Complex(input2[i], input3[i]))
  {
    if |input3| == 0 then
      Ok(InputTable(input1, input2, [], [], [], []))
    else if |input2| != |input3| then
      Err(ImpedancePartsMismatch)
    else
      var impedance := ZipImpedance(input2, input3);
      var k := SentinelCount(input1);
      Ok(InputTable([], [], ZeroPadded(input1, k), ZeroPadded(input2, k), ZeroPadded(input3, k), impedance))
  }

  /** The complex samples keep the indices of the loaded tables: once the
      sentinel is prepended, sample i pairs the part tables' entries at
      i + 1, not at i. */
  lemma ImpedanceLoadedOmitsSentinel(input1: seq<real>, input2: seq<real>, input3: seq<real>)
    requires |input1| > 0 && |input3| > 0 && |input2| == |input3|
    ensures var t := NewInputTable(input1, input2, input3).value;
      var k := SentinelCount(input1);
      && |t.impedanceLoaded| + k == |t.reZArrayLoaded|
      && forall i :: 0 <= i < |t.impedanceLoaded| ==>
           t.impedanceLoaded[i] == Complex(t.reZArrayLoaded[i + k], t.imZArrayLoaded[i + k])
  {
    var t := NewInputTable(input1, input2, input3).value;
    var k := |t.frequencyArrayLoaded| - |input1|;
    assert k == SentinelCount(input1);
    ShiftedPairs(t.impedanceLoaded, t.reZArrayLoaded, t.imZArrayLoaded, input2, input3, k);
  }

  /** Samples pairing two tables still pair them after both tables get the
      same k entries prepended, at indices shifted by k. */
  lemma ShiftedPairs(z: seq<Complex>, re: seq<real>, im: seq<real>, re0: seq<real>, im0: seq<real>, k: nat)
    requires |re0| == |im0|
    requires |re| == |re0| + k && re[k..] == re0
    requires |im| == |im0| + k && im[k..] == im0
    requires |z| == |re0| && forall i :: 0 <= i < |z| ==> z[i] == Complex(re0[i], im0[i])
    ensures |z| + k == |re|
    ensures forall i :: 0 <= i < |z| ==> z[i] == Complex(re[i + k], im[i + k])
  {
    forall i | 0 <= i < |z|
      ensures z[i] == Complex(re[i + k], im[i + k])
    {
      assert re[i + k] == re[k..][i];
      assert im[i + k] == im[k..][i];
    }
  }

  /** Loading the stored frequency-domain tables again changes nothing in
      them: the sentinel is added at most once. */
  lemma ReloadKeepsTables(input1: seq<real>, input2: seq<real>, input3: seq<real>)
    requires |input1| > 0 && |input3| > 0 && |input2| == |input3|
    ensures var t := NewInputTable(input1, input2, input3).value;
      var t' := NewInputTable(t.frequencyArrayLoaded, t.reZArrayLoaded, t.imZArrayLoaded);
      && t'.Ok?
      && t'.value.frequencyArrayLoaded == t.frequencyArrayLoaded
      && t'.value.reZArrayLoaded == t.reZArrayLoaded
      && t'.value.imZArrayLoaded == t.imZArrayLoaded
  {
    var t := NewInputTable(input1, input2, input3).value;
    assert t.frequencyArrayLoaded[0] == 0.0;
    assert SentinelCount(t.frequencyArrayLoaded) == 0;
    assert ZeroPadded(t.frequencyArrayLoaded, 0) == t.frequencyArrayLoaded;
    assert ZeroPadded(t.reZArrayLoaded, 0) == t.reZArrayLoaded;
    assert ZeroPadded(t.imZArrayLoaded, 0) == t.imZArrayLoaded;
  }
}
