/** The wake and the impedance of several resonant modes are sums of
    independent per-mode contributions: splitting the list of modes splits
    the sum, and the order in which `wake_calc` and `imped_calc` visit the
    modes does not change the result. */
module ModeSums {
  import opened Transcendental
  import opened Complex
  import opened Modes

  lemma AllUnderdampedSlices(ms: seq<Mode>, i: nat, j: nat)
    requires AllUnderdamped(ms) && i <= j <= |ms|
    ensures AllUnderdamped(ms[i..j])
  {
    assert forall k :: 0 <= k < j - i ==> ms[i..j][k] == ms[i + k];
  }

  lemma AllUnderdampedConcat(a: seq<Mode>, b: seq<Mode>)
    requires AllUnderdamped(a) && AllUnderdamped(b)
    ensures AllUnderdamped(a + b)
  {
    forall k | 0 <= k < |a + b|
      ensures Underdamped((a + b)[k])
    {
      if k < |a| {
        assert (a + b)[k] == a[k];
      } else {
        assert (a + b)[k] == b[k - |a|];
      }
    }
  }

  /** Adding one mode at the end adds its term to the wake. */
  lemma WakeSumSnoc(fs: Functions, ms: seq<Mode>, x: Mode, t: real)
    requires Valid(fs) && AllUnderdamped(ms) && Underdamped(x)
    ensures AllUnderdamped(ms + [x])
    ensures WakeSum(fs, ms + [x], t) == WakeSum(fs, ms, t) + ModeWake(fs, x, t)
  {
    assert (ms + [x])[..|ms|] == ms;
  }

  /** The wake of the concatenation of two lists of modes is the sum of
      their wakes. */
  lemma {:induction false} WakeSumAppend(fs: Functions, a: seq<Mode>, b: seq<Mode>, t: real)
    requires Valid(fs) && AllUnderdamped(a) && AllUnderdamped(b)
    ensures AllUnderdamped(a + b)
    ensures WakeSum(fs, a + b, t) == WakeSum(fs, a, t) + WakeSum(fs, b, t)
    decreases |b|
  {
    AllUnderdampedConcat(a, b);
    if |b| == 0 {
      assert a + b == a;
    } else {
      var b' := b[..|b| - 1];
      var x := b[|b| - 1];
      AllUnderdampedSlices(b, 0, |b| - 1);
      assert b == b' + [x];
      assert a + b == (a + b') + [x];
      WakeSumAppend(fs, a, b', t);
      WakeSumSnoc(fs, a + b', x, t);
      WakeSumSnoc(fs, b', x, t);
    }
  }

  /** Taking one mode out of the list takes its contribution out of the
      wake. */
  lemma WakeSumRemove(fs: Functions, b: seq<Mode>, k: nat, t: real)
    requires Valid(fs) && AllUnderdamped(b) && k < |b|
    ensures AllUnderdamped(b[..k] + b[k + 1..])
    ensures WakeSum(fs, b, t) == WakeSum(fs, b[..k] + b[k + 1..], t) + ModeWake(fs, b[k], t)
  {
    var x := b[k];
    AllUnderdampedSlices(b, 0, k);
    AllUnderdampedSlices(b, k + 1, |b|);
    AllUnderdampedSlices(b, k, k + 1);
    assert b[k..k + 1] == [x];
    assert b == (b[..k] + [x]) + b[k + 1..];
    WakeSumAppend(fs, b[..k], b[k + 1..], t);
    WakeSumAppend(fs, b[..k], [x], t);
    WakeSumAppend(fs, b[..k] + [x], b[k + 1..], t);
    assert WakeSum(fs, [x], t) == ModeWake(fs, x, t) by {
      assert [x][..0] == [];
    }
  }

  /** Taking the last mode off one list and the same mode off an equal
      multiset leaves equal multisets. */
  lemma MultisetWithout(a: seq<Mode>, b: seq<Mode>, k: nat)
    requires multiset(a) == multiset(b) && 0 < |a| && k < |b| && b[k] == a[|a| - 1]
    ensures multiset(a[..|a| - 1]) == multiset(b[..k] + b[k + 1..])
  {
    var x := b[k];
    assert a == a[..|a| - 1] + [x];
    assert b == b[..k] + [x] + b[k + 1..];
    assert multiset(b) == multiset(b[..k]) + multiset{x} + multiset(b[k + 1..]);
    assert multiset(a) == multiset(a[..|a| - 1]) + multiset{x};
    calc {
      multiset(a[..|a| - 1]);
      multiset(a) - multiset{x};
      multiset(b[..k]) + multiset(b[k + 1..]) + multiset{x} - multiset{x};
      multiset(b[..k]) + multiset(b[k + 1..]);
      multiset(b[..k] + b[k + 1..]);
    }
  }

  /** The wake does not depend on the order of the modes. */
  lemma {:induction false} WakeSumPermutation(fs: Functions, a: seq<Mode>, b: seq<Mode>, t: real)
    requires Valid(fs) && AllUnderdamped(a) && multiset(a) == multiset(b)
    ensures AllUnderdamped(b)
    ensures WakeSum(fs, a, t) == WakeSum(fs, b, t)
    decreases |a|
  {
    forall k | 0 <= k < |b|
      ensures Underdamped(b[k])
    {
      assert b[k] in multiset(a);
    }
    if |a| == 0 {
      assert b == [];
    } else {
      var x := a[|a| - 1];
      var a' := a[..|a| - 1];
      assert x in multiset(b);
      var k :| 0 <= k < |b| && b[k] == x;
      var rest := b[..k] + b[k + 1..];
      MultisetWithout(a, b, k);
      AllUnderdampedSlices(a, 0, |a| - 1);
      WakeSumPermutation(fs, a', rest, t);
      WakeSumRemove(fs, b, k, t);
    }
  }

  lemma AllImpedanceDefinedSlices(ms: seq<Mode>, f: real, i: nat, j: nat)
    requires AllImpedanceDefinedAt(ms, f) && i <= j <= |ms|
    ensures AllImpedanceDefinedAt(ms[i..j], f)
  {
    assert forall k :: 0 <= k < j - i ==> ms[i..j][k] == ms[i + k];
  }

  lemma AllImpedanceDefinedConcat(a: seq<Mode>, b: seq<Mode>, f: real)
    requires AllImpedanceDefinedAt(a, f) && AllImpedanceDefinedAt(b, f)
    ensures AllImpedanceDefinedAt(a + b, f)
  {
    forall k | 0 <= k < |a + b|
      ensures ImpedanceDefinedAt((a + b)[k], f)
    {
      if k < |a| {
        assert (a + b)[k] == a[k];
      } else {
        assert (a + b)[k] == b[k - |a|];
      }
    }
  }

  /** Adding one mode at the end adds its term to the impedance. */
  lemma ImpedanceSumSnoc(ms: seq<Mode>, x: Mode, f: real)
    requires AllImpedanceDefinedAt(ms, f) && ImpedanceDefinedAt(x, f)
    ensures AllImpedanceDefinedAt(ms + [x], f)
    ensures ImpedanceSum(ms + [x], f) == Add(ImpedanceSum(ms, f), ModeImpedance(x, f))
  {
    assert (ms + [x])[..|ms|] == ms;
  }

  /** The impedance of the concatenation of two lists of modes is the sum
      of their impedances. */
  lemma {:induction false} ImpedanceSumAppend(a: seq<Mode>, b: seq<Mode>, f: real)
    requires AllImpedanceDefinedAt(a, f) && AllImpedanceDefinedAt(b, f)
    ensures AllImpedanceDefinedAt(a + b, f)
    ensures ImpedanceSum(a + b, f) == Add(ImpedanceSum(a, f), ImpedanceSum(b, f))
    decreases |b|
  {
    AllImpedanceDefinedConcat(a, b, f);
    if |b| == 0 {
      assert a + b == a;
    } else {
      var b' := b[..|b| - 1];
      var x := b[|b| - 1];
      AllImpedanceDefinedSlices(b, f, 0, |b| - 1);
      assert b == b' + [x];
      assert a + b == (a + b') + [x];
      ImpedanceSumAppend(a, b', f);
      ImpedanceSumSnoc(a + b', x, f);
      ImpedanceSumSnoc(b', x, f);
    }
  }

  /** Taking one mode out of the list takes its contribution out of the
      impedance. */
  lemma ImpedanceSumRemove(b: seq<Mode>, k: nat, f: real)
    requires AllImpedanceDefinedAt(b, f) && k < |b|
    ensures AllImpedanceDefinedAt(b[..k] + b[k + 1..], f)
    ensures ImpedanceSum(b, f) == Add(ImpedanceSum(b[..k] + b[k + 1..], f), ModeImpedance(b[k], f))
  {
    var x := b[k];
    AllImpedanceDefinedSlices(b, f, 0, k);
    AllImpedanceDefinedSlices(b, f, k + 1, |b|);
    AllImpedanceDefinedSlices(b, f, k, k + 1);
    assert b[k..k + 1] == [x];
    assert b == (b[..k] + [x]) + b[k + 1..];
    ImpedanceSumAppend(b[..k], b[k + 1..], f);
    ImpedanceSumAppend(b[..k], [x], f);
    ImpedanceSumAppend(b[..k] + [x], b[k + 1..], f);
    assert ImpedanceSum([x], f) == ModeImpedance(x, f) by {
      assert [x][..0] == [];
    }
  }

  /** The impedance does not depend on the order of the modes. */
  lemma {:induction false} ImpedanceSumPermutation(a: seq<Mode>, b: seq<Mode>, f: real)
    requires AllImpedanceDefinedAt(a, f) && multiset(a) == multiset(b)
    ensures AllImpedanceDefinedAt(b, f)
    ensures ImpedanceSum(a, f) == ImpedanceSum(b, f)
    decreases |a|
  {
    forall k | 0 <= k < |b|
      ensures ImpedanceDefinedAt(b[k], f)
    {
      assert b[k] in multiset(a);
    }
    if |a| == 0 {
      assert b == [];
    } else {
      var x := a[|a| - 1];
      var a' := a[..|a| - 1];
      assert x in multiset(b);
      var k :| 0 <= k < |b| && b[k] == x;
      var rest := b[..k] + b[k + 1..];
      MultisetWithout(a, b, k);
      AllImpedanceDefinedSlices(a, f, 0, |a| - 1);
      ImpedanceSumPermutation(a', rest, f);
      ImpedanceSumRemove(b, k, f);
    }
  }
}
