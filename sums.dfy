/** Exact sums and means of sequences of reals: the model's stand-in for
    numpy's `sum`, `cumsum` and `mean` (without floating-point rounding). */
module RealSums {

  /** The sum of a sequence, accumulated from the front as a loop would. */
  function Sum(s: seq<real>): real {
    if |s| == 0 then 0.0 else Sum(s[..|s| - 1]) + s[|s| - 1]
  }

  /** `numpy.mean` of a non-empty sequence. */
  function Mean(s: seq<real>): real
    requires |s| > 0
  {
    Sum(s) / |s| as real
  }

  lemma {:induction false} SumAppend(s: seq<real>, t: seq<real>)
    ensures Sum(s + t) == Sum(s) + Sum(t)
    decreases |t|
  {
    if |t| == 0 {
      assert s + t == s;
    } else {
      assert (s + t)[..|s + t| - 1] == s + t[..|t| - 1];
      SumAppend(s, t[..|t| - 1]);
    }
  }

  lemma {:induction false} SumNonNegative(s: seq<real>)
    requires forall i :: 0 <= i < |s| ==> s[i] >= 0.0
    ensures Sum(s) >= 0.0
    decreases |s|
  {
    if |s| > 0 {
      SumNonNegative(s[..|s| - 1]);
    }
  }

  /** With no negative entry, a prefix never sums to more than a longer prefix. */
  lemma {:induction false} PrefixSumMonotone(s: seq<real>, j: nat, k: nat)
    requires j <= k <= |s|
    requires forall i :: 0 <= i < |s| ==> s[i] >= 0.0
    ensures Sum(s[..j]) <= Sum(s[..k])
    decreases k - j
  {
    if j < k {
      PrefixSumMonotone(s, j, k - 1);
      assert s[..k][..k - 1] == s[..k - 1];
    }
  }

  /** With no negative entry, no entry exceeds the sum. */
  lemma EntryAtMostSum(s: seq<real>, k: nat)
    requires k < |s|
    requires forall i :: 0 <= i < |s| ==> s[i] >= 0.0
    ensures s[k] <= Sum(s)
  {
    PrefixSumMonotone(s, k, |s|);
    PrefixSumMonotone(s, 0, k);
    assert s[..k + 1][..k] == s[..k];
    PrefixSumMonotone(s, k + 1, |s|);
    assert s[..|s|] == s;
  }

  /** Dividing every entry by `d` divides the sum by `d`. */
  lemma {:induction false} SumScaled(s: seq<real>, t: seq<real>, d: real)
    requires |s| == |t| && d != 0.0
    requires forall i :: 0 <= i < |s| ==> t[i] == s[i] / d
    ensures Sum(t) == Sum(s) / d
    decreases |s|
  {
    if |s| > 0 {
      SumScaled(s[..|s| - 1], t[..|t| - 1], d);
    }
  }

  lemma {:induction false} SumConstant(s: seq<real>, v: real)
    requires forall i :: 0 <= i < |s| ==> s[i] == v
    ensures Sum(s) == |s| as real * v
    decreases |s|
  {
    if |s| > 0 {
      SumConstant(s[..|s| - 1], v);
    }
  }

  /** The sum of an entrywise sum is the sum of the sums. */
  lemma {:induction false} SumPointwise(a: seq<real>, b: seq<real>, c: seq<real>)
    requires |a| == |b| == |c|
    requires forall i :: 0 <= i < |c| ==> c[i] == a[i] + b[i]
    ensures Sum(c) == Sum(a) + Sum(b)
    decreases |c|
  {
    if |c| > 0 {
      SumPointwise(a[..|a| - 1], b[..|b| - 1], c[..|c| - 1]);
    }
  }

  /** A sequence that is 1 at `k` and 0 elsewhere sums to 1. */
  lemma {:induction false} SumIndicator(s: seq<real>, k: nat)
    requires k < |s|
    requires forall i :: 0 <= i < |s| ==> s[i] == if i == k then 1.0 else 0.0
    ensures Sum(s) == 1.0
  {
    var zeros := s[..k];
    var rest := s[k + 1..];
    SumConstant(zeros, 0.0);
    SumConstant(rest, 0.0);
    assert s == zeros + [s[k]] + rest;
    SumAppend(zeros + [s[k]], rest);
    SumAppend(zeros, [s[k]]);
    assert Sum([s[k]]) == s[k] by {
      assert [s[k]][..0] == [];
    }
  }
}
