/** The Markov and autoregressive synthesis of
    trunk/WindEnergyTK/windenergytk/synthesis.py: the bin index of a value,
    the transition probability matrix of a series, its cumulative rows, and
    the AR(1) series with its noise vector given. Numbers are exact reals. */
module Synthesis {
  import opened Wrappers
  import opened RealSums

  /** The exceptions numpy and Python raise on the way. */
  datatype SynthError =
    | EmptySeries       // `max()` of an empty array
    | NegativeBins      // `np.zeros` with a negative dimension
    | ZeroRange         // `bins / float(0)` in `find_bin`
    | BinOutOfRange     // an index into a 0 x 0 matrix
    | NegativeVariance  // `(1 - autocor1 ** 2) ** .5` of a negative number

  // ---------------------------------------------------------------------
  // find_bin

  /** Python 2's `round`: to the nearest integer, halves away from zero. */
  function RoundHalfAway(v: real): (r: int)
    ensures v >= 0.0 ==> r as real - 0.5 <= v < r as real + 0.5
    ensures v < 0.0 ==> r as real - 0.5 < v <= r as real + 0.5
  {
    if v >= 0.0 then (v + 0.5).Floor else -((-v + 0.5).Floor)
  }

  lemma RoundMonotone(u: real, v: real)
    requires u <= v
    ensures RoundHalfAway(u) <= RoundHalfAway(v)
  {
  }

  /** `find_bin(x, lo, bins, range)`: the scaled value rounded, clamped to
      1..bins and shifted to start at 0; a zero range divides by zero. */
  function FindBin(x: real, lo: real, bins: int, range: real): (r: Result<int, SynthError>)
    ensures r.Err? <==> range == 0.0
    ensures r.Err? ==> r.error == ZeroRange
    ensures r.Ok? && bins >= 1 ==> 0 <= r.value < bins
    ensures r.Ok? && bins < 1 ==> r.value == 0
  {
    if range == 0.0 then Err(ZeroRange)
    else Ok(Clamp(RoundHalfAway(Scaled(x, lo, bins, range)), bins))
  }

  /** `(x - lo) * (bins / float(range)) + 0.5`, the value `find_bin` rounds. */
  function Scaled(x: real, lo: real, bins: int, range: real): real
    requires range != 0.0
  {
    (x - lo) * (bins as real / range) + 0.5
  }

  /** The rounded value clamped to 1..bins (the upper bound first), then
      shifted to start at 0. */
  function Clamp(raw: int, bins: int): (b: int)
    ensures bins >= 1 ==> 0 <= b < bins
    ensures bins < 1 ==> b == 0
  {
    var high := if raw > bins then bins else raw;
    var low := if high < 1 then 1 else high;
    low - 1
  }

  lemma ScaledMonotone(x: real, y: real, lo: real, bins: int, range: real)
    requires x <= y && range > 0.0 && bins >= 0
    ensures Scaled(x, lo, bins, range) <= Scaled(y, lo, bins, range)
  {
    var f := bins as real / range;
    assert f >= 0.0;
    assert (y - lo) * f - (x - lo) * f == (y - x) * f;
  }

  lemma ClampMonotone(a: int, b: int, bins: int)
    requires a <= b
    ensures Clamp(a, bins) <= Clamp(b, bins)
  {
  }

  /** The least value of the range falls into the first bin. */
  lemma FindBinLow(lo: real, bins: int, range: real)
    requires bins >= 1 && range != 0.0
    ensures FindBin(lo, lo, bins, range) == Ok(0)
  {
    assert RoundHalfAway(0.0 * (bins as real / range) + 0.5) == 1;
  }

  /** The greatest value of the range falls into the last bin. */
  lemma FindBinHigh(lo: real, bins: int, range: real)
    requires bins >= 1 && range != 0.0
    ensures FindBin(lo + range, lo, bins, range) == Ok(bins - 1)
  {
    var f := bins as real / range;
    assert range * f == bins as real;
    assert (lo + range - lo) * f + 0.5 == bins as real + 0.5;
    assert RoundHalfAway(bins as real + 0.5) == bins + 1;
  }

  /** Over a positive range a larger value never falls into a lower bin. */
  lemma FindBinMonotone(x: real, y: real, lo: real, bins: int, range: real)
    requires x <= y && range > 0.0
    ensures FindBin(x, lo, bins, range).value <= FindBin(y, lo, bins, range).value
  {
    if bins >= 1 {
      var u := Scaled(x, lo, bins, range);
      var v := Scaled(y, lo, bins, range);
      ScaledMonotone(x, y, lo, bins, range);
      RoundMonotone(u, v);
      ClampMonotone(RoundHalfAway(u), RoundHalfAway(v), bins);
    }
  }

  // ---------------------------------------------------------------------
  // gen_markov_tpm: the specification

  function Max(s: seq<real>): (r: real)
    requires |s| > 0
    ensures r in s && forall i :: 0 <= i < |s| ==> s[i] <= r
  {
    if |s| == 1 then s[0]
    else
      var m := Max(s[..|s| - 1]);
      assert forall i :: 0 <= i < |s| - 1 ==> s[i] == s[..|s| - 1][i];
      if s[|s| - 1] > m then s[|s| - 1] else m
  }

  function Min(s: seq<real>): (r: real)
    requires |s| > 0
    ensures r in s && forall i :: 0 <= i < |s| ==> r <= s[i]
  {
    if |s| == 1 then s[0]
    else
      var m := Min(s[..|s| - 1]);
      assert forall i :: 0 <= i < |s| - 1 ==> s[i] == s[..|s| - 1][i];
      if s[|s| - 1] < m then s[|s| - 1] else m
  }

  /** The bins of a series are well defined once it is not constant. */
  predicate Spread(ts: seq<real>) {
    |ts| > 0 && Max(ts) != Min(ts)
  }

  /** The bin of `ts[i]` between the series' minimum and maximum. */
  function BinAt(ts: seq<real>, bins: int, i: nat): (b: int)
    requires i < |ts| && Spread(ts)
    ensures bins >= 1 ==> 0 <= b < bins
  {
    FindBin(ts[i], Min(ts), bins, Max(ts) - Min(ts)).value
  }

  /** The number of steps `i < n` from bin `a` to bin `b`. */
  function Count(ts: seq<real>, bins: int, n: nat, a: int, b: int): nat
    requires n < |ts| && (n > 0 ==> Spread(ts))
  {
    if n == 0 then 0
    else Count(ts, bins, n - 1, a, b) + (if BinAt(ts, bins, n - 1) == a && BinAt(ts, bins, n) == b then 1 else 0)
  }

  /** The number of steps `i < n` that leave bin `a`. */
  function Visits(ts: seq<real>, bins: int, n: nat, a: int): nat
    requires n < |ts| && (n > 0 ==> Spread(ts))
  {
    if n == 0 then 0
    else Visits(ts, bins, n - 1, a) + (if BinAt(ts, bins, n - 1) == a then 1 else 0)
  }

  /** What `gen_markov_tpm` accepts: a non-empty series, a bin count that
      is no dimension error, and, once there is a step to tally, a series
      that is not constant and at least one bin. */
  predicate TpmDefined(ts: seq<real>, bins: int) {
    |ts| > 0 && bins >= 0 && (|ts| >= 2 ==> Spread(ts) && bins >= 1)
  }

  /** Entry (a, b) of the transition probability matrix: the share of the
      steps leaving bin a that go to bin b, or 1/bins if none leaves a. */
  function TpmEntry(ts: seq<real>, bins: int, a: int, b: int): real
    requires TpmDefined(ts, bins) && bins >= 1
  {
    var v := Visits(ts, bins, |ts| - 1, a);
    if v == 0 then 1.0 / bins as real else Count(ts, bins, |ts| - 1, a, b) as real / v as real
  }

  /** The row of counts out of bin `a` and the row of the matrix. */
  function CountRow(ts: seq<real>, bins: nat, n: nat, a: int): (row: seq<real>)
    requires n < |ts| && (n > 0 ==> Spread(ts))
    ensures |row| == bins && forall b :: 0 <= b < bins ==> row[b] == Count(ts, bins, n, a, b) as real
  {
    seq(bins, b requires 0 <= b < bins => Count(ts, bins, n, a, b) as real)
  }

  function TpmRow(ts: seq<real>, bins: nat, a: int): (row: seq<real>)
    requires TpmDefined(ts, bins) && bins >= 1
    ensures |row| == bins && forall b :: 0 <= b < bins ==> row[b] == TpmEntry(ts, bins, a, b)
  {
    seq(bins, b requires 0 <= b < bins => TpmEntry(ts, bins, a, b))
  }

  // ---------------------------------------------------------------------
  // gen_markov_tpm: the properties

  lemma {:induction false} CountAtMostVisits(ts: seq<real>, bins: int, n: nat, a: int, b: int)
    requires n < |ts| && (n > 0 ==> Spread(ts))
    ensures Count(ts, bins, n, a, b) <= Visits(ts, bins, n, a)
    decreases n
  {
    if n > 0 {
      CountAtMostVisits(ts, bins, n - 1, a, b);
    }
  }

  /** The counts out of bin `a` add up to the visits of `a`: every step
      lands in some bin. */
  lemma {:induction false} CountRowSum(ts: seq<real>, bins: nat, n: nat, a: int)
    requires n < |ts| && (n > 0 ==> Spread(ts)) && (n > 0 ==> bins >= 1)
    ensures Sum(CountRow(ts, bins, n, a)) == Visits(ts, bins, n, a) as real
    decreases n
  {
    var row := CountRow(ts, bins, n, a);
    if n == 0 {
      SumConstant(row, 0.0);
    } else {
      var prev := CountRow(ts, bins, n - 1, a);
      CountRowSum(ts, bins, n - 1, a);
      var src := BinAt(ts, bins, n - 1);
      var dst := BinAt(ts, bins, n);
      var step := Indicator(bins, src == a, dst);
      CountRowStep(ts, bins, n, a);
      SumPointwise(prev, step, row);
      IndicatorSum(bins, src == a, dst);
    }
  }

  /** The row holding 1 at `k` when `hit`, and 0 elsewhere. */
  function Indicator(len: nat, hit: bool, k: int): (row: seq<real>)
    ensures |row| == len && forall i :: 0 <= i < len ==> row[i] == if hit && i == k then 1.0 else 0.0
  {
    seq(len, i requires 0 <= i < len => if hit && i == k then 1.0 else 0.0)
  }

  lemma IndicatorSum(len: nat, hit: bool, k: int)
    requires 0 <= k < len
    ensures Sum(Indicator(len, hit, k)) == if hit then 1.0 else 0.0
  {
    if hit {
      SumIndicator(Indicator(len, hit, k), k);
    } else {
      SumConstant(Indicator(len, hit, k), 0.0);
    }
  }

  /** Step `n` adds the pair (n - 1, n) to the counts out of bin `a`. */
  lemma CountRowStep(ts: seq<real>, bins: nat, n: nat, a: int)
    requires 0 < n < |ts| && Spread(ts)
    ensures forall b :: 0 <= b < bins ==>
      CountRow(ts, bins, n, a)[b] == CountRow(ts, bins, n - 1, a)[b] + Indicator(bins, BinAt(ts, bins, n - 1) == a, BinAt(ts, bins, n))[b]
  {
  }

  /** Before normalisation the table holds one count per consecutive pair:
      the visits of all bins add up to the number of steps. */
  lemma {:induction false} VisitsTotal(ts: seq<real>, bins: nat, n: nat)
    requires n < |ts| && (n > 0 ==> Spread(ts)) && (n > 0 ==> bins >= 1)
    ensures Sum(VisitRow(ts, bins, n)) == n as real
    decreases n
  {
    var total := VisitRow(ts, bins, n);
    if n == 0 {
      SumConstant(total, 0.0);
    } else {
      var prev := VisitRow(ts, bins, n - 1);
      VisitsTotal(ts, bins, n - 1);
      var src := BinAt(ts, bins, n - 1);
      var step := Indicator(bins, true, src);
      VisitRowStep(ts, bins, n);
      SumPointwise(prev, step, total);
      IndicatorSum(bins, true, src);
    }
  }

  /** The visits of every bin after `n` steps. */
  function VisitRow(ts: seq<real>, bins: nat, n: nat): (row: seq<real>)
    requires n < |ts| && (n > 0 ==> Spread(ts))
    ensures |row| == bins && forall a :: 0 <= a < bins ==> row[a] == Visits(ts, bins, n, a) as real
  {
    seq(bins, a requires 0 <= a < bins => Visits(ts, bins, n, a) as real)
  }

  lemma VisitRowStep(ts: seq<real>, bins: nat, n: nat)
    requires 0 < n < |ts| && Spread(ts)
    ensures forall a :: 0 <= a < bins ==>
      VisitRow(ts, bins, n)[a] == VisitRow(ts, bins, n - 1)[a] + Indicator(bins, true, BinAt(ts, bins, n - 1))[a]
  {
  }

  /** Every entry of the matrix is a probability. */
  lemma TpmEntryBounds(ts: seq<real>, bins: int, a: int, b: int)
    requires TpmDefined(ts, bins) && bins >= 1
    ensures 0.0 <= TpmEntry(ts, bins, a, b) <= 1.0
  {
    var v := Visits(ts, bins, |ts| - 1, a);
    if v == 0 {
      FractionBounds(1, bins);
    } else {
      CountAtMostVisits(ts, bins, |ts| - 1, a, b);
      FractionBounds(Count(ts, bins, |ts| - 1, a, b), v);
    }
  }

  lemma FractionBounds(c: nat, v: nat)
    requires c <= v && v > 0
    ensures 0.0 <= c as real / v as real <= 1.0
  {
  }

  /** Every row of the matrix sums to 1. */
  lemma TpmRowSum(ts: seq<real>, bins: nat, a: int)
    requires TpmDefined(ts, bins) && bins >= 1
    ensures Sum(TpmRow(ts, bins, a)) == 1.0
  {
    var n := |ts| - 1;
    var row := TpmRow(ts, bins, a);
    var v := Visits(ts, bins, n, a);
    if v == 0 {
      assert forall b :: 0 <= b < |row| ==> row[b] == 1.0 / bins as real;
      UniformSum(row, bins);
    } else {
      var counts := CountRow(ts, bins, n, a);
      CountRowSum(ts, bins, n, a);
      assert forall b :: 0 <= b < |row| ==> row[b] == counts[b] / v as real;
      NormalisedSum(counts, row, v as real);
    }
  }

  lemma UniformSum(row: seq<real>, bins: nat)
    requires bins >= 1 && |row| == bins
    requires forall b :: 0 <= b < |row| ==> row[b] == 1.0 / bins as real
    ensures Sum(row) == 1.0
  {
    SumConstant(row, 1.0 / bins as real);
    var d := bins as real;
    assert |row| as real == d;
    assert d * (1.0 / d) == 1.0;
  }

  lemma NormalisedSum(counts: seq<real>, row: seq<real>, total: real)
    requires total != 0.0 && |counts| == |row| && Sum(counts) == total
    requires forall b :: 0 <= b < |row| ==> row[b] == counts[b] / total
    ensures Sum(row) == 1.0
  {
    SumScaled(counts, row, total);
    SelfQuotient(total);
  }

  lemma SelfQuotient(x: real)
    requires x != 0.0
    ensures x / x == 1.0
  {
  }

  // ---------------------------------------------------------------------
  // gen_markov_tpm: the method

  /** Row `a` of a matrix. */
  function RowOf(m: array2<real>, a: nat): (row: seq<real>)
    requires a < m.Length0
    reads m
    ensures |row| == m.Length1 && forall b :: 0 <= b < m.Length1 ==> row[b] == m[a, b]
  {
    seq(m.Length1, b requires 0 <= b < m.Length1 reads m => m[a, b])
  }

  /** The loop that gives every row with no count one count per column. */
  method FillEmptyRows(tpm: array2<real>, totals: array<real>)
    requires tpm.Length0 == tpm.Length1 == totals.Length
    modifies tpm, totals
    ensures forall a, b :: 0 <= a < tpm.Length0 && 0 <= b < tpm.Length1 ==>
      tpm[a, b] == if old(totals[a]) == 0.0 then 1.0 else old(tpm[a, b])
    ensures forall a :: 0 <= a < totals.Length ==>
      totals[a] == if old(totals[a]) == 0.0 then totals.Length as real else old(totals[a])
  {
    var bins := totals.Length;
    for index := 0 to bins
      invariant forall a, b :: 0 <= a < bins && 0 <= b < bins ==>
        tpm[a, b] == if a < index && old(totals[a]) == 0.0 then 1.0 else old(tpm[a, b])
      invariant forall a :: 0 <= a < bins ==>
        totals[a] == if a < index && old(totals[a]) == 0.0 then bins as real else old(totals[a])
    {
      if totals[index] == 0.0 {
        for column := 0 to bins
          invariant forall a, b :: 0 <= a < bins && 0 <= b < bins ==>
            tpm[a, b] == if (a < index && old(totals[a]) == 0.0) || (a == index && b < column) then 1.0 else old(tpm[a, b])
          invariant forall a :: 0 <= a < bins ==> totals[a] == if a < index && old(totals[a]) == 0.0 then bins as real else old(totals[a])
        {
          tpm[index, column] := 1.0;
        }
        totals[index] := bins as real;
      }
    }
  }

  /** The loop over `np.ndenumerate(tpm)` that divides each entry by its
      row's total. */
  method Normalise(tpm: array2<real>, totals: array<real>)
    requires tpm.Length0 == totals.Length
    requires forall a :: 0 <= a < totals.Length ==> totals[a] != 0.0
    modifies tpm
    ensures forall a, b :: 0 <= a < tpm.Length0 && 0 <= b < tpm.Length1 ==> tpm[a, b] == old(tpm[a, b]) / totals[a]
  {
    for row := 0 to tpm.Length0
      invariant forall a, b :: 0 <= a < tpm.Length0 && 0 <= b < tpm.Length1 ==>
        tpm[a, b] == if a < row then old(tpm[a, b]) / totals[a] else old(tpm[a, b])
    {
      for column := 0 to tpm.Length1
        invariant forall a, b :: 0 <= a < tpm.Length0 && 0 <= b < tpm.Length1 ==>
          tpm[a, b] == if a < row || (a == row && b < column) then old(tpm[a, b]) / totals[a] else old(tpm[a, b])
      {
        tpm[row, column] := tpm[row, column] / totals[row];
      }
    }
  }

  /** The tally loop: one count in (source bin, destination bin) for each
      consecutive pair. A constant series fails in the first `find_bin`,
      and a 0 x 0 matrix has no row for the first count. */
  method Tally(ts: seq<real>, bins: int, tpm: array2<real>) returns (r: Result<(), SynthError>)
    requires |ts| > 0 && bins >= 0 && tpm.Length0 == bins && tpm.Length1 == bins
    requires forall a, b :: 0 <= a < bins && 0 <= b < bins ==> tpm[a, b] == 0.0
    modifies tpm
    ensures r.Err? <==> |ts| >= 2 && (Max(ts) == Min(ts) || bins == 0)
    ensures r.Err? ==> r.error == if Max(ts) == Min(ts) then ZeroRange else BinOutOfRange
    ensures r.Ok? ==> forall a, b :: 0 <= a < bins && 0 <= b < bins ==> tpm[a, b] == Count(ts, bins, |ts| - 1, a, b) as real
  {
    var hi := Max(ts);
    var lo := Min(ts);
    var range := hi - lo;
    for i := 0 to |ts| - 1
      invariant i > 0 ==> Spread(ts) && bins >= 1
      invariant forall a, b :: 0 <= a < bins && 0 <= b < bins ==> tpm[a, b] == Count(ts, bins, i, a, b) as real
    {
      var source := FindBin(ts[i], lo, bins, range);
      if source.Err? {
        return Err(source.error);
      }
      var destination := FindBin(ts[i + 1], lo, bins, range);
      if !(0 <= source.value < bins) {
        return Err(BinOutOfRange);
      }
      tpm[source.value, destination.value] := tpm[source.value, destination.value] + 1.0;
    }
    r := Ok(());
  }

  /** `gen_markov_tpm(ts, bins)`: the bins x bins transition probability
      matrix of the series. */
  method GenMarkovTpm(ts: seq<real>, bins: int) returns (r: Result<array2<real>, SynthError>)
    ensures r.Err? <==> !TpmDefined(ts, bins)
    ensures |ts| == 0 ==> r == Err(EmptySeries)
    ensures |ts| > 0 && bins < 0 ==> r == Err(NegativeBins)
    ensures |ts| >= 2 && bins >= 0 && Max(ts) == Min(ts) ==> r == Err(ZeroRange)
    ensures |ts| >= 2 && Spread(ts) && bins == 0 ==> r == Err(BinOutOfRange)
    ensures r.Ok? ==> r.value.Length0 == bins && r.value.Length1 == bins
    ensures r.Ok? ==> forall a, b :: 0 <= a < bins && 0 <= b < bins ==> r.value[a, b] == TpmEntry(ts, bins, a, b)
  {
    if |ts| == 0 {
      return Err(EmptySeries);
    }
    if bins < 0 {
      return Err(NegativeBins);
    }
    var tpm := new real[bins, bins]((a, b) => 0.0);
    var tally := Tally(ts, bins, tpm);
    if tally.Err? {
      return Err(tally.error);
    }
    ghost var n := |ts| - 1;
    // `tpm.sum(axis=1)`
    var totals := new real[bins](a requires 0 <= a < bins reads tpm => Sum(RowOf(tpm, a)));
    forall a | 0 <= a < bins
      ensures totals[a] == Visits(ts, bins, n, a) as real
    {
      assert RowOf(tpm, a) == CountRow(ts, bins, n, a);
      CountRowSum(ts, bins, n, a);
    }
    FillEmptyRows(tpm, totals);
    Normalise(tpm, totals);
    r := Ok(tpm);
  }

  // ---------------------------------------------------------------------
  // gen_cumu_tpm

  lemma PrefixOfInit(row: seq<real>)
    requires |row| > 0
    ensures forall j :: 0 <= j < |row| ==> row[..|row| - 1][..j] == row[..j]
  {
  }

  /** `np.cumsum` of one row: a running total. */
  function PrefixSums(row: seq<real>): (c: seq<real>)
    ensures |c| == |row|
    ensures forall k :: 0 <= k < |row| ==> c[k] == Sum(row[..k + 1])
  {
    if |row| == 0 then []
    else
      var init := PrefixSums(row[..|row| - 1]);
      PrefixOfInit(row);
      assert row[..|row|] == row;
      init + [(if |init| == 0 then 0.0 else init[|init| - 1]) + row[|row| - 1]]
  }

  /** `gen_cumu_tpm(tpm)`: `np.cumsum(tpm, axis=1)`, each row's running sums. */
  function CumulativeRows(tpm: seq<seq<real>>): (c: seq<seq<real>>)
    ensures |c| == |tpm|
    ensures forall r :: 0 <= r < |tpm| ==>
      && |c[r]| == |tpm[r]|
      && forall k :: 0 <= k < |tpm[r]| ==> c[r][k] == Sum(tpm[r][..k + 1])
  {
    seq(|tpm|, r requires 0 <= r < |tpm| => PrefixSums(tpm[r]))
  }

  /** A row without negative entries has non-decreasing running sums, and
      the last one is the row's total. */
  lemma CumulativeRowShape(tpm: seq<seq<real>>, r: nat)
    requires r < |tpm| && |tpm[r]| > 0
    requires forall k :: 0 <= k < |tpm[r]| ==> tpm[r][k] >= 0.0
    ensures var c := CumulativeRows(tpm)[r];
      && (forall j, k :: 0 <= j <= k < |c| ==> c[j] <= c[k])
      && c[|c| - 1] == Sum(tpm[r])
  {
    var row := tpm[r];
    var c := CumulativeRows(tpm)[r];
    forall j, k | 0 <= j <= k < |c| ensures c[j] <= c[k] {
      PrefixSumMonotone(row, j + 1, k + 1);
    }
    assert row[..|row|] == row;
  }

  /** The cumulative rows of a transition probability matrix end at 1, so
      they can be searched with a uniform draw. */
  lemma CumulativeTpmEndsAtOne(ts: seq<real>, bins: nat, a: nat)
    requires TpmDefined(ts, bins) && bins >= 1 && a < bins
    ensures var rows := seq(bins, i requires 0 <= i < bins => TpmRow(ts, bins, i));
      CumulativeRows(rows)[a][bins - 1] == 1.0
  {
    var rows := seq(bins, i requires 0 <= i < bins => TpmRow(ts, bins, i));
    forall k | 0 <= k < bins ensures rows[a][k] >= 0.0 {
      TpmEntryBounds(ts, bins, a, k);
    }
    CumulativeRowShape(rows, a);
    TpmRowSum(ts, bins, a);
  }

  // ---------------------------------------------------------------------
  // gen_arma

  /** `ar_list[i]`: 0 first, then `autocor * ar_list[i - 1] + noise[i]`. */
  function Ar(autocor: real, noise: seq<real>, i: nat): real
    requires i == 0 || i < |noise|
  {
    if i == 0 then 0.0 else autocor * Ar(autocor, noise, i - 1) + noise[i]
  }

  /** The series `gen_arma` returns, for the noise it draws. */
  function ArmaSeries(mean: real, stdev: real, autocor: real, noise: seq<real>): (s: seq<real>)
    ensures |s| == if |noise| == 0 then 1 else |noise|
  {
    seq(if |noise| == 0 then 1 else |noise|, i requires 0 <= i < (if |noise| == 0 then 1 else |noise|) =>
      mean + stdev * Ar(autocor, noise, i))
  }

  /** The first loop of `gen_arma`: `ar_list`, 0 followed by the AR(1)
      recurrence driven by `noise[1..]`. */
  method ArList(autocor: real, noise: seq<real>) returns (arList: seq<real>)
    ensures |arList| == if |noise| == 0 then 1 else |noise|
    ensures forall k :: 0 <= k < |arList| ==> arList[k] == Ar(autocor, noise, k)
  {
    arList := [0.0];
    var i := 1;
    while i < |noise|
      invariant 1 <= i && (i <= |noise| || i == 1) && |arList| == i
      invariant forall k :: 0 <= k < i ==> arList[k] == Ar(autocor, noise, k)
    {
      arList := arList + [autocor * arList[i - 1] + noise[i]];
      i := i + 1;
    }
  }

  /** The second loop of `gen_arma`: every entry scaled by `stdev` and
      moved to `mean`. */
  method Rescale(mean: real, stdev: real, arList: seq<real>) returns (armaArray: seq<real>)
    ensures |armaArray| == |arList|
    ensures forall k :: 0 <= k < |arList| ==> armaArray[k] == mean + stdev * arList[k]
  {
    armaArray := [];
    for index := 0 to |arList|
      invariant |armaArray| == index
      invariant forall k :: 0 <= k < index ==> armaArray[k] == mean + stdev * arList[k]
    {
      var scaled := mean + stdev * arList[index];
      assert forall k :: 0 <= k < index ==> (armaArray + [scaled])[k] == armaArray[k];
      armaArray := armaArray + [scaled];
    }
  }

  /** `gen_arma(mean, stdev, autocor1, npoints)` with `noise` the draw of
      `npoints` normal values; the standard deviation of the draw is the
      square root of `1 - autocor1 ** 2`, which fails when it is negative. */
  method GenArma(mean: real, stdev: real, autocor: real, noise: seq<real>) returns (r: Result<seq<real>, SynthError>)
    ensures r.Err? <==> autocor * autocor > 1.0
    ensures r.Err? ==> r.error == NegativeVariance
    ensures r.Ok? ==> r.value == ArmaSeries(mean, stdev, autocor, noise)
  {
    if autocor * autocor > 1.0 {
      return Err(NegativeVariance);
    }
    var arList := ArList(autocor, noise);
    var armaArray := Rescale(mean, stdev, arList);
    ghost var spec := ArmaSeries(mean, stdev, autocor, noise);
    forall k | 0 <= k < |spec| ensures armaArray[k] == spec[k] {
      assert armaArray[k] == mean + stdev * arList[k];
    }
    assert armaArray == spec;
    r := Ok(armaArray);
  }

  /** The series starts at the mean and then follows the AR(1) recurrence
      around it. */
  lemma ArmaRecurrence(mean: real, stdev: real, autocor: real, noise: seq<real>)
    ensures var s := ArmaSeries(mean, stdev, autocor, noise);
      && s[0] == mean
      && forall i :: 1 <= i < |s| ==> s[i] - mean == autocor * (s[i - 1] - mean) + stdev * noise[i]
  {
  }

  function Pow(x: real, k: nat): real {
    if k == 0 then 1.0 else x * Pow(x, k - 1)
  }

  /** The sum of `autocor ** (i - k) * noise[k]` for `k` in 1..j. */
  function Weighted(autocor: real, noise: seq<real>, i: nat, j: nat): real
    requires j <= i && (j == 0 || j < |noise|)
  {
    if j == 0 then 0.0 else Weighted(autocor, noise, i, j - 1) + Pow(autocor, i - j) * noise[j]
  }

  lemma {:induction false} WeightedShift(autocor: real, noise: seq<real>, i: nat, j: nat)
    requires j <= i && i < |noise|
    ensures autocor * Weighted(autocor, noise, i, j) == Weighted(autocor, noise, i + 1, j)
    decreases j
  {
    if j > 0 {
      WeightedShift(autocor, noise, i, j - 1);
      assert Pow(autocor, i + 1 - j) == autocor * Pow(autocor, i - j);
    }
  }

  /** The closed form of the recurrence: `ar_list[i]` is the sum of
      `autocor ** (i - k) * noise[k]` over k = 1..i. */
  lemma {:induction false} ArClosedForm(autocor: real, noise: seq<real>, i: nat)
    requires i == 0 || i < |noise|
    ensures Ar(autocor, noise, i) == Weighted(autocor, noise, i, i)
    decreases i
  {
    if i > 0 {
      ArClosedForm(autocor, noise, i - 1);
      WeightedShift(autocor, noise, i - 1, i - 1);
    }
  }

  /** Without autocorrelation the series is the mean plus the scaled noise. */
  lemma ArmaWhiteNoise(mean: real, stdev: real, noise: seq<real>, i: nat)
    requires 1 <= i < |noise|
    ensures ArmaSeries(mean, stdev, 0.0, noise)[i] == mean + stdev * noise[i]
  {
  }
}
