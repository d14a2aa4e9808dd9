/** The time-series analysis of windenergytk/analysis.py: block averaging
    of a series whose dates were already converted to the coarser
    frequency, and lagged cross- and autocorrelation. Numbers are exact
    reals; the standard deviations numpy computes come in as parameters. */
module Analysis {
  import opened Wrappers
  import opened RealSums

  datatype AnalysisError =
    | NoReadings  // `timeseries.dates[0]` of an empty series
    | NoSamples   // `normalized_value` appended before any assignment

  // ---------------------------------------------------------------------
  // block_average

  /** One reading of a series: its date, already at the new frequency, and
      its value. */
  datatype Reading = Reading(date: int, value: real)

  /** A run of consecutive readings with the same date. */
  datatype Block = Block(time: int, values: seq<real>)

  /** One more reading joins the last block when it has the block's date,
      and opens a new block otherwise. */
  function Push(g: seq<Block>, e: Reading): (g': seq<Block>)
    ensures |g'| > 0 && g'[|g'| - 1].time == e.date
  {
    if |g| > 0 && g[|g| - 1].time == e.date then g[..|g| - 1] + [Block(e.date, g[|g| - 1].values + [e.value])]
    else g + [Block(e.date, [e.value])]
  }

  /** The runs of equal consecutive dates, in input order. */
  function Group(rs: seq<Reading>): (g: seq<Block>)
    ensures |g| == 0 <==> |rs| == 0
  {
    if |rs| == 0 then [] else Push(Group(rs[..|rs| - 1]), rs[|rs| - 1])
  }

  function Values(rs: seq<Reading>): (vs: seq<real>)
    ensures |vs| == |rs| && forall i :: 0 <= i < |rs| ==> vs[i] == rs[i].value
  {
    seq(|rs|, i requires 0 <= i < |rs| => rs[i].value)
  }

  function Dates(rs: seq<Reading>): (ds: seq<int>)
    ensures |ds| == |rs| && forall i :: 0 <= i < |rs| ==> ds[i] == rs[i].date
  {
    seq(|rs|, i requires 0 <= i < |rs| => rs[i].date)
  }

  /** The values of the blocks, one after the other. */
  function FlatValues(g: seq<Block>): seq<real> {
    if |g| == 0 then [] else FlatValues(g[..|g| - 1]) + g[|g| - 1].values
  }

  /** Each block's time repeated once per value, one block after the other. */
  function FlatDates(g: seq<Block>): seq<int> {
    if |g| == 0 then [] else FlatDates(g[..|g| - 1]) + seq(|g[|g| - 1].values|, _ => g[|g| - 1].time)
  }

  lemma FlatAppend(g: seq<Block>, b: Block)
    ensures FlatValues(g + [b]) == FlatValues(g) + b.values
    ensures FlatDates(g + [b]) == FlatDates(g) + seq(|b.values|, _ => b.time)
  {
    assert (g + [b])[..|g|] == g;
  }

  /** A push adds the reading's value and date at the end of the flattening. */
  lemma PushFlat(g: seq<Block>, e: Reading)
    ensures FlatValues(Push(g, e)) == FlatValues(g) + [e.value]
    ensures FlatDates(Push(g, e)) == FlatDates(g) + [e.date]
  {
    if |g| > 0 && g[|g| - 1].time == e.date {
      var init := g[..|g| - 1];
      var last := g[|g| - 1];
      assert g == init + [last];
      FlatAppend(init, last);
      FlatAppend(init, Block(e.date, last.values + [e.value]));
      assert seq(|last.values| + 1, _ => e.date) == seq(|last.values|, _ => last.time) + [e.date];
    } else {
      FlatAppend(g, Block(e.date, [e.value]));
      assert seq(1, _ => e.date) == [e.date];
    }
  }

  lemma GroupPrefix(rs: seq<Reading>, i: nat)
    requires i < |rs|
    ensures Group(rs[..i + 1]) == Push(Group(rs[..i]), rs[i])
  {
    assert rs[..i + 1][..i] == rs[..i];
  }

  lemma ReadingsSplit(rs: seq<Reading>)
    requires |rs| > 0
    ensures Values(rs) == Values(rs[..|rs| - 1]) + [rs[|rs| - 1].value]
    ensures Dates(rs) == Dates(rs[..|rs| - 1]) + [rs[|rs| - 1].date]
  {
  }

  /** Every value lands in exactly one block, in input order. */
  lemma {:induction false} GroupValues(rs: seq<Reading>)
    ensures FlatValues(Group(rs)) == Values(rs)
    decreases |rs|
  {
    if |rs| > 0 {
      var init := rs[..|rs| - 1];
      GroupValues(init);
      PushFlat(Group(init), rs[|rs| - 1]);
      ReadingsSplit(rs);
    }
  }

  /** Every value lands in the block of its own date. */
  lemma {:induction false} GroupDates(rs: seq<Reading>)
    ensures FlatDates(Group(rs)) == Dates(rs)
    decreases |rs|
  {
    if |rs| > 0 {
      var init := rs[..|rs| - 1];
      GroupDates(init);
      PushFlat(Group(init), rs[|rs| - 1]);
      ReadingsSplit(rs);
    }
  }

  predicate BlocksNonEmpty(g: seq<Block>) {
    forall k :: 0 <= k < |g| ==> |g[k].values| > 0
  }

  predicate AdjacentDistinct(g: seq<Block>) {
    forall k :: 0 < k < |g| ==> g[k - 1].time != g[k].time
  }

  lemma PushKeepsShape(g: seq<Block>, e: Reading)
    requires BlocksNonEmpty(g) && AdjacentDistinct(g)
    ensures BlocksNonEmpty(Push(g, e)) && AdjacentDistinct(Push(g, e))
  {
    var g' := Push(g, e);
    if |g| > 0 && g[|g| - 1].time == e.date {
      assert forall k :: 0 <= k < |g| - 1 ==> g'[k] == g[k];
    } else {
      assert forall k :: 0 <= k < |g| ==> g'[k] == g[k];
    }
  }

  /** A push onto finished blocks and a current block either extends the
      current block or finishes it and opens a new one. */
  lemma PushCurrent(done: seq<Block>, current: Block, e: Reading)
    ensures Push(done + [current], e) ==
      if current.time == e.date then done + [Block(current.time, current.values + [e.value])]
      else done + [current, Block(e.date, [e.value])]
  {
    assert (done + [current])[..|done|] == done;
  }

  /** No block is empty and no two adjacent blocks share a time. */
  lemma {:induction false} GroupBlocksDistinct(rs: seq<Reading>)
    ensures BlocksNonEmpty(Group(rs)) && AdjacentDistinct(Group(rs))
    decreases |rs|
  {
    if |rs| > 0 {
      GroupBlocksDistinct(rs[..|rs| - 1]);
      PushKeepsShape(Group(rs[..|rs| - 1]), rs[|rs| - 1]);
    }
  }

  /** When no two adjacent dates are equal, every reading is a block of its own. */
  lemma {:induction false} GroupSingletons(rs: seq<Reading>)
    requires forall i :: 0 < i < |rs| ==> rs[i - 1].date != rs[i].date
    ensures var g := Group(rs);
      |g| == |rs| && forall k :: 0 <= k < |g| ==> g[k] == Block(rs[k].date, [rs[k].value])
    decreases |rs|
  {
    if |rs| > 0 {
      var init := rs[..|rs| - 1];
      GroupSingletons(init);
      var g := Group(init);
      assert |g| > 0 ==> g[|g| - 1].time == rs[|rs| - 2].date;
    }
  }

  /** The averages of the blocks and their times. */
  function BlockMeans(g: seq<Block>): (means: seq<real>)
    requires BlocksNonEmpty(g)
    ensures |means| == |g| && forall k :: 0 <= k < |g| ==> means[k] == Mean(g[k].values)
  {
    seq(|g|, k requires 0 <= k < |g| => Mean(g[k].values))
  }

  function BlockTimes(g: seq<Block>): (times: seq<int>)
    ensures |times| == |g| && forall k :: 0 <= k < |g| ==> times[k] == g[k].time
  {
    seq(|g|, k requires 0 <= k < |g| => g[k].time)
  }

  lemma BlockSummaryAppend(g: seq<Block>, b: Block)
    requires BlocksNonEmpty(g) && |b.values| > 0
    ensures BlocksNonEmpty(g + [b])
    ensures BlockMeans(g + [b]) == BlockMeans(g) + [Mean(b.values)]
    ensures BlockTimes(g + [b]) == BlockTimes(g) + [b.time]
  {
  }

  /** One step of the loop of `block_average`: the reading at `index` either
      joins the current block or finishes it and opens a new one. */
  lemma BlockStep(rs: seq<Reading>, index: nat, done: seq<Block>, time: int, values: seq<real>)
    requires index < |rs| && BlocksNonEmpty(done)
    requires index == 0 ==> values == [] && done == [] && time == rs[0].date
    requires index > 0 ==> Group(rs[..index]) == done + [Block(time, values)] && |values| > 0
    ensures time != rs[index].date ==>
      && index > 0
      && Group(rs[..index + 1]) == (done + [Block(time, values)]) + [Block(rs[index].date, [] + [rs[index].value])]
      && BlocksNonEmpty(done + [Block(time, values)])
      && BlockMeans(done + [Block(time, values)]) == BlockMeans(done) + [Mean(values)]
      && BlockTimes(done + [Block(time, values)]) == BlockTimes(done) + [time]
    ensures time == rs[index].date ==>
      Group(rs[..index + 1]) == done + [Block(time, values + [rs[index].value])]
  {
    GroupPrefix(rs, index);
    assert [] + [rs[index].value] == [rs[index].value];
    if index == 0 {
      assert rs[..0] == [];
    } else {
      PushCurrent(done, Block(time, values), rs[index]);
      BlockSummaryAppend(done, Block(time, values));
    }
  }

  /** `block_average(timeseries)` after `asfreq`: the mean of each run of
      readings with the same date, and the run's date. */
  method BlockAverage(rs: seq<Reading>) returns (r: Result<(seq<real>, seq<int>), AnalysisError>)
    ensures r.Err? <==> |rs| == 0
    ensures r.Err? ==> r.error == NoReadings
    ensures r.Ok? ==>
      && BlocksNonEmpty(Group(rs))
      && r.value.0 == BlockMeans(Group(rs))
      && r.value.1 == BlockTimes(Group(rs))
  {
    if |rs| == 0 {
      return Err(NoReadings);
    }
    var currentValues: seq<real> := [];
    var averages: seq<real> := [];
    var timesteps: seq<int> := [];
    var currentTime := rs[0].date;
    ghost var done: seq<Block> := [];
    for index := 0 to |rs|
      invariant index == 0 ==> currentValues == [] && done == [] && currentTime == rs[0].date
      invariant index > 0 ==> Group(rs[..index]) == done + [Block(currentTime, currentValues)] && |currentValues| > 0
      invariant BlocksNonEmpty(done)
      invariant averages == BlockMeans(done) && timesteps == BlockTimes(done)
    {
      BlockStep(rs, index, done, currentTime, currentValues);
      if currentTime != rs[index].date {
        averages := averages + [Mean(currentValues)];
        timesteps := timesteps + [currentTime];
        done := done + [Block(currentTime, currentValues)];
        currentValues := [];
        currentTime := rs[index].date;
      }
      currentValues := currentValues + [rs[index].value];
    }
    assert rs[..|rs|] == rs;
    // the last (or only) block
    BlockSummaryAppend(done, Block(currentTime, currentValues));
    averages := averages + [Mean(currentValues)];
    timesteps := timesteps + [currentTime];
    r := Ok((averages, timesteps));
  }

  /** A series without repeated adjacent dates averages to itself. */
  lemma BlockAverageOfDistinctDates(rs: seq<Reading>)
    requires forall i :: 0 < i < |rs| ==> rs[i - 1].date != rs[i].date
    ensures BlocksNonEmpty(Group(rs))
    ensures BlockMeans(Group(rs)) == Values(rs) && BlockTimes(Group(rs)) == Dates(rs)
  {
    GroupSingletons(rs);
    SingletonBlockMeans(Group(rs), rs);
    SingletonBlockTimes(Group(rs), rs);
  }

  /** Blocks of one reading each average to those readings' values... */
  lemma SingletonBlockMeans(g: seq<Block>, rs: seq<Reading>)
    requires |g| == |rs| && forall k :: 0 <= k < |g| ==> g[k] == Block(rs[k].date, [rs[k].value])
    ensures BlocksNonEmpty(g) && BlockMeans(g) == Values(rs)
  {
    var means := BlockMeans(g);
    forall k | 0 <= k < |g| ensures means[k] == Values(rs)[k] {
      SingletonMean(rs[k].value);
    }
  }

  /** ...and carry their dates. */
  lemma SingletonBlockTimes(g: seq<Block>, rs: seq<Reading>)
    requires |g| == |rs| && forall k :: 0 <= k < |g| ==> g[k] == Block(rs[k].date, [rs[k].value])
    ensures BlockTimes(g) == Dates(rs)
  {
  }

  lemma SingletonMean(x: real)
    ensures Mean([x]) == x
  {
    assert Sum([x]) == x by {
      assert [x][..0] == [];
    }
  }

  // ---------------------------------------------------------------------
  // crosscorrelate, autocorrelate

  /** Each value's difference from the whole series' mean. */
  function Deviations(ts: seq<real>): (d: seq<real>)
    ensures |d| == |ts|
  {
    if |ts| == 0 then [] else seq(|ts|, i requires 0 <= i < |ts| => ts[i] - Mean(ts))
  }

  /** numpy's `std`: the population variance of a non-empty series is the
      mean square deviation. */
  function PopVariance(ts: seq<real>): real
    requires |ts| > 0
  {
    var d := Deviations(ts);
    Sum(seq(|ts|, i requires 0 <= i < |ts| => d[i] * d[i])) / |ts| as real
  }

  /** `std` is the standard deviation of `ts`. */
  predicate IsStd(ts: seq<real>, std: real) {
    |ts| > 0 && std >= 0.0 && std * std == PopVariance(ts)
  }

  /** The lagged sum `d1[0] * d2[lag] + ... + d1[m - 1] * d2[m - 1 + lag]`. */
  function LagSum(d1: seq<real>, d2: seq<real>, lag: nat, m: nat): real
    requires m <= |d1| && m + lag <= |d2|
  {
    if m == 0 then 0.0 else LagSum(d1, d2, lag, m - 1) + d1[m - 1] * d2[m - 1 + lag]
  }

  /** The correlation values of the first `n` samples at lags 0, 1, ...: the
      lagged sum over the overlap divided by the product of the standard
      deviations `s1`, `s2` times the overlap's length (stated here as the
      value times that product being the sum; `CorrelationAt` turns it back
      into the quotient); a lag with no overlap repeats the value of the
      last lag that had one. */
  predicate IsCorrelation(values: seq<real>, d1: seq<real>, d2: seq<real>, n: nat, s1: real, s2: real)
    requires n <= |d1| && n <= |d2|
  {
    && (forall lag :: 0 <= lag < |values| && lag < n ==> IsLagValue(values[lag], d1, d2, n, s1, s2, lag))
    && (forall lag :: 1 <= n <= lag < |values| ==> values[lag] == values[n - 1])
  }

  /** `value` is the correlation at `lag`, in product form. */
  predicate IsLagValue(value: real, d1: seq<real>, d2: seq<real>, n: nat, s1: real, s2: real, lag: nat)
    requires lag < n <= |d1| && n <= |d2|
  {
    value * (s1 * s2 * (n - lag) as real) == LagSum(d1, d2, lag, n - lag)
  }

  /** The length of the shorter series, the second on a tie. */
  function Shorter(ts1: seq<real>, ts2: seq<real>): nat {
    if |ts1| < |ts2| then |ts1| else |ts2|
  }

  /** One more lag keeps the values a correlation sequence. */
  lemma IsCorrelationExtend(values: seq<real>, x: real, d1: seq<real>, d2: seq<real>, n: nat, s1: real, s2: real)
    requires n <= |d1| && n <= |d2|
    requires IsCorrelation(values, d1, d2, n, s1, s2)
    requires |values| < n ==> IsLagValue(x, d1, d2, n, s1, s2, |values|)
    requires 1 <= n <= |values| ==> x == values[|values| - 1]
    ensures IsCorrelation(values + [x], d1, d2, n, s1, s2)
  {
    var v := values + [x];
    forall lag | 0 <= lag < |v| && lag < n ensures IsLagValue(v[lag], d1, d2, n, s1, s2, lag) {
      if lag < |values| {
        assert v[lag] == values[lag];
      } else {
        assert v[lag] == x;
      }
    }
    forall lag | 1 <= n <= lag < |v| ensures v[lag] == v[n - 1] {
      assert v[n - 1] == values[n - 1];
      if lag < |values| {
        assert v[lag] == values[lag];
      } else {
        assert v[lag] == x;
      }
    }
  }

  /** With non-zero standard deviations, a correlation value at a lag
      with overlap is the quotient `crosscorrelate` computes. */
  lemma CorrelationAt(values: seq<real>, d1: seq<real>, d2: seq<real>, n: nat, s1: real, s2: real, lag: nat)
    requires n <= |d1| && n <= |d2| && s1 != 0.0 && s2 != 0.0
    requires IsCorrelation(values, d1, d2, n, s1, s2) && lag < |values| && lag < n
    ensures s1 * s2 * (n - lag) as real != 0.0
    ensures values[lag] == LagSum(d1, d2, lag, n - lag) / (s1 * s2 * (n - lag) as real)
  {
    QuotientOf(values[lag], LagSum(d1, d2, lag, n - lag), s1, s2, n - lag);
  }

  /** A falsy `max_lag_increment` (`False` or 0) means every lag up to `n`. */
  function MaxLag(maxLag: int, n: nat): int {
    if maxLag == 0 then n else maxLag
  }

  /** The difference loop of `crosscorrelate`. */
  method Deviate(ts: seq<real>, mean: real) returns (d: seq<real>)
    ensures |d| == |ts| && forall i :: 0 <= i < |ts| ==> d[i] == ts[i] - mean
  {
    d := [];
    for i := 0 to |ts|
      invariant |d| == i && forall k :: 0 <= k < i ==> d[k] == ts[k] - mean
    {
      d := d + [ts[i] - mean];
    }
  }

  /** The inner loop for one lag, over the `m` samples that overlap: the
      lagged sum, and the value normalised by `s1 * s2 * m`, recomputed at
      every step, or `previous` when there is no step. */
  method LagLoop(d1: seq<real>, d2: seq<real>, lag: nat, m: nat, s1: real, s2: real, previous: real)
    returns (mysum: real, normalized: real)
    requires m <= |d1| && m + lag <= |d2| && s1 != 0.0 && s2 != 0.0
    ensures mysum == LagSum(d1, d2, lag, m)
    ensures m == 0 ==> normalized == previous
    ensures m > 0 ==> normalized * (s1 * s2 * m as real) == mysum
  {
    mysum := 0.0;
    normalized := previous;
    for timestep := 0 to m
      invariant mysum == LagSum(d1, d2, lag, timestep)
      invariant timestep == 0 ==> normalized == previous
      invariant timestep > 0 ==> normalized == mysum / (s1 * s2 * m as real)
    {
      mysum := mysum + d1[timestep] * d2[timestep + lag];
      ProductNonZero(s1, s2, m as real);
      normalized := mysum / (s1 * s2 * m as real);
    }
    if m > 0 {
      QuotientTimes(normalized, mysum, s1, s2, m);
    }
  }

  /** The lag loop of `crosscorrelate` over the deviations `d1`, `d2` of
      series whose shorter length is `n`, with `s1`, `s2` the standard
      deviations: lags 0..top and the correlation at each. */
  method Correlations(d1: seq<real>, d2: seq<real>, n: nat, top: int, s1: real, s2: real)
    returns (r: Result<(seq<int>, seq<real>), AnalysisError>)
    requires n <= |d1| && n <= |d2| && (n > 0 ==> s1 != 0.0 && s2 != 0.0)
    ensures r.Err? <==> n == 0 && top >= 0
    ensures r.Err? ==> r.error == NoSamples
    ensures r.Ok? ==>
      && |r.value.0| == |r.value.1| == (if top >= 0 then top + 1 else 0)
      && (forall i :: 0 <= i < |r.value.0| ==> r.value.0[i] == i)
      && IsCorrelation(r.value.1, d1, d2, n, s1, s2)
  {
    var lags: seq<int> := [];
    var values: seq<real> := [];
    var normalized := 0.0;
    var bound := false;  // whether `normalized_value` was assigned yet
    var lag := 0;
    while lag <= top
      invariant 0 <= lag && (top >= 0 ==> lag <= top + 1) && (top < 0 ==> lag == 0)
      invariant |lags| == |values| == lag && forall i :: 0 <= i < lag ==> lags[i] == i
      invariant lag > 0 ==> n > 0
      invariant bound <==> lag > 0
      invariant bound ==> normalized == values[lag - 1]
      invariant IsCorrelation(values, d1, d2, n, s1, s2)
    {
      // `range(0, len(smaller) - lag)` is empty once the lag reaches `n`
      var m := if n >= lag then n - lag else 0;
      if m > 0 {
        var mysum;
        mysum, normalized := LagLoop(d1, d2, lag, m, s1, s2, normalized);
        bound := true;
      }
      if !bound {
        return Err(NoSamples);
      }
      IsCorrelationExtend(values, normalized, d1, d2, n, s1, s2);
      lags := lags + [lag];
      values := values + [normalized];
      lag := lag + 1;
    }
    r := Ok((lags, values));
  }

  /** `crosscorrelate(ts1, ts2, max_lag_increment)` with the standard
      deviations `std1`, `std2` numpy computes: the lags 0..max and the
      correlation at each. With an empty series no lag has a sample. */
  method CrossCorrelate(ts1: seq<real>, ts2: seq<real>, maxLag: int, std1: real, std2: real)
    returns (r: Result<(seq<int>, seq<real>), AnalysisError>)
    requires |ts1| > 0 ==> IsStd(ts1, std1)
    requires |ts2| > 0 ==> IsStd(ts2, std2)
    requires |ts1| > 0 && |ts2| > 0 ==> std1 != 0.0 && std2 != 0.0
    ensures var n := Shorter(ts1, ts2);
      r.Err? <==> n == 0 && MaxLag(maxLag, n) >= 0
    ensures r.Err? ==> r.error == NoSamples
    ensures r.Ok? ==>
      var n := Shorter(ts1, ts2);
      var top := MaxLag(maxLag, n);
      && |r.value.0| == |r.value.1| == (if top >= 0 then top + 1 else 0)
      && (forall i :: 0 <= i < |r.value.0| ==> r.value.0[i] == i)
      && IsCorrelation(r.value.1, Deviations(ts1), Deviations(ts2), n, std1, std2)
  {
    var n := Shorter(ts1, ts2);
    var top := MaxLag(maxLag, n);
    // numpy's mean of an empty series is nan, which no loop then reads
    var mean1 := if |ts1| > 0 then Mean(ts1) else 0.0;
    var mean2 := if |ts2| > 0 then Mean(ts2) else 0.0;
    var d1 := Deviate(ts1, mean1);
    var d2 := Deviate(ts2, mean2);
    assert d1 == Deviations(ts1) && d2 == Deviations(ts2);
    r := Correlations(d1, d2, n, top, std1, std2);
  }

  /** `autocorrelate(ts, max_lag_increment)`: the cross-correlation of a
      series with itself, which is 1 at lag 0 whenever `std` is its
      population standard deviation. */
  method AutoCorrelate(ts: seq<real>, maxLag: int, std: real)
    returns (r: Result<(seq<int>, seq<real>), AnalysisError>)
    requires |ts| > 0 ==> IsStd(ts, std) && std != 0.0
    ensures r.Err? <==> |ts| == 0 && maxLag >= 0
    ensures r.Err? ==> r.error == NoSamples
    ensures r.Ok? ==>
      var top := MaxLag(maxLag, |ts|);
      && |r.value.0| == |r.value.1| == (if top >= 0 then top + 1 else 0)
      && (forall i :: 0 <= i < |r.value.0| ==> r.value.0[i] == i)
      && IsCorrelation(r.value.1, Deviations(ts), Deviations(ts), |ts|, std, std)
    ensures r.Ok? && |r.value.1| > 0 ==> r.value.1[0] == 1.0
  {
    r := CrossCorrelate(ts, ts, maxLag, std, std);
    if r.Ok? && |r.value.1| > 0 {
      AutoCorrelationAtZero(ts, std, r.value.1);
    }
  }

  lemma ProductNonZero(a: real, b: real, c: real)
    requires a != 0.0 && b != 0.0 && c != 0.0
    ensures a * b * c != 0.0
  {
    assert a * b != 0.0;
  }

  /** A quotient times its divisor `s1 * s2 * m` gives back the dividend. */
  lemma QuotientTimes(q: real, x: real, s1: real, s2: real, m: nat)
    requires s1 != 0.0 && s2 != 0.0 && m > 0 && q == x / (s1 * s2 * m as real)
    ensures q * (s1 * s2 * m as real) == x
  {
    ProductNonZero(s1, s2, m as real);
  }

  /** A `q` whose product with `s1 * s2 * m` is `x` is the quotient. */
  lemma QuotientOf(q: real, x: real, s1: real, s2: real, m: nat)
    requires s1 != 0.0 && s2 != 0.0 && m > 0 && q * (s1 * s2 * m as real) == x
    ensures s1 * s2 * m as real != 0.0
    ensures q == x / (s1 * s2 * m as real)
  {
    ProductNonZero(s1, s2, m as real);
  }

  /** Multiplying `total / n` back by `n` gives the total. */
  lemma MulBack(s1: real, s2: real, n: real, total: real)
    requires n > 0.0 && s1 * s2 == total / n
    ensures s1 * s2 * n == total
  {
  }

  /** When `s1 * s2` is `total / n`, the only `q` whose product with
      `s1 * s2 * n` is `total` is one. */
  lemma UnitFactor(q: real, s1: real, s2: real, n: real, total: real)
    requires s1 != 0.0 && s2 != 0.0 && n > 0.0
    requires s1 * s2 == total / n
    requires q * (s1 * s2 * n) == total
    ensures q == 1.0
  {
    MulBack(s1, s2, n, total);
    ProductNonZero(s1, s2, n);
    assert (q - 1.0) * total == 0.0;
  }

  /** The deviations from the mean sum to zero. */
  lemma DeviationsSumToZero(ts: seq<real>)
    requires |ts| > 0
    ensures Sum(Deviations(ts)) == 0.0
  {
    var m := Mean(ts);
    var shift := seq(|ts|, i requires 0 <= i < |ts| => -m);
    SumPointwise(ts, shift, Deviations(ts));
    SumConstant(shift, -m);
  }

  lemma {:induction false} LagSumSquares(d: seq<real>, m: nat)
    requires m <= |d|
    ensures LagSum(d, d, 0, m) == Sum(seq(m, i requires 0 <= i < m => d[i] * d[i]))
    decreases m
  {
    if m > 0 {
      LagSumSquares(d, m - 1);
      var sq := seq(m, i requires 0 <= i < m => d[i] * d[i]);
      assert sq[..m - 1] == seq(m - 1, i requires 0 <= i < m - 1 => d[i] * d[i]);
    }
  }

  /** At lag 0 a series is perfectly correlated with itself: the lagged
      sum is `n` times the variance of which `std` is the root. */
  lemma AutoCorrelationAtZero(ts: seq<real>, std: real, values: seq<real>)
    requires IsStd(ts, std) && std != 0.0 && |values| > 0
    requires IsCorrelation(values, Deviations(ts), Deviations(ts), |ts|, std, std)
    ensures values[0] == 1.0
  {
    var d := Deviations(ts);
    var n := |ts| as real;
    LagSumSquares(d, |ts|);
    var total := Sum(seq(|ts|, i requires 0 <= i < |ts| => d[i] * d[i]));
    UnitFactor(values[0], std, std, n, total);
  }

  /** At lag 0 the correlation does not depend on the order of the series. */
  lemma {:induction false} LagSumSymmetric(d1: seq<real>, d2: seq<real>, m: nat)
    requires m <= |d1| && m <= |d2|
    ensures LagSum(d1, d2, 0, m) == LagSum(d2, d1, 0, m)
    decreases m
  {
    if m > 0 {
      LagSumSymmetric(d1, d2, m - 1);
    }
  }
}
