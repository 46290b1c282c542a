/** Realized volatility and its rank in its own recent history
    (services/options/market.py, services/options/iv.py). */
module Volatility {
  import opened Basics
  import opened Pricing

  predicate AllPositive(xs: seq<real>) { forall i :: 0 <= i < |xs| ==> xs[i] > 0.0 }

  /** The usable closes (or observations), in order. */
  function Positive(xs: seq<real>): (r: seq<real>)
    ensures AllPositive(r)
  {
    if xs == [] then [] else if xs[0] > 0.0 then [xs[0]] + Positive(xs[1..]) else Positive(xs[1..])
  }

  function Sum(xs: seq<real>): real { if xs == [] then 0.0 else xs[0] + Sum(xs[1..]) }

  /** Log-returns of a run of closes. */
  function Moves(m: Maths, closes: seq<real>): (r: seq<real>)
    requires AllPositive(closes)
    ensures |r| == if closes == [] then 0 else |closes| - 1
  {
    if |closes| <= 1 then [] else [m.log(closes[1] / closes[0])] + Moves(m, closes[1..])
  }

  function SumOfSquares(xs: seq<real>, mean: real): real {
    if xs == [] then 0.0 else Times(xs[0] - mean, xs[0] - mean) + SumOfSquares(xs[1..], mean)
  }

  /** Sample variance. */
  function Variance(xs: seq<real>): real
    requires |xs| >= 2
  {
    SumOfSquares(xs, Sum(xs) / |xs| as real) / (|xs| - 1) as real
  }

  /** Sample standard deviation. */
  function Deviation(m: Maths, xs: seq<real>): real
    requires |xs| >= 2
  {
    m.sqrt(Variance(xs))
  }

  /** Annualized deviation of the log-returns of a run of closes. */
  function Spread(m: Maths, closes: seq<real>, periods: real): real
    requires |closes| >= 3 && AllPositive(closes)
  {
    Times(Deviation(m, Moves(m, closes)), m.sqrt(periods))
  }

  /** The last window of a clean history. */
  function LastWindow(m: Maths, closes: seq<real>, window: nat, periods: real): Option<real>
    requires AllPositive(closes)
  {
    if |closes| < window + 1 then None
    else if window < 2 then None
    else Some(Spread(m, closes[|closes| - (window + 1)..], periods))
  }

  function RealizedVolatility(m: Maths, closes: seq<real>, window: nat, periods: real): Option<real> {
    LastWindow(m, Positive(closes), window, periods)
  }

  function CountBelow(x: real, xs: seq<real>): (n: nat)
    ensures n <= |xs|
  {
    if xs == [] then 0 else (if xs[|xs| - 1] < x then 1 else 0) + CountBelow(x, xs[..|xs| - 1])
  }

  /** Share of the usable observations below the current one. */
  function IvPercentile(current: Option<real>, history: seq<real>): Option<real> {
    if current.None? || current.value <= 0.0 then None
    else
      var hist := Positive(history);
      if hist == [] then None else Some(CountBelow(current.value, hist) as real / |hist| as real)
  }

  /** How many positions the window can be slid back to. */
  function Offsets(closes: seq<real>, window: nat, windows: nat): nat {
    if |closes| <= window then 0 else if |closes| - window < windows then |closes| - window else windows
  }

  /** The realized volatility as of each number of closes ago. */
  function Observations(m: Maths, closes: seq<real>, window: nat, periods: real, windows: nat): seq<Option<real>> {
    seq(Offsets(closes, window, windows), o requires 0 <= o < Offsets(closes, window, windows) =>
          RealizedVolatility(m, closes[..|closes| - o], window, periods))
  }

  predicate Usable(v: Option<real>) { v.Some? && v.value > 0.0 }

  /** The usable observations, in order. */
  function Series(obs: seq<Option<real>>): seq<real> {
    if obs == [] then []
    else
      var last := obs[|obs| - 1];
      Series(obs[..|obs| - 1]) + if Usable(last) then [last.value] else []
  }

  function RankOf(
    m: Maths, current: Option<real>, history: seq<real>, window: nat, periods: real, windows: nat): Option<real>
  {
    var closes := Positive(history);
    if !Usable(current) || |closes| < window + 2 then None
    else
      var series := Series(Observations(m, closes, window, periods, windows));
      if |series| < 5 then None else IvPercentile(current, series)
  }

  method VolatilityRank(
    m: Maths, current: Option<real>, history: seq<real>, window: nat, periods: real, windows: nat)
    returns (r: Option<real>)
    ensures r == RankOf(m, current, history, window, periods, windows)
  {
    if current.None? || current.value <= 0.0 { return None; }
    var closes := Positive(history);
    if |closes| < window + 2 { return None; }
    ghost var obs := Observations(m, closes, window, periods, windows);
    var series: seq<real> := [];
    for offset := 0 to Offsets(closes, window, windows)
      invariant series == Series(obs[..offset])
    {
      var rv := RealizedVolatility(m, closes[..|closes| - offset], window, periods);
      if rv.Some? && rv.value > 0.0 { series := series + [rv.value]; }
      assert obs[..offset + 1][..offset] == obs[..offset] && obs[offset] == rv;
    }
    assert obs[..|obs|] == obs;
    if |series| < 5 { return None; }
    r := IvPercentile(current, series);
  }

  // ---- what the rank means ---------------------------------------------------

  lemma {:induction false} PositiveIsIdentity(xs: seq<real>)
    requires AllPositive(xs)
    ensures Positive(xs) == xs
  {
    if xs != [] { PositiveIsIdentity(xs[1..]); }
  }

  lemma {:induction false} WindowOf(m: Maths, closes: seq<real>, window: nat, periods: real)
    requires AllPositive(closes) && 2 <= window < |closes|
    ensures RealizedVolatility(m, closes, window, periods)
            == Some(Spread(m, closes[|closes| - (window + 1)..], periods))
  {
    PositiveIsIdentity(closes);
  }

  /** Every sliding segment has a full window: no observation is dropped for length, and each is
      the spread of exactly the window's closes ending that many closes ago. */
  lemma {:induction false} SegmentsAreFull(
    m: Maths, history: seq<real>, window: nat, periods: real, windows: nat, offset: nat)
    requires window >= 2 && offset < Offsets(Positive(history), window, windows)
    ensures var closes := Positive(history);
            var end := |closes| - offset;
            && window + 1 <= end
            && Observations(m, closes, window, periods, windows)[offset]
               == Some(Spread(m, closes[end - window - 1..end], periods))
  {
    var closes := Positive(history);
    var end := |closes| - offset;
    var segment := closes[..end];
    assert segment[|segment| - (window + 1)..] == closes[end - window - 1..end];
    WindowOf(m, segment, window, periods);
    assert Observations(m, closes, window, periods, windows)[offset] == RealizedVolatility(m, segment, window, periods);
  }

  ghost function UsableOffsets(obs: seq<Option<real>>): set<nat> { set o: nat | o < |obs| && Usable(obs[o]) }

  ghost function LowerOffsets(obs: seq<Option<real>>, x: real): set<nat> {
    set o: nat | o < |obs| && Usable(obs[o]) && obs[o].value < x
  }

  lemma {:induction false} SeriesStep(front: seq<Option<real>>, last: Option<real>, x: real)
    ensures var s, t := Series(front), Series(front + [last]);
            && t == (if Usable(last) then s + [last.value] else s)
            && CountBelow(x, t) == CountBelow(x, s) + if Usable(last) && last.value < x then 1 else 0
  {
    assert (front + [last])[..|front|] == front;
    if Usable(last) { assert (Series(front) + [last.value])[..|Series(front)|] == Series(front); }
  }

  lemma {:induction false} UsableStep(front: seq<Option<real>>, last: Option<real>)
    ensures |UsableOffsets(front + [last])| == |UsableOffsets(front)| + if Usable(last) then 1 else 0
  {
    var all, was := UsableOffsets(front + [last]), UsableOffsets(front);
    assert |front| !in was;
    if Usable(last) { assert all == was + {|front|}; } else { assert all == was; }
  }

  lemma {:induction false} LowerStep(front: seq<Option<real>>, last: Option<real>, x: real)
    ensures |LowerOffsets(front + [last], x)|
            == |LowerOffsets(front, x)| + if Usable(last) && last.value < x then 1 else 0
  {
    var all, was := LowerOffsets(front + [last], x), LowerOffsets(front, x);
    assert |front| !in was;
    if Usable(last) && last.value < x { assert all == was + {|front|}; } else { assert all == was; }
  }

  /** The series counts the usable offsets, and those below a level. */
  lemma {:induction false} SeriesCounts(obs: seq<Option<real>>, x: real)
    ensures AllPositive(Series(obs))
    ensures |Series(obs)| == |UsableOffsets(obs)| <= |obs|
    ensures CountBelow(x, Series(obs)) == |LowerOffsets(obs, x)|
    decreases obs
  {
    if obs == [] {
      assert UsableOffsets(obs) == {} && LowerOffsets(obs, x) == {};
    } else {
      var front, last := obs[..|obs| - 1], obs[|obs| - 1];
      assert obs == front + [last];
      SeriesCounts(front, x);
      SeriesStep(front, last, x);
      UsableStep(front, last);
      LowerStep(front, last, x);
    }
  }

  /** What a rank is: at least five usable observations, and the share of them below the current level. */
  lemma {:induction false} RankCounts(
    m: Maths, current: Option<real>, history: seq<real>, window: nat, periods: real, windows: nat)
    ensures var obs := Observations(m, Positive(history), window, periods, windows);
            var n := |UsableOffsets(obs)|;
            var r := RankOf(m, current, history, window, periods, windows);
            var spare := |Positive(history)| - window;
            && |obs| == (if spare <= 0 then 0 else if spare <= windows then spare else windows)
            && n <= windows
            && (r.Some? <==> Usable(current) && 5 <= n)
            && (r.Some? ==> r.value == |LowerOffsets(obs, current.value)| as real / n as real)
  {
    var obs := Observations(m, Positive(history), window, periods, windows);
    SeriesCounts(obs, if current.Some? then current.value else 0.0);
    PositiveIsIdentity(Series(obs));
  }

  lemma {:induction false} ShareBelowOne(low: int, n: int)
    requires 0 <= low < n
    ensures 0.0 <= low as real / n as real <= (n - 1) as real / n as real < 1.0
  {
  }

  lemma {:induction false} RefilteringIsIdle(m: Maths, history: seq<real>, window: nat, periods: real)
    ensures RealizedVolatility(m, Positive(history), window, periods) == RealizedVolatility(m, history, window, periods)
  {
    PositiveIsIdentity(Positive(history));
  }

  /** The unslid window is the whole history. */
  lemma {:induction false} UnslidIsCurrent(m: Maths, history: seq<real>, window: nat, periods: real, windows: nat)
    requires Offsets(Positive(history), window, windows) > 0
    ensures Observations(m, Positive(history), window, periods, windows)[0]
            == RealizedVolatility(m, history, window, periods)
  {
    var closes := Positive(history);
    RefilteringIsIdle(m, history, window, periods);
    assert closes[..|closes| - 0] == closes;
  }

  /** The unslid observation is usable and not below itself. */
  lemma {:induction false} HeadIsNotLower(obs: seq<Option<real>>)
    requires obs != [] && Usable(obs[0])
    ensures |LowerOffsets(obs, obs[0].value)| < |UsableOffsets(obs)|
  {
    var all, low := UsableOffsets(obs), LowerOffsets(obs, obs[0].value);
    assert 0 in all && low <= all - {0};
    SubsetSize(low, all - {0});
  }

  /** The desk ranks the realized volatility of a history within that same history: the unslid
      window reproduces the current level, so a rank is below/n with 5 <= n <= windows and never
      exceeds (n - 1)/n. */
  lemma {:induction false} RankInOwnHistory(m: Maths, history: seq<real>, window: nat, periods: real, windows: nat)
    ensures var rv := RealizedVolatility(m, history, window, periods);
            var obs := Observations(m, Positive(history), window, periods, windows);
            var n := |UsableOffsets(obs)|;
            var r := RankOf(m, rv, history, window, periods, windows);
            && n <= windows
            && (r.Some? <==> Usable(rv) && 5 <= n)
            && (r.Some? ==>
                  && |LowerOffsets(obs, rv.value)| < n
                  && r.value == |LowerOffsets(obs, rv.value)| as real / n as real
                  && 0.0 <= r.value <= (n - 1) as real / n as real < 1.0)
  {
    var rv := RealizedVolatility(m, history, window, periods);
    var obs := Observations(m, Positive(history), window, periods, windows);
    RankCounts(m, rv, history, window, periods, windows);
    if Usable(rv) && 5 <= |UsableOffsets(obs)| {
      assert UsableOffsets(obs) != {};
      UnslidIsCurrent(m, history, window, periods, windows);
      HeadIsNotLower(obs);
      ShareBelowOne(|LowerOffsets(obs, rv.value)|, |UsableOffsets(obs)|);
    }
  }

  // ---- what the estimator computes ---------------------------------------------

  /** Filtering keeps exactly the positive values, in order and as often as they occur. */
  lemma {:induction false} PositiveConcat(a: seq<real>, b: seq<real>)
    ensures Positive(a + b) == Positive(a) + Positive(b)
    ensures forall x: real :: Positive([x]) == if x > 0.0 then [x] else []
  {
    if a == [] {
      assert a + b == b;
    } else {
      assert (a + b)[1..] == a[1..] + b;
      PositiveConcat(a[1..], b);
    }
  }

  lemma {:induction false} SumConcat(a: seq<real>, b: seq<real>)
    ensures Sum(a + b) == Sum(a) + Sum(b)
    ensures forall x: real :: Sum([x]) == x
  {
    if a == [] {
      assert a + b == b;
    } else {
      assert (a + b)[1..] == a[1..] + b;
      SumConcat(a[1..], b);
    }
  }

  function SumOfPowers(xs: seq<real>): real { if xs == [] then 0.0 else Times(xs[0], xs[0]) + SumOfPowers(xs[1..]) }

  lemma {:induction false} ExpandMore(n: real, powers: real, total: real, a: real, x: real)
    ensures Times(x - a, x - a) + Expanded(n, powers, total, a) == Expanded(n + 1.0, Times(x, x) + powers, x + total, a)
  {
    assert (x - a) * (x - a) == x * x - 2.0 * (a * x) + a * a;
    assert a * (x + total) == a * x + a * total && (n + 1.0) * (a * a) == n * (a * a) + a * a;
  }

  function Expanded(n: real, powers: real, total: real, a: real): real { powers - 2.0 * (a * total) + n * (a * a) }

  /** Squared deviations from a level, by the sum and the sum of squares. */
  lemma {:induction false} DeviationsExpand(xs: seq<real>, a: real)
    ensures SumOfSquares(xs, a) == Expanded(|xs| as real, SumOfPowers(xs), Sum(xs), a)
  {
    if xs != [] {
      DeviationsExpand(xs[1..], a);
      ExpandMore(|xs[1..]| as real, SumOfPowers(xs[1..]), Sum(xs[1..]), a, xs[0]);
    }
  }

  /** n times a sum of squared deviations are n times the sum of squares less the square of the sum. */
  ghost predicate Textbook(n: real, deviations: real, powers: real, total: real) {
    n * deviations == n * powers - total * total
  }

  lemma {:induction false} DeviationsFromMean(xs: seq<real>)
    requires xs != []
    ensures Textbook(|xs| as real, SumOfSquares(xs, Sum(xs) / |xs| as real), SumOfPowers(xs), Sum(xs))
  {
    var n, total := |xs| as real, Sum(xs);
    var mean := total / n;
    DeviationsExpand(xs, mean);
    MeanTerms(n, total, mean, SumOfPowers(xs));
  }

  lemma {:induction false} MeanTerms(n: real, total: real, mean: real, powers: real)
    requires n > 0.0 && mean == total / n
    ensures Textbook(n, Expanded(n, powers, total, mean), powers, total)
  {
    assert mean * n == total;
    assert n * (n * (mean * mean)) == (mean * n) * (mean * n);
    assert n * (mean * total) == (mean * n) * total;
  }

  lemma {:induction false} MovesAreLogReturns(m: Maths, closes: seq<real>, i: nat)
    requires AllPositive(closes) && i + 1 < |closes|
    ensures i < |Moves(m, closes)| && Moves(m, closes)[i] == m.log(closes[i + 1] / closes[i])
    decreases i
  {
    if i > 0 { MovesAreLogReturns(m, closes[1..], i - 1); }
  }

  /** The textbook sample variance: squared deviations from the mean, shared among one fewer. */
  ghost predicate IsVariance(v: real, xs: seq<real>) {
    |xs| >= 2 && Textbook(|xs| as real, Times(v, (|xs| - 1) as real), SumOfPowers(xs), Sum(xs))
  }

  lemma {:induction false} QuotientTimes(a: real, b: real)
    requires b > 0.0
    ensures Times(a / b, b) == a
  {
  }

  lemma {:induction false} VarianceIsTextbook(xs: seq<real>)
    requires |xs| >= 2
    ensures IsVariance(Variance(xs), xs)
  {
    DeviationsFromMean(xs);
    QuotientTimes(SumOfSquares(xs, Sum(xs) / |xs| as real), (|xs| - 1) as real);
  }

  /** Realized volatility: none for fewer closes than the window needs or a window under two; otherwise
      the annualized sample deviation, with n - 1 degrees of freedom, of the last window's log-returns. */
  lemma {:induction false} RealizedVolatilityIs(m: Maths, history: seq<real>, window: nat, periods: real)
    returns (returned: seq<real>, variance: real)
    ensures var closes := Positive(history);
            RealizedVolatility(m, history, window, periods).Some? <==> window >= 2 && |closes| >= window + 1
    ensures RealizedVolatility(m, history, window, periods).Some? ==>
              var closes := Positive(history);
              var start := |closes| - window - 1;
              && |returned| == window
              && (forall i :: 0 <= i < window ==> returned[i] == m.log(closes[start + i + 1] / closes[start + i]))
              && IsVariance(variance, returned)
              && RealizedVolatility(m, history, window, periods).value == Times(m.sqrt(variance), m.sqrt(periods))
  {
    var closes := Positive(history);
    returned, variance := [], 0.0;
    if window >= 2 && |closes| >= window + 1 {
      var last := closes[|closes| - (window + 1)..];
      returned := Moves(m, last);
      var start := |closes| - window - 1;
      forall i | 0 <= i < window ensures returned[i] == m.log(closes[start + i + 1] / closes[start + i]) {
        MovesAreLogReturns(m, last, i);
        assert last[i] == closes[start + i] && last[i + 1] == closes[start + i + 1];
      }
      VarianceIsTextbook(returned);
      variance := Variance(returned);
    }
  }
}
