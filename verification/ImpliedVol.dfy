/** The bisection behind implied volatility (services/options/pricing.py), for any price function. */
module ImpliedVol {
  import opened Basics
  import opened Options
  import opened Pricing

  const EPS: real := 0.000000001
  const LOW: real := 0.0001
  const HIGH: real := 5.0

  /** Why the search stopped: the price is close, the bracket is narrow, or no iteration is left. */
  datatype Exit = Close | Narrow | Exhausted

  /** The answer, why it was given, and the last bracket. */
  datatype Search = Search(vol: real, exit: Exit, lo: real, hi: real)

  function Middle(lo: real, hi: real): real { 0.5 * (lo + hi) }

  /** At most n halvings of the bracket. */
  function Bisect(f: real -> real, target: real, lo: real, hi: real, n: nat): Search
    decreases n
  {
    if n == 0 then Search(Middle(lo, hi), Exhausted, lo, hi)
    else
      var mid := Middle(lo, hi);
      if Abs(f(mid) - target) < EPS then Search(mid, Close, lo, hi)
      else
        var (a, b) := if f(mid) > target then (lo, mid) else (mid, hi);
        if b - a < EPS then Search(Middle(a, b), Narrow, a, b) else Bisect(f, target, a, b, n - 1)
  }

  /** The theoretical price as a function of volatility; the inputs are those for which it never raises. */
  function PriceCurve(m: Maths, spot: real, strike: real, tte: real, rate: real, kind: OptionType): real -> real
    requires m.Lawful() && spot > 0.0 && strike > 0.0 && tte > 0.0
  {
    vol => BlackScholes(m, spot, strike, tte, rate, vol, kind).value
  }

  /** The search on any price curve: none when the ends do not straddle the target. */
  function Invert(f: real -> real, target: real, lo: real, hi: real, iterations: nat): Option<real> {
    if f(lo) > target || f(hi) < target then None else Some(Bisect(f, target, lo, hi, iterations).vol)
  }

  /** The loop itself, on a price curve. */
  method Halve(f: real -> real, price: real, low: real, high: real, iterations: nat) returns (vol: real)
    ensures vol == Bisect(f, price, low, high, iterations).vol
  {
    var lo, hi := low, high;
    var left := iterations;
    while left > 0
      invariant 0 <= left <= iterations
      invariant Bisect(f, price, low, high, iterations) == Bisect(f, price, lo, hi, left)
    {
      var mid := Middle(lo, hi);
      var val := f(mid);
      if Abs(val - price) < EPS { return mid; }
      if val > price { hi := mid; } else { lo := mid; }
      if hi - lo < EPS { return Middle(lo, hi); }
      left := left - 1;
    }
    return Middle(lo, hi);
  }

  /** The whole search; its cap on iterations is a parameter, which the code fixes at 200. */
  function Implied(
    m: Maths, price: real, spot: real, strike: real, tte: real, rate: real, kind: OptionType, low: real, high: real,
    iterations: nat): Option<real>
    requires m.Lawful()
  {
    if price <= 0.0 || spot <= 0.0 || strike <= 0.0 || tte <= 0.0 then None
    else Invert(PriceCurve(m, spot, strike, tte, rate, kind), price, low, high, iterations)
  }

  method ImpliedVolatility(
    m: Maths, price: real, spot: real, strike: real, tte: real, rate: real, kind: OptionType, low: real, high: real,
    iterations: nat)
    returns (vol: Option<real>)
    requires m.Lawful()
    ensures vol == Implied(m, price, spot, strike, tte, rate, kind, low, high, iterations)
  {
    if price <= 0.0 || spot <= 0.0 || strike <= 0.0 || tte <= 0.0 { return None; }
    var f := PriceCurve(m, spot, strike, tte, rate, kind);
    if f(low) > price || f(high) < price { return None; }
    var v := Halve(f, price, low, high, iterations);
    return Some(v);
  }

  // ---- what the search guarantees -------------------------------------------

  ghost predicate Straddles(f: real -> real, target: real, lo: real, hi: real) { f(lo) <= target <= f(hi) }

  /** For any curve whatever, the last bracket still straddles the target and lies in the first one;
      a close exit is within the price tolerance, a narrow one is the midpoint of a bracket
      narrower than the tolerance. */
  lemma {:induction false} SearchIsSound(f: real -> real, target: real, lo: real, hi: real, n: nat)
    requires Straddles(f, target, lo, hi) && lo <= hi
    ensures var s := Bisect(f, target, lo, hi, n);
            && Straddles(f, target, s.lo, s.hi) && lo <= s.lo <= s.vol <= s.hi <= hi
            && s.vol == Middle(s.lo, s.hi)
            && (s.exit.Close? ==> Abs(f(s.vol) - target) < EPS)
            && (s.exit.Narrow? ==> s.hi - s.lo < EPS)
    decreases n
  {
    if n > 0 {
      var mid := Middle(lo, hi);
      var (a, b) := if f(mid) > target then (lo, mid) else (mid, hi);
      if Abs(f(mid) - target) >= EPS && b - a >= EPS { SearchIsSound(f, target, a, b, n - 1); }
    }
  }

  function Doubled(x: real, k: nat): real
    decreases k
  {
    if k == 0 then x else Doubled(2.0 * x, k - 1)
  }

  lemma {:induction false} DoublingGrows(x: real, k: nat)
    requires x >= 0.0
    ensures Doubled(x, k) >= x
    decreases k
  {
    if k > 0 { DoublingGrows(2.0 * x, k - 1); }
  }

  /** Halvings needed: with k of them the bracket is below the tolerance. */
  lemma {:induction false} EnoughHalvings(f: real -> real, target: real, lo: real, hi: real, k: nat, n: nat)
    requires lo <= hi && 0 < k <= n && hi - lo < Doubled(EPS, k)
    ensures !Bisect(f, target, lo, hi, n).exit.Exhausted?
    ensures Bisect(f, target, lo, hi, n) == Bisect(f, target, lo, hi, k)
    decreases n
  {
    var mid := Middle(lo, hi);
    var (a, b) := if f(mid) > target then (lo, mid) else (mid, hi);
    DoubledTwice(EPS, k - 1);
    if Abs(f(mid) - target) >= EPS && b - a >= EPS {
      assert 2.0 * (b - a) == hi - lo;
      EnoughHalvings(f, target, a, b, k - 1, n - 1);
    }
  }

  lemma {:induction false} DoubledTwice(x: real, k: nat)
    ensures Doubled(x, k + 1) == 2.0 * Doubled(x, k)
    decreases k
  {
    if k > 0 { DoubledTwice(2.0 * x, k - 1); }
  }

  /** Halvings needed, the other way: k of them leave a bracket at least the tolerance wide. */
  lemma {:induction false} TooFewHalvings(f: real -> real, target: real, lo: real, hi: real, k: nat)
    requires hi - lo >= Doubled(EPS, k)
    ensures !Bisect(f, target, lo, hi, k).exit.Narrow?
    decreases k
  {
    if k > 0 {
      var mid := Middle(lo, hi);
      var (a, b) := if f(mid) > target then (lo, mid) else (mid, hi);
      assert 2.0 * (b - a) == hi - lo;
      DoubledTwice(EPS, k - 1);
      DoublingGrows(EPS, k - 1);
      if Abs(f(mid) - target) >= EPS { TooFewHalvings(f, target, a, b, k - 1); }
    }
  }

  lemma {:induction false} EightDoublings(x: real, k: nat)
    ensures Doubled(x, k + 8) == Doubled(256.0 * x, k)
  {
    assert Doubled(x, k + 8) == Doubled(4.0 * x, k + 6);
    assert Doubled(4.0 * x, k + 6) == Doubled(16.0 * x, k + 4);
    assert Doubled(16.0 * x, k + 4) == Doubled(64.0 * x, k + 2);
  }

  lemma {:induction false} ThirtyTwoDoublings()
    ensures Doubled(EPS, 32) == 4294967296.0 * EPS && Doubled(EPS, 33) == 8589934592.0 * EPS
  {
    EightDoublings(EPS, 24);
    EightDoublings(256.0 * EPS, 16);
    EightDoublings(65536.0 * EPS, 8);
    EightDoublings(16777216.0 * EPS, 0);
    DoubledTwice(EPS, 32);
  }

  /** The default bracket always stops inside the loop: 33 halvings give the full answer on any
      curve, so under any larger cap (200 in the code) the return after the loop is dead code;
      fewer halvings never stop for narrowness. */
  lemma {:induction false} DefaultBracketStops(f: real -> real, target: real, n: nat)
    requires 33 <= n
    ensures var s := Bisect(f, target, LOW, HIGH, n);
            && !s.exit.Exhausted? && s == Bisect(f, target, LOW, HIGH, 33)
    ensures !Bisect(f, target, LOW, HIGH, 32).exit.Narrow?
  {
    ThirtyTwoDoublings();
    EnoughHalvings(f, target, LOW, HIGH, 33, n);
    TooFewHalvings(f, target, LOW, HIGH, 32);
  }

  lemma {:induction false} DefaultBracketSuffices(f: real -> real, target: real, n: nat)
    requires 33 <= n
    ensures !Bisect(f, target, LOW, HIGH, n).exit.Exhausted?
  {
    DefaultBracketStops(f, target, n);
  }

  ghost predicate Increasing(f: real -> real, lo: real, hi: real) {
    forall x, y :: lo <= x < y <= hi ==> f(x) < f(y)
  }

  /** On an increasing curve the straddled volatility is the one that made the target. */
  lemma {:induction false} Between(f: real -> real, vol: real, lo: real, a: real, b: real, hi: real)
    requires Increasing(f, lo, hi) && lo <= vol <= hi && lo <= a <= b <= hi && Straddles(f, f(vol), a, b)
    ensures a <= vol <= b
  {
    assert vol < a ==> f(vol) < f(a);
    assert b < vol ==> f(b) < f(vol);
  }

  /** Round trip: where the curve increases over the default bracket, a price made from a volatility
      in it is inverted, to within half the tolerance of that volatility or to a volatility whose
      price is within the tolerance. */
  lemma {:induction false} InvertRecovers(f: real -> real, vol: real, n: nat)
    requires 33 <= n && Increasing(f, LOW, HIGH) && LOW <= vol <= HIGH
    ensures var r := Invert(f, f(vol), LOW, HIGH, n);
            && r.Some? && LOW <= r.value <= HIGH
            && (Abs(r.value - vol) <= EPS / 2.0 || Abs(f(r.value) - f(vol)) < EPS)
  {
    RefusedPricesHaveNoRoot(f, f(vol), LOW, HIGH, n);
    SearchIsSound(f, f(vol), LOW, HIGH, n);
    DefaultBracketSuffices(f, f(vol), n);
    var s := Bisect(f, f(vol), LOW, HIGH, n);
    Between(f, vol, LOW, s.lo, s.hi, HIGH);
  }

  /** On an increasing curve only a price that no volatility in the bracket has is refused. */
  lemma {:induction false} RefusedPricesHaveNoRoot(f: real -> real, target: real, lo: real, hi: real, n: nat)
    requires Increasing(f, lo, hi) && lo <= hi
    ensures Invert(f, target, lo, hi, n).None? ==> forall vol :: lo <= vol <= hi ==> f(vol) != target
  {
    forall vol | lo <= vol <= hi ensures f(lo) <= f(vol) <= f(hi) {}
  }

  // ---- what an implied volatility is, in prices --------------------------------

  /** A volatility is answered exactly for positive inputs whose price lies between the Black-Scholes
      prices at the ends of the bracket. */
  lemma {:induction false} ImpliedExists(
    m: Maths, price: real, spot: real, strike: real, tte: real, rate: real, kind: OptionType, low: real, high: real,
    n: nat)
    requires m.Lawful()
    ensures Implied(m, price, spot, strike, tte, rate, kind, low, high, n).Some? <==>
              && price > 0.0 && spot > 0.0 && strike > 0.0 && tte > 0.0
              && BlackScholes(m, spot, strike, tte, rate, low, kind).value <= price
              && price <= BlackScholes(m, spot, strike, tte, rate, high, kind).value
  {
  }

  /** The price at `v` is within a billionth of the target. */
  ghost predicate PricedAt(
    m: Maths, price: real, spot: real, strike: real, tte: real, rate: real, kind: OptionType, v: real)
    requires m.Lawful()
  {
    var p := BlackScholes(m, spot, strike, tte, rate, v, kind);
    p.Some? && -0.000000001 < p.value - price < 0.000000001
  }

  /** `v` is the middle of a bracket narrower than a billionth whose two prices straddle the target. */
  ghost predicate Straddled(
    m: Maths, price: real, spot: real, strike: real, tte: real, rate: real, kind: OptionType,
    v: real, lo: real, hi: real)
    requires m.Lawful()
  {
    var p, q := BlackScholes(m, spot, strike, tte, rate, lo, kind), BlackScholes(m, spot, strike, tte, rate, hi, kind);
    && lo <= v <= hi && v - lo == hi - v && hi - lo < 0.000000001
    && p.Some? && q.Some? && p.value <= price <= q.value
  }

  /** An answer on the default bracket lies in it and is priced within tolerance, or is the middle of
      a straddling bracket narrower than the tolerance. */
  lemma {:induction false} ImpliedIsAccurate(
    m: Maths, price: real, spot: real, strike: real, tte: real, rate: real, kind: OptionType, n: nat)
    returns (lo: real, hi: real)
    requires m.Lawful() && 33 <= n
    ensures var v := Implied(m, price, spot, strike, tte, rate, kind, 0.0001, 5.0, n);
            v.Some? ==>
              && 0.0001 <= v.value <= 5.0
              && (PricedAt(m, price, spot, strike, tte, rate, kind, v.value)
                  || Straddled(m, price, spot, strike, tte, rate, kind, v.value, lo, hi))
  {
    lo, hi := 0.0, 0.0;
    if Implied(m, price, spot, strike, tte, rate, kind, 0.0001, 5.0, n).Some? {
      var f := PriceCurve(m, spot, strike, tte, rate, kind);
      SearchIsSound(f, price, LOW, HIGH, n);
      DefaultBracketSuffices(f, price, n);
      var s := Bisect(f, price, LOW, HIGH, n);
      lo, hi := s.lo, s.hi;
      CurveIsBlackScholes(m, spot, strike, tte, rate, kind, s.vol);
      CurveIsBlackScholes(m, spot, strike, tte, rate, kind, lo);
      CurveIsBlackScholes(m, spot, strike, tte, rate, kind, hi);
    }
  }

  lemma {:induction false} CurveIsBlackScholes(
    m: Maths, spot: real, strike: real, tte: real, rate: real, kind: OptionType, v: real)
    requires m.Lawful() && spot > 0.0 && strike > 0.0 && tte > 0.0
    ensures BlackScholes(m, spot, strike, tte, rate, v, kind)
            == Some(PriceCurve(m, spot, strike, tte, rate, kind)(v))
  {
  }

  /** Round trip: where Black-Scholes prices increase with volatility over the default bracket, the price
      made from a volatility is inverted to within half a billionth of it, or to a volatility priced
      within a billionth of that price. */
  lemma {:induction false} ImpliedRecovers(
    m: Maths, spot: real, strike: real, tte: real, rate: real, kind: OptionType, vol: real, n: nat)
    requires m.Lawful() && spot > 0.0 && strike > 0.0 && tte > 0.0 && 33 <= n && 0.0001 <= vol <= 5.0
    requires forall x, y :: 0.0001 <= x < y <= 5.0 ==>
               BlackScholes(m, spot, strike, tte, rate, x, kind).value
               < BlackScholes(m, spot, strike, tte, rate, y, kind).value
    requires BlackScholes(m, spot, strike, tte, rate, vol, kind).value > 0.0
    ensures var price := BlackScholes(m, spot, strike, tte, rate, vol, kind).value;
            var v := Implied(m, price, spot, strike, tte, rate, kind, 0.0001, 5.0, n);
            && v.Some? && 0.0001 <= v.value <= 5.0
            && (Abs(v.value - vol) <= 0.0000000005 || PricedAt(m, price, spot, strike, tte, rate, kind, v.value))
  {
    var f := PriceCurve(m, spot, strike, tte, rate, kind);
    forall x, y | LOW <= x < y <= HIGH ensures f(x) < f(y) {
      CurveIsBlackScholes(m, spot, strike, tte, rate, kind, x);
      CurveIsBlackScholes(m, spot, strike, tte, rate, kind, y);
    }
    CurveIsBlackScholes(m, spot, strike, tte, rate, kind, vol);
    InvertRecovers(f, vol, n);
    var r := Invert(f, f(vol), LOW, HIGH, n);
    CurveIsBlackScholes(m, spot, strike, tte, rate, kind, r.value);
  }

  /** The search stops at the first midpoint priced within a billionth. */
  lemma {:induction false} StopsWhenClose(f: real -> real, target: real, lo: real, hi: real, n: nat)
    requires n > 0 && -0.000000001 < f((lo + hi) / 2.0) - target < 0.000000001
    ensures Bisect(f, target, lo, hi, n).vol == (lo + hi) / 2.0 && Bisect(f, target, lo, hi, n).exit.Close?
  {
    assert Middle(lo, hi) == (lo + hi) / 2.0;
  }
}
