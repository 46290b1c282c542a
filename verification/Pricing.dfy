/** Black-Scholes-Merton prices, Greeks and the implied-volatility search (services/options/pricing.py).
    Floats are reals; exp, log and sqrt are parameters known only by the facts in `Lawful`. */
module Pricing {
  import opened Basics
  import opened Options

  datatype Maths = Maths(exp: real -> real, log: real -> real, sqrt: real -> real) {
    ghost predicate Lawful() {
      && exp(0.0) == 1.0 && (forall x :: exp(x) > 0.0)
      && (forall x :: x > 0.0 ==> sqrt(x) > 0.0 && sqrt(x) * sqrt(x) == x)
    }
  }

  /** The polynomial tail of the normal distribution beyond |x|. */
  function Tail(m: Maths, x: real): real {
    var t := 1.0 / (1.0 + 0.2316419 * Abs(x));
    var phi := 0.3989422804014327 * m.exp(-(x * x) / 2.0);
    phi * t * (0.319381530 + t * (-0.356563782 + t * (1.781477937 + t * (-1.821255978 + t * 1.330274429))))
  }

  function NormCdf(m: Maths, x: real): real { if x >= 0.0 then 1.0 - Tail(m, x) else Tail(m, x) }

  function NormPdf(m: Maths, x: real): real
    requires m.Lawful()
  {
    m.exp(-0.5 * (x * x)) / m.sqrt(2.0 * 3.141592653589793)
  }

  /** Spread of log-returns over the remaining life, after the code's floors. */
  function Sigma(m: Maths, tte: real, vol: real): (r: real)
    requires m.Lawful()
    ensures r > 0.0
  {
    (if vol <= 0.0 then 0.000001 else vol) * m.sqrt(if tte <= 0.0 then 0.000000001 else tte)
  }

  function D1(m: Maths, spot: real, strike: real, tte: real, rate: real, vol: real): real
    requires m.Lawful() && strike != 0.0
  {
    var tte' := if tte <= 0.0 then 0.000000001 else tte;
    var vol' := if vol <= 0.0 then 0.000001 else vol;
    (m.log(spot / strike) + (rate + 0.5 * vol' * vol') * tte') / Sigma(m, tte, vol)
  }

  function D2(m: Maths, spot: real, strike: real, tte: real, rate: real, vol: real): real
    requires m.Lawful() && strike != 0.0
  {
    D1(m, spot, strike, tte, rate, vol) - Sigma(m, tte, vol)
  }

  /** The strike in today's money. */
  function Discounted(m: Maths, strike: real, tte: real, rate: real): real {
    Times(strike, m.exp(-Times(rate, tte)))
  }

  /** Price, or none where the code raises. */
  function BlackScholes(
    m: Maths, spot: real, strike: real, tte: real, rate: real, vol: real, kind: OptionType): Option<real>
    requires m.Lawful()
  {
    if spot <= 0.0 || strike <= 0.0 || tte < 0.0 then None
    else if tte == 0.0 then Some(if kind.Call? then Max(spot - strike, 0.0) else Max(strike - spot, 0.0))
    else
      var d1, d2 := D1(m, spot, strike, tte, rate, vol), D2(m, spot, strike, tte, rate, vol);
      var k := Discounted(m, strike, tte, rate);
      Some(if kind.Call? then PriceAt(kind, spot, k, NormCdf(m, d1), NormCdf(m, d2))
           else PriceAt(kind, spot, k, NormCdf(m, -d1), NormCdf(m, -d2)))
  }

  /** Price from today's spot, today's strike and the two normal weights. */
  function PriceAt(kind: OptionType, spot: real, k: real, n1: real, n2: real): real {
    if kind.Call? then spot * n1 - k * n2 else k * n2 - spot * n1
  }

  /** Probability weight of exercise: positive for a call, negative for a put. */
  function Weight(m: Maths, kind: OptionType, x: real): real {
    if kind.Call? then NormCdf(m, x) else -NormCdf(m, -x)
  }

  datatype Greeks = Greeks(delta: real, gamma: real, theta: real, vega: real, rho: real)

  /** First-order Greeks, or none where the code raises (a zero volatility divides by zero). */
  function GreeksOf(
    m: Maths, spot: real, strike: real, tte: real, rate: real, vol: real, kind: OptionType): Option<Greeks>
    requires m.Lawful()
  {
    if spot <= 0.0 || strike <= 0.0 || tte < 0.0 then None
    else if tte == 0.0 then Some(Greeks(0.0, 0.0, 0.0, 0.0, 0.0))
    else if vol == 0.0 then None
    else
      var d1, d2 := D1(m, spot, strike, tte, rate, vol), D2(m, spot, strike, tte, rate, vol);
      var k := Discounted(m, strike, tte, rate);
      var pdf := NormPdf(m, d1);
      Some(GreeksAt(m, kind, Gamma(m, spot, tte, vol, pdf), Decay(m, spot, tte, vol, pdf), Vega(m, spot, tte, pdf),
                    Times(rate, k), Times(k, tte), d1, d2))
  }

  /** A product under a name, so that equal factors give equal products. */
  function Times(a: real, b: real): real { a * b }

  function Gamma(m: Maths, spot: real, tte: real, vol: real, pdf: real): real
    requires m.Lawful() && spot > 0.0 && tte > 0.0 && vol != 0.0
  {
    NonZeroProduct(vol, m.sqrt(tte));
    NonZeroProduct(spot, vol * m.sqrt(tte));
    pdf / (spot * (vol * m.sqrt(tte)))
  }

  function Decay(m: Maths, spot: real, tte: real, vol: real, pdf: real): real
    requires m.Lawful() && tte > 0.0
  {
    -spot * pdf * vol / (2.0 * m.sqrt(tte))
  }

  function Vega(m: Maths, spot: real, tte: real, pdf: real): real { spot * pdf * m.sqrt(tte) / 100.0 }

  lemma {:induction false} NonZeroProduct(a: real, x: real)
    ensures a * x == 0.0 <==> a == 0.0 || x == 0.0
  {
    if a > 0.0 { ProductSign(x, a); } else if a < 0.0 { ProductSign(x, -a); }
  }

  /** The Greeks from their parts that ignore the kind, the interest and time on the strike,
      and the two normal quantiles. */
  function GreeksAt(
    m: Maths, kind: OptionType, gamma: real, decay: real, vega: real, interest: real, carry: real,
    d1: real, d2: real): Greeks
  {
    Greeks(Weight(m, kind, d1), gamma, (decay - interest * Weight(m, kind, d2)) / 365.0, vega,
           carry * Weight(m, kind, d2) / 100.0)
  }

  // ---- put-call relations ----------------------------------------------------

  /** By how much the code's distribution function misses its reflection law at zero. */
  ghost function Gap(m: Maths, x: real): real { NormCdf(m, x) + NormCdf(m, -x) - 1.0 }

  lemma {:induction false} TailIsEven(m: Maths, x: real)
    ensures Tail(m, x) == Tail(m, -x)
  {
    assert (-x) * (-x) == x * x;
  }

  /** The reflection law holds everywhere except at zero. */
  lemma {:induction false} Reflection(m: Maths, x: real)
    requires m.Lawful()
    ensures Gap(m, x) == 0.0 <==> x != 0.0
    ensures x == 0.0 ==> Gap(m, x) == Gap(m, 0.0)
  {
    TailIsEven(m, x);
    if x == 0.0 {
      assert -(x * x) / 2.0 == 0.0 && 1.0 / (1.0 + 0.2316419 * Abs(x)) == 1.0;
      assert Tail(m, x) == 0.3989422804014327 * 1.0 * 1.0 *
        (0.319381530 + (-0.356563782 + (1.781477937 + (-1.821255978 + 1.330274429))));
    }
  }

  lemma {:induction false} GapTimes(a: real, p: real, q: real)
    ensures a * p + a * q == a + a * (p + q - 1.0)
  {
  }

  /** A call less a put on one strike is worth the spot less that strike in today's money. */
  ghost predicate InParity(call: real, put: real, spot: real, k: real) { call - put == spot - k }

  /** Parity from weights that add up to one, except possibly one of the pairs. */
  lemma {:induction false} ParityAt(spot: real, k: real, p1: real, q1: real, p2: real, q2: real)
    requires spot > 0.0 && k > 0.0 && (p1 + q1 == 1.0 || p2 + q2 == 1.0)
    ensures InParity(PriceAt(Call, spot, k, p1, p2), PriceAt(Put, spot, k, q1, q2), spot, k)
            <==> p1 + q1 == 1.0 && p2 + q2 == 1.0
  {
    GapTimes(spot, p1, q1);
    GapTimes(k, p2, q2);
    NonZeroProduct(spot, p1 + q1 - 1.0);
    NonZeroProduct(k, p2 + q2 - 1.0);
  }

  /** Put-call parity with the code's own distribution function holds exactly when neither
      d1 nor d2 is zero. */
  lemma {:induction false} PutCallParity(m: Maths, spot: real, strike: real, tte: real, rate: real, vol: real)
    requires m.Lawful() && spot > 0.0 && strike > 0.0 && tte > 0.0
    ensures InParity(BlackScholes(m, spot, strike, tte, rate, vol, Call).value,
                     BlackScholes(m, spot, strike, tte, rate, vol, Put).value, spot,
                     Times(strike, m.exp(-Times(rate, tte))))
            <==> D1(m, spot, strike, tte, rate, vol) != 0.0 && D2(m, spot, strike, tte, rate, vol) != 0.0
  {
    ProductSign(m.exp(-Times(rate, tte)), strike);
    var d1, d2 := D1(m, spot, strike, tte, rate, vol), D2(m, spot, strike, tte, rate, vol);
    Reflection(m, d1);
    Reflection(m, d2);
    ParityAt(spot, Discounted(m, strike, tte, rate), NormCdf(m, d1), NormCdf(m, -d1), NormCdf(m, d2), NormCdf(m, -d2));
  }

  /** A multiple of the call weight less the same multiple of the put weight is that multiple
      exactly when the quantile is not zero or the multiple is. */
  lemma {:induction false} WeightsDiffer(m: Maths, a: real, x: real)
    requires m.Lawful()
    ensures a * Weight(m, Call, x) - a * Weight(m, Put, x) == a <==> x != 0.0 || a == 0.0
  {
    GapTimes(a, NormCdf(m, x), NormCdf(m, -x));
    assert a * Weight(m, Put, x) == -(a * NormCdf(m, -x));
    Reflection(m, x);
    NonZeroProduct(a, Gap(m, x));
  }

  lemma {:induction false} GreeksDiffer(
    m: Maths, gamma: real, decay: real, vega: real, interest: real, carry: real, d1: real, d2: real)
    requires m.Lawful() && carry != 0.0
    ensures var c := GreeksAt(m, Call, gamma, decay, vega, interest, carry, d1, d2);
            var p := GreeksAt(m, Put, gamma, decay, vega, interest, carry, d1, d2);
            && c.gamma == p.gamma && c.vega == p.vega
            && (c.delta - p.delta == 1.0 <==> d1 != 0.0)
            && (c.theta - p.theta == -interest / 365.0 <==> d2 != 0.0 || interest == 0.0)
            && (c.rho - p.rho == carry / 100.0 <==> d2 != 0.0)
  {
    WeightsDiffer(m, 1.0, d1);
    WeightsDiffer(m, interest, d2);
    WeightsDiffer(m, carry, d2);
  }

  /** Greeks of a call and a put on one strike: gamma and vega agree; deltas differ by one exactly
      when d1 is not zero; daily thetas by the interest on the strike exactly when d2 is not zero
      or there is no interest; rhos by the strike's own exactly when d2 is not zero. */
  lemma {:induction false} PutCallGreeks(m: Maths, spot: real, strike: real, tte: real, rate: real, vol: real)
    requires m.Lawful() && spot > 0.0 && strike > 0.0 && tte > 0.0 && vol != 0.0
    ensures var c := GreeksOf(m, spot, strike, tte, rate, vol, Call).value;
            var p := GreeksOf(m, spot, strike, tte, rate, vol, Put).value;
            var d1, d2 := D1(m, spot, strike, tte, rate, vol), D2(m, spot, strike, tte, rate, vol);
            var interest := Times(rate, Discounted(m, strike, tte, rate));
            var carry := Times(Discounted(m, strike, tte, rate), tte);
            && c.gamma == p.gamma && c.vega == p.vega
            && (c.delta - p.delta == 1.0 <==> d1 != 0.0)
            && (c.theta - p.theta == -interest / 365.0 <==> d2 != 0.0 || rate == 0.0)
            && (c.rho - p.rho == carry / 100.0 <==> d2 != 0.0)
  {
    var d1, d2 := D1(m, spot, strike, tte, rate, vol), D2(m, spot, strike, tte, rate, vol);
    var k := Discounted(m, strike, tte, rate);
    var pdf := NormPdf(m, d1);
    ProductSign(m.exp(-Times(rate, tte)), strike);
    NonZeroProduct(k, tte);
    NonZeroProduct(rate, k);
    GreeksDiffer(m, Gamma(m, spot, tte, vol, pdf), Decay(m, spot, tte, vol, pdf), Vega(m, spot, tte, pdf),
                 Times(rate, k), Times(k, tte), d1, d2);
  }

  // ---- what holds between price and Greeks -------------------------------------

  /** A price exists exactly for a positive spot and strike and a life not yet over; at expiry it is
      what exercise is worth. */
  lemma {:induction false} PricesExist(
    m: Maths, spot: real, strike: real, tte: real, rate: real, vol: real, kind: OptionType)
    requires m.Lawful()
    ensures var p := BlackScholes(m, spot, strike, tte, rate, vol, kind);
            && (p.Some? <==> spot > 0.0 && strike > 0.0 && tte >= 0.0)
            && (p.Some? && tte == 0.0 ==>
                  var gain := if kind.Call? then spot - strike else strike - spot;
                  p.value == if gain > 0.0 then gain else 0.0)
    ensures var g := GreeksOf(m, spot, strike, tte, rate, vol, kind);
            && (g.Some? <==> spot > 0.0 && strike > 0.0 && tte >= 0.0 && (tte > 0.0 ==> vol != 0.0))
            && (g.Some? && tte == 0.0 ==> g.value == Greeks(0.0, 0.0, 0.0, 0.0, 0.0))
  {
  }

  /** A volatility that is not positive is priced as one millionth. */
  lemma {:induction false} FlooredVolatility(
    m: Maths, spot: real, strike: real, tte: real, rate: real, vol: real, kind: OptionType)
    requires m.Lawful() && vol <= 0.0
    ensures BlackScholes(m, spot, strike, tte, rate, vol, kind)
            == BlackScholes(m, spot, strike, tte, rate, 0.000001, kind)
  {
    if spot > 0.0 && strike > 0.0 && tte > 0.0 {
      assert Sigma(m, tte, vol) == Sigma(m, tte, 0.000001);
      assert D1(m, spot, strike, tte, rate, vol) == D1(m, spot, strike, tte, rate, 0.000001);
    }
  }

  /** The tail as the approximation is written: the density times a fifth-degree polynomial in
      t = 1 / (1 + 0.2316419 |x|). */
  lemma {:induction false} TailIsTheSeries(m: Maths, x: real, t: real)
    requires t * (1.0 + 0.2316419 * Abs(x)) == 1.0
    ensures Tail(m, x) == 0.3989422804014327 * m.exp(-(x * x) / 2.0)
              * (0.319381530 * t - 0.356563782 * (t * t) + 1.781477937 * (t * t * t)
                 - 1.821255978 * (t * t * t * t) + 1.330274429 * (t * t * t * t * t))
  {
    var d := 1.0 + 0.2316419 * Abs(x);
    assert t == 1.0 / d;
    var phi := 0.3989422804014327 * m.exp(-(x * x) / 2.0);
    Horner(phi, t);
  }

  lemma {:induction false} Horner(phi: real, t: real)
    ensures phi * t * (0.319381530 + t * (-0.356563782 + t * (1.781477937 + t * (-1.821255978 + t * 1.330274429))))
            == phi * (0.319381530 * t - 0.356563782 * (t * t) + 1.781477937 * (t * t * t)
                      - 1.821255978 * (t * t * t * t) + 1.330274429 * (t * t * t * t * t))
  {
  }

  lemma {:induction false} QuotientTimes(a: real, b: real)
    requires b > 0.0
    ensures (a / b) * b == a
  {
  }

  /** The two quantiles: standard deviations between the discounted strike and the spot, drift added
      or taken off. */
  lemma {:induction false} Quantiles(m: Maths, spot: real, strike: real, tte: real, rate: real, vol: real)
    requires m.Lawful() && spot > 0.0 && strike > 0.0 && tte > 0.0 && vol > 0.0
    ensures var dev := vol * m.sqrt(tte);
            && dev > 0.0 && dev * dev == vol * vol * tte
            && D1(m, spot, strike, tte, rate, vol) * dev == m.log(spot / strike) + rate * tte + dev * dev / 2.0
            && D2(m, spot, strike, tte, rate, vol) * dev == m.log(spot / strike) + rate * tte - dev * dev / 2.0
  {
    var root := m.sqrt(tte);
    var dev := vol * root;
    var drift := m.log(spot / strike) + (rate + 0.5 * vol * vol) * tte;
    ProductSign(root, vol);
    SquareOfProduct(vol, root);
    assert Sigma(m, tte, vol) == dev && D1(m, spot, strike, tte, rate, vol) == drift / dev;
    QuotientTimes(drift, dev);
    assert (rate + 0.5 * vol * vol) * tte == rate * tte + 0.5 * (vol * vol * tte);
    var d1 := drift / dev;
    assert (d1 - dev) * dev == d1 * dev - dev * dev;
  }

  lemma {:induction false} SquareOfProduct(a: real, b: real)
    ensures (a * b) * (a * b) == a * a * (b * b)
  {
  }

  /** Spot times weight less strike times weight, for either kind. */
  lemma {:induction false} PriceByWeights(m: Maths, kind: OptionType, spot: real, k: real, d1: real, d2: real)
    requires m.Lawful()
    ensures (if kind.Call? then PriceAt(kind, spot, k, NormCdf(m, d1), NormCdf(m, d2))
             else PriceAt(kind, spot, k, NormCdf(m, -d1), NormCdf(m, -d2)))
            == Times(spot, Weight(m, kind, d1)) - Times(k, Weight(m, kind, d2))
  {
  }

  /** Gamma, decay and vega from one density. */
  lemma {:induction false} DensityTerms(spot: real, vol: real, root: real, pdf: real, g: real)
    requires spot > 0.0 && root > 0.0 && vol != 0.0 && g * (spot * (vol * root)) == pdf
    ensures spot * pdf * vol / (2.0 * root) == 0.5 * (vol * vol * (spot * spot) * g)
    ensures spot * pdf * root == spot * spot * g * vol * (root * root)
  {
    var y := spot * pdf * vol / (2.0 * root);
    var x := 0.5 * (vol * vol * (spot * spot) * g);
    QuotientTimes(spot * pdf * vol, 2.0 * root);
    assert pdf == g * spot * vol * root;
    Expand(spot, vol, root, g);
    assert (y - x) * root == 0.0;
    NonZeroProduct(y - x, root);
  }

  lemma {:induction false} Expand(spot: real, vol: real, root: real, g: real)
    ensures spot * (g * spot * vol * root) * vol == vol * vol * (spot * spot) * g * root
    ensures spot * (g * spot * vol * root) * root == spot * spot * g * vol * (root * root)
  {
  }

  lemma {:induction false} NegativeQuotient(a: real, b: real, c: real, d: real)
    requires d > 0.0
    ensures -a * b * c / d == -(a * b * c / d)
  {
    QuotientTimes(a * b * c, d);
    QuotientTimes(-a * b * c, d);
    assert -a * b * c == -(a * b * c);
    assert (-a * b * c / d + a * b * c / d) * d == 0.0;
    NonZeroProduct(-a * b * c / d + a * b * c / d, d);
  }

  /** What ties the Greeks to the price: the Black-Scholes equation between theta, delta, gamma and
      price; vega as gamma's share of variance; rho as the strike's share of the price. */
  ghost predicate Consistent(spot: real, tte: real, rate: real, vol: real, p: real, g: Greeks) {
    && 365.0 * g.theta + rate * (spot * g.delta) + 0.5 * (vol * vol * (spot * spot) * g.gamma) == rate * p
    && 100.0 * g.vega == spot * spot * g.gamma * vol * tte
    && 100.0 * g.rho == tte * (spot * g.delta - p)
  }

  /** Price from the spot, the strike in today's money, and two weights. */
  function Weighed(spot: real, k: real, w1: real, w2: real): real { spot * w1 - k * w2 }

  lemma {:induction false} PriceIsWeighed(
    m: Maths, spot: real, strike: real, tte: real, rate: real, vol: real, kind: OptionType)
    requires m.Lawful() && spot > 0.0 && strike > 0.0 && tte > 0.0
    ensures BlackScholes(m, spot, strike, tte, rate, vol, kind).value
            == Weighed(spot, Discounted(m, strike, tte, rate), Weight(m, kind, D1(m, spot, strike, tte, rate, vol)),
                       Weight(m, kind, D2(m, spot, strike, tte, rate, vol)))
  {
    PriceByWeights(m, kind, spot, Discounted(m, strike, tte, rate), D1(m, spot, strike, tte, rate, vol),
                   D2(m, spot, strike, tte, rate, vol));
  }

  /** Greeks made of two weights, the terms of the density, and the strike in today's money. */
  ghost predicate MadeOf(
    g: Greeks, interest: real, carry: real, w1: real, w2: real, gamma: real, decay: real, vega: real)
  {
    && g.delta == w1 && g.gamma == gamma && g.vega == vega
    && 365.0 * g.theta == decay - interest * w2
    && 100.0 * g.rho == carry * w2
  }

  lemma {:induction false} GreeksAtIsMadeOf(
    m: Maths, kind: OptionType, gamma: real, decay: real, vega: real, interest: real, carry: real, d1: real, d2: real)
    ensures MadeOf(GreeksAt(m, kind, gamma, decay, vega, interest, carry, d1, d2), interest, carry,
                   Weight(m, kind, d1), Weight(m, kind, d2), gamma, decay, vega)
  {
  }

  /** How the three terms of the density hang together. */
  ghost predicate DensityAgrees(spot: real, vol: real, tte: real, gamma: real, decay: real, vega: real) {
    && decay == -0.5 * (vol * vol * (spot * spot) * gamma)
    && 100.0 * vega == spot * spot * gamma * vol * tte
  }

  lemma {:induction false} GreeksAreMadeOf(
    m: Maths, spot: real, strike: real, tte: real, rate: real, vol: real, kind: OptionType)
    requires m.Lawful() && spot > 0.0 && strike > 0.0 && tte > 0.0 && vol != 0.0
    ensures var d1, d2 := D1(m, spot, strike, tte, rate, vol), D2(m, spot, strike, tte, rate, vol);
            var pdf := NormPdf(m, d1);
            var k := Discounted(m, strike, tte, rate);
            MadeOf(GreeksOf(m, spot, strike, tte, rate, vol, kind).value, Times(rate, k), Times(k, tte),
                   Weight(m, kind, d1), Weight(m, kind, d2),
                   Gamma(m, spot, tte, vol, pdf), Decay(m, spot, tte, vol, pdf), Vega(m, spot, tte, pdf))
  {
    var d1, d2 := D1(m, spot, strike, tte, rate, vol), D2(m, spot, strike, tte, rate, vol);
    var k, pdf := Discounted(m, strike, tte, rate), NormPdf(m, d1);
    GreeksAtIsMadeOf(m, kind, Gamma(m, spot, tte, vol, pdf), Decay(m, spot, tte, vol, pdf), Vega(m, spot, tte, pdf),
                     Times(rate, k), Times(k, tte), d1, d2);
  }

  lemma {:induction false} DensityParts(m: Maths, spot: real, tte: real, vol: real, pdf: real)
    requires m.Lawful() && spot > 0.0 && tte > 0.0 && vol != 0.0
    ensures DensityAgrees(spot, vol, tte, Gamma(m, spot, tte, vol, pdf), Decay(m, spot, tte, vol, pdf),
                          Vega(m, spot, tte, pdf))
  {
    var root := m.sqrt(tte);
    NonZeroProduct(vol, root);
    NonZeroProduct(spot, vol * root);
    var g := Gamma(m, spot, tte, vol, pdf);
    GammaTimes(pdf, spot * (vol * root), g);
    DensityTerms(spot, vol, root, pdf, g);
    NegativeQuotient(spot, pdf, vol, 2.0 * root);
  }

  lemma {:induction false} GammaTimes(pdf: real, b: real, g: real)
    requires b != 0.0 && g == pdf / b
    ensures g * b == pdf
  {
  }

  lemma {:induction false} PartsAreConsistent(
    spot: real, vol: real, tte: real, rate: real, k: real, w1: real, w2: real, p: real, g: Greeks,
    gamma: real, decay: real, vega: real)
    requires p == Weighed(spot, k, w1, w2) && DensityAgrees(spot, vol, tte, gamma, decay, vega)
    requires MadeOf(g, Times(rate, k), Times(k, tte), w1, w2, gamma, decay, vega)
    ensures Consistent(spot, tte, rate, vol, p, g)
  {
    EquationHolds(spot, rate, k, tte, w1, w2, -decay, 0.5 * (vol * vol * (spot * spot) * gamma));
  }

  /** The Greeks are those of the price, for calls and puts. */
  lemma {:induction false} BlackScholesEquation(
    m: Maths, spot: real, strike: real, tte: real, rate: real, vol: real, kind: OptionType)
    requires m.Lawful() && spot > 0.0 && strike > 0.0 && tte > 0.0 && vol != 0.0
    ensures Consistent(spot, tte, rate, vol, BlackScholes(m, spot, strike, tte, rate, vol, kind).value,
                       GreeksOf(m, spot, strike, tte, rate, vol, kind).value)
  {
    var d1, d2 := D1(m, spot, strike, tte, rate, vol), D2(m, spot, strike, tte, rate, vol);
    var pdf := NormPdf(m, d1);
    PriceIsWeighed(m, spot, strike, tte, rate, vol, kind);
    GreeksAreMadeOf(m, spot, strike, tte, rate, vol, kind);
    DensityParts(m, spot, tte, vol, pdf);
    PartsAreConsistent(
      spot, vol, tte, rate, Discounted(m, strike, tte, rate), Weight(m, kind, d1), Weight(m, kind, d2),
      BlackScholes(m, spot, strike, tte, rate, vol, kind).value, GreeksOf(m, spot, strike, tte, rate, vol, kind).value,
      Gamma(m, spot, tte, vol, pdf), Decay(m, spot, tte, vol, pdf), Vega(m, spot, tte, pdf));
  }

  lemma {:induction false} EquationHolds(
    spot: real, rate: real, k: real, tte: real, w1: real, w2: real, decay: real, convexity: real)
    requires decay == convexity
    ensures (-decay - Times(rate, k) * w2) + rate * (spot * w1) + convexity == rate * (Times(spot, w1) - Times(k, w2))
    ensures Times(k, tte) * w2 == tte * (spot * w1 - (Times(spot, w1) - Times(k, w2)))
  {
  }

  /** The density is the bell curve, and the distribution is a little over one half at zero. */
  lemma {:induction false} NormalShape(m: Maths, x: real)
    requires m.Lawful()
    ensures NormPdf(m, x) * m.sqrt(6.283185307179586) == m.exp(-(x * x) / 2.0) && NormPdf(m, x) > 0.0
    ensures 0.5 < NormCdf(m, 0.0) < 0.5000001
  {
    assert 2.0 * 3.141592653589793 == 6.283185307179586 && -0.5 * (x * x) == -(x * x) / 2.0;
    QuotientTimes(m.exp(-0.5 * (x * x)), m.sqrt(6.283185307179586));
    var zero := 0.0;
    assert -(zero * zero) / 2.0 == 0.0 && 1.0 / (1.0 + 0.2316419 * Abs(zero)) == 1.0;
    assert Tail(m, zero) == 0.3989422804014327 * 1.0 * 1.0 *
      (0.319381530 + (-0.356563782 + (1.781477937 + (-1.821255978 + 1.330274429))));
  }
}
