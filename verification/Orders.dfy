/** What is sent to the broker: multi-leg orders in lowest terms
    (services/execution/broker/alpaca_options.py, services/execution/broker/options_base.py). */
module Orders {
  import opened Basics
  import opened Options
  import opened Strategies
  import opened TradingSchemas
  import opened Agent
  import InterleavedSafety
  import D = DefinedRisk

  datatype OptionOrderRequest = OptionOrderRequest(
    legs: seq<OptionContract>, sides: seq<OptionSide>, quantities: seq<int>, mleg: bool, clientOrderId: string)

  datatype LegRequest = LegRequest(symbol: string, buy: bool, ratio: int)

  datatype BrokerOrder =
    | Multi(qty: int, legs: seq<LegRequest>, clientOrderId: string)
    | Single(symbol: string, qty: int, buy: bool, clientOrderId: string)

  function Size(x: int): nat { if x >= 0 then x else -x }

  function Gcd(a: nat, b: nat): nat
    decreases b
  {
    if b == 0 then a else Gcd(b, a % b)
  }

  /** The greatest common divisor of a list, signs ignored; of no numbers or all zeros, zero. */
  function GcdAll(qs: seq<int>): nat { if qs == [] then 0 else Gcd(Size(qs[0]), GcdAll(qs[1..])) }

  function Unit(qs: seq<int>): Pos { var g := GcdAll(qs); if g == 0 then 1 else g }

  function Ratios(qs: seq<int>): seq<int> { seq(|qs|, i requires 0 <= i < |qs| => qs[i] / Unit(qs)) }

  predicate IsBuy(side: OptionSide) { side.BuyToOpen? || side.BuyToClose? }

  function Shortest(r: OptionOrderRequest): nat {
    var n := if |r.legs| <= |r.sides| then |r.legs| else |r.sides|;
    if n <= |r.quantities| then n else |r.quantities|
  }

  /** The order submitted, or none where the code raises for want of a first leg, side or quantity. */
  function Submitted(r: OptionOrderRequest): Option<BrokerOrder> {
    if r.mleg && |r.legs| > 1 then
      var ratios := Ratios(r.quantities);
      Some(Multi(Unit(r.quantities),
                 seq(Shortest(r), i requires 0 <= i < Shortest(r) =>
                       LegRequest(r.legs[i].symbol, IsBuy(r.sides[i]), ratios[i])),
                 r.clientOrderId))
    else if r.legs == [] || r.sides == [] || r.quantities == [] then None
    else Some(Single(r.legs[0].symbol, r.quantities[0], IsBuy(r.sides[0]), r.clientOrderId))
  }

  function OrderFor(strategy: OptionStrategy, decisionId: string): OptionOrderRequest {
    var n := |strategy.legs|;
    OptionOrderRequest(
      seq(n, i requires 0 <= i < n => strategy.legs[i].contract),
      seq(n, i requires 0 <= i < n => strategy.legs[i].side),
      seq(n, i requires 0 <= i < n => strategy.legs[i].quantity),
      n > 1, "agnostix-" + decisionId)
  }

  // ---- divisors --------------------------------------------------------------

  function Product(a: int, b: int): int { a * b }

  ghost predicate Divides(d: int, x: int) { exists k: int :: Product(d, k) == x }

  lemma {:induction false} DividesSum(d: int, x: int, y: int, m: int)
    requires Divides(d, x) && Divides(d, y)
    ensures Divides(d, x + m * y)
  {
    var i :| Product(d, i) == x;
    var j :| Product(d, j) == y;
    assert Product(d, i + m * j) == x + m * y by {
      assert d * (i + m * j) == d * i + m * (d * j);
    }
  }

  /** Euclid's function is a common divisor, and every common divisor divides it. */
  lemma {:induction false} GcdDivides(a: nat, b: nat)
    ensures Divides(Gcd(a, b), a) && Divides(Gcd(a, b), b)
    decreases b
  {
    var g := Gcd(a, b);
    if b == 0 {
      assert Product(a, 1) == a && Product(a, 0) == b;
    } else {
      GcdDivides(b, a % b);
      DividesSum(g, a % b, b, a / b);
      assert a % b + (a / b) * b == a;
    }
  }

  lemma {:induction false} GcdGreatest(a: nat, b: nat, d: int)
    requires Divides(d, a) && Divides(d, b)
    ensures Divides(d, Gcd(a, b))
    decreases b
  {
    if b > 0 {
      DividesSum(d, a, b, -(a / b));
      assert a + (-(a / b)) * b == a % b;
      GcdGreatest(b, a % b, d);
    }
  }

  lemma {:induction false} DividesTransitive(c: int, d: int, x: int)
    requires Divides(c, d) && Divides(d, x)
    ensures Divides(c, x)
  {
    var i :| Product(c, i) == d;
    var j :| Product(d, j) == x;
    assert Product(c, i * j) == x by { assert c * (i * j) == (c * i) * j; }
  }

  lemma {:induction false} DividesSize(d: int, x: int)
    ensures Divides(d, Size(x)) <==> Divides(d, x)
  {
    if Divides(d, x) { var k :| Product(d, k) == x; assert Product(d, -k) == -x; }
    if Divides(d, Size(x)) { var k :| Product(d, k) == Size(x); assert Product(d, -k) == -(Size(x) as int); }
  }

  lemma {:induction false} GcdAllDivides(qs: seq<int>, i: nat)
    requires i < |qs|
    ensures Divides(GcdAll(qs), qs[i])
    decreases qs
  {
    var rest := GcdAll(qs[1..]);
    GcdDivides(Size(qs[0]), rest);
    if i == 0 {
      DividesSize(GcdAll(qs), qs[0]);
    } else {
      GcdAllDivides(qs[1..], i - 1);
      DividesTransitive(GcdAll(qs), rest, qs[i]);
    }
  }

  lemma {:induction false} GcdAllGreatest(qs: seq<int>, d: int)
    requires forall i :: 0 <= i < |qs| ==> Divides(d, qs[i])
    ensures Divides(d, GcdAll(qs))
    decreases qs
  {
    if qs == [] {
      assert Product(d, 0) == 0;
    } else {
      forall i | 0 <= i < |qs[1..]| ensures Divides(d, qs[1..][i]) { assert qs[1..][i] == qs[i + 1]; }
      GcdAllGreatest(qs[1..], d);
      DividesSize(d, qs[0]);
      GcdGreatest(Size(qs[0]), GcdAll(qs[1..]), d);
    }
  }

  lemma {:induction false} ZeroDividesZero(x: int)
    requires Divides(0, x)
    ensures x == 0
  {
  }

  // ---- the reduction ---------------------------------------------------------

  /** A multiple of a positive number is at least that number in size, or zero. */
  lemma {:induction false} MultipleIsLarge(g: Pos, n: int)
    ensures n >= 1 ==> Product(g, n) >= g
    ensures n <= -1 ==> Product(g, n) + g <= 0
  {
    if n >= 1 { assert g * (n - 1) >= 0; }
    if n <= -1 { assert g * (-n - 1) >= 0; }
  }

  lemma {:induction false} ExactQuotient(g: Pos, k: int)
    ensures Product(g, k) / g == k
  {
    var x := Product(g, k);
    var q, r := x / g, x % g;
    assert x == g * q + r;
    assert Product(g, k - q) == r;
    MultipleIsLarge(g, k - q);
  }

  /** No contract is lost: each ratio times the unit is the quantity asked for. */
  lemma {:induction false} RatiosRestore(qs: seq<int>, i: nat)
    requires i < |qs|
    ensures Product(Unit(qs), Ratios(qs)[i]) == qs[i]
  {
    GcdAllDivides(qs, i);
    var g := GcdAll(qs);
    if g == 0 {
      ZeroDividesZero(qs[i]);
    } else {
      var k :| Product(g, k) == qs[i];
      ExactQuotient(g, k);
    }
  }

  lemma {:induction false} ZeroGcd(qs: seq<int>)
    ensures GcdAll(qs) == 0 <==> forall i :: 0 <= i < |qs| ==> qs[i] == 0
  {
    if GcdAll(qs) == 0 {
      forall i | 0 <= i < |qs| ensures qs[i] == 0 {
        GcdAllDivides(qs, i);
        ZeroDividesZero(qs[i]);
      }
    }
    if forall i :: 0 <= i < |qs| ==> qs[i] == 0 {
      forall i | 0 <= i < |qs| ensures Divides(0, qs[i]) { assert Product(0, 0) == qs[i]; }
      GcdAllGreatest(qs, 0);
      ZeroDividesZero(GcdAll(qs));
    }
  }

  lemma {:induction false} ScaledDivides(g: int, d: int, x: int)
    requires Divides(d, x)
    ensures Divides(Product(g, d), Product(g, x))
  {
    var k :| Product(d, k) == x;
    assert Product(Product(g, d), k) == Product(g, x) by { assert (g * d) * k == g * (d * k); }
  }

  lemma {:induction false} OnlyUnits(g: Pos, d: nat)
    requires Divides(Product(g, d), g)
    ensures d == 1
  {
    var k :| Product(Product(g, d), k) == g;
    assert Product(g, d * k - 1) == 0 by { assert (g * d) * k == g * (d * k); }
    MultipleIsLarge(g, d * k - 1);
    if d > 0 { MultipleIsLarge(d, k); }
  }

  /** The ratios are in lowest terms, unless every quantity is zero. */
  lemma {:induction false} RatiosAreCoprime(qs: seq<int>)
    ensures GcdAll(Ratios(qs)) == 1 <==> exists i :: 0 <= i < |qs| && qs[i] != 0
  {
    var g, rs := GcdAll(qs), Ratios(qs);
    ZeroGcd(qs);
    if g == 0 {
      forall i | 0 <= i < |rs| ensures rs[i] == 0 { assert qs[i] == 0 && Unit(qs) == 1; }
      ZeroGcd(rs);
    } else {
      forall i | 0 <= i < |qs| ensures Divides(Product(g, GcdAll(rs)), qs[i]) {
        GcdAllDivides(rs, i);
        RatiosRestore(qs, i);
        ScaledDivides(g, GcdAll(rs), rs[i]);
      }
      GcdAllGreatest(qs, Product(g, GcdAll(rs)));
      OnlyUnits(g, GcdAll(rs));
    }
  }

  /** Leg by leg, the order asks for the contract, the side and the number of contracts requested;
      multi-leg ratios are in lowest terms unless every quantity is zero. */
  lemma {:induction false} SubmissionConserves(r: OptionOrderRequest)
    requires |r.legs| == |r.sides| == |r.quantities|
    ensures Submitted(r).None? <==> r.legs == []
    ensures Submitted(r).Some? ==>
              var o := Submitted(r).value;
              if r.mleg && |r.legs| > 1 then
                && o.Multi? && |o.legs| == |r.legs| && o.qty >= 1
                && (forall i :: 0 <= i < |r.legs| ==>
                      && o.legs[i].symbol == r.legs[i].symbol
                      && (o.legs[i].buy <==> r.sides[i].BuyToOpen? || r.sides[i].BuyToClose?)
                      && o.qty * o.legs[i].ratio == r.quantities[i])
                && o.clientOrderId == r.clientOrderId
                && (GcdAll(seq(|o.legs|, i requires 0 <= i < |o.legs| => o.legs[i].ratio)) == 1
                    <==> exists i :: 0 <= i < |r.quantities| && r.quantities[i] != 0)
              else
                && o.Single? && o.symbol == r.legs[0].symbol && o.qty == r.quantities[0]
                && (o.buy <==> r.sides[0].BuyToOpen? || r.sides[0].BuyToClose?) && o.clientOrderId == r.clientOrderId
  {
    if r.mleg && |r.legs| > 1 {
      var o := Submitted(r).value;
      assert seq(|o.legs|, i requires 0 <= i < |o.legs| => o.legs[i].ratio) == Ratios(r.quantities);
      RatiosAreCoprime(r.quantities);
      forall i | 0 <= i < |r.legs| ensures o.qty * o.legs[i].ratio == r.quantities[i] {
        RatiosRestore(r.quantities, i);
        assert Product(o.qty, o.legs[i].ratio) == o.qty * o.legs[i].ratio;
      }
    }
  }

  // ---- orders the desk can make ----------------------------------------------

  lemma {:induction false} UniformGcd(qs: seq<int>, q: Pos)
    requires qs != [] && forall i :: 0 <= i < |qs| ==> qs[i] == q
    ensures GcdAll(qs) == q
    decreases qs
  {
    var rest := qs[1..];
    if rest != [] { UniformGcd(rest, q); }
    assert q % q == 0;
    assert Gcd(q, 0) == q && Gcd(q, q) == Gcd(q, 0);
    assert GcdAll(qs) == Gcd(q, GcdAll(rest));
  }

  lemma {:induction false} UniformUnit(qs: seq<int>, q: Pos)
    requires qs != [] && forall i :: 0 <= i < |qs| ==> qs[i] == q
    ensures Unit(qs) == q && forall i :: 0 <= i < |qs| ==> Ratios(qs)[i] == 1
  {
    UniformGcd(qs, q);
    assert q / q == 1;
  }

  ghost predicate Sized(legs: seq<OptionLeg>, q: Pos) { forall i :: 0 <= i < |legs| ==> legs[i].quantity == q }

  lemma {:induction false} ResizeSizes(legs: seq<OptionLeg>, q: Pos)
    ensures Sized(Resize(legs, q), q)
    ensures forall i :: 0 <= i < |legs| ==>
              Resize(legs, q)[i].contract == legs[i].contract && Resize(legs, q)[i].side == legs[i].side
  {
    if legs != [] { ResizeSizes(legs[1..], q); }
  }

  lemma {:induction false} PutSizes(u: string, chain: OptionChain, now: int, delta: real, width: nat, q: Pos)
    ensures var built := BullPutSpread(u, chain.expiration, now, chain.puts, delta, width, q);
            built.Some? ==> Sized(built.value.legs, q) && |built.value.legs| == 2
  {
  }

  lemma {:induction false} CallSizes(u: string, chain: OptionChain, now: int, delta: real, width: nat, q: Pos)
    ensures var built := BearCallSpread(u, chain.expiration, now, chain.calls, delta, width, q);
            built.Some? ==> Sized(built.value.legs, q) && |built.value.legs| == 2
  {
  }

  lemma {:induction false} BuiltSizes(
    direction: string, u: string, chain: OptionChain, now: int, delta: real, width: nat, q: Pos)
    ensures var built := BuildStrategy(direction, u, chain.expiration, now, chain.calls, chain.puts, delta, width, q);
            built.Some? ==> Sized(built.value.legs, q) && (|built.value.legs| == 2 || |built.value.legs| == 4)
  {
    PutSizes(u, chain, now, delta, width, q);
    CallSizes(u, chain, now, delta, width, q);
  }

  /** Whatever the desk proposes goes out as one multi-leg order for exactly the sized number of
      units, one contract of each leg to the unit. */
  lemma {:induction false} DeskOrdersAreOneToOne(
    cfg: AgentConfig, a: AccountSnapshot, d: AgentDecision, market: Market, signal: Option<Signal>, now: int)
    requires Propose(cfg, a, d, market, signal, now).Continue?
    ensures var p := Propose(cfg, a, d, market, signal, now).decision;
            var s := p.strategy.value;
            var o := Submitted(OrderFor(s, p.decisionId));
            var chain := market.chain.value;
            var built := BuildStrategy(DirectionName(signal.value.direction), d.symbol, chain.expiration, now,
                                       chain.calls, chain.puts, SHORT_DELTA, 1, 1).value;
            && o.Some? && o.value.Multi? && |o.value.legs| == |s.legs|
            && o.value.qty == SizeFor(cfg, a.equity, built.maxLoss)
            && o.value.clientOrderId == "agnostix-" + p.decisionId
            && forall i :: 0 <= i < |s.legs| ==>
                 && o.value.legs[i].symbol == built.legs[i].contract.symbol && o.value.legs[i].ratio == 1
                 && (o.value.legs[i].buy <==> built.legs[i].side == BuyToOpen)
  {
    InterleavedSafety.ProposalIsConstructed(cfg, a, d, market, signal, now);
    var p := Propose(cfg, a, d, market, signal, now).decision;
    var chain := market.chain.value;
    var built := BuildStrategy(DirectionName(signal.value.direction), d.symbol, chain.expiration, now,
                               chain.calls, chain.puts, SHORT_DELTA, 1, 1).value;
    var q := SizeFor(cfg, a.equity, built.maxLoss);
    BuiltSizes(DirectionName(signal.value.direction), d.symbol, chain, now, SHORT_DELTA, 1, 1);
    BuiltOpens(DirectionName(signal.value.direction), d.symbol, chain, now, SHORT_DELTA, 1, 1);
    ScaledOrder(built, q, p.decisionId);
  }

  /** Built strategies only open positions. */
  lemma {:induction false} BuiltOpens(
    direction: string, u: string, chain: OptionChain, now: int, delta: real, width: nat, q: Pos)
    ensures var built := BuildStrategy(direction, u, chain.expiration, now, chain.calls, chain.puts, delta, width, q);
            built.Some? ==> forall i :: 0 <= i < |built.value.legs| ==>
              built.value.legs[i].side == BuyToOpen || built.value.legs[i].side == SellToOpen
  {
    PutOpens(u, chain, now, delta, width, q);
    CallOpens(u, chain, now, delta, width, q);
  }

  lemma {:induction false} PutOpens(u: string, chain: OptionChain, now: int, delta: real, width: nat, q: Pos)
    ensures var built := BullPutSpread(u, chain.expiration, now, chain.puts, delta, width, q);
            built.Some? ==> forall i :: 0 <= i < |built.value.legs| ==>
              built.value.legs[i].side == BuyToOpen || built.value.legs[i].side == SellToOpen
  {
  }

  lemma {:induction false} CallOpens(u: string, chain: OptionChain, now: int, delta: real, width: nat, q: Pos)
    ensures var built := BearCallSpread(u, chain.expiration, now, chain.calls, delta, width, q);
            built.Some? ==> forall i :: 0 <= i < |built.value.legs| ==>
              built.value.legs[i].side == BuyToOpen || built.value.legs[i].side == SellToOpen
  {
  }

  lemma {:induction false} ScaledOrder(built: OptionStrategy, q: Pos, decisionId: string)
    requires Sized(built.legs, 1) && |built.legs| > 1
    ensures var s := ScaleStrategy(built, q);
            var o := Submitted(OrderFor(s, decisionId));
            && |s.legs| == |built.legs| && o.Some? && o.value.Multi? && o.value.qty == q && |o.value.legs| == |s.legs|
            && o.value.clientOrderId == "agnostix-" + decisionId
            && forall i :: 0 <= i < |s.legs| ==>
                 o.value.legs[i] == LegRequest(built.legs[i].contract.symbol, IsBuy(built.legs[i].side), 1)
  {
    ResizeSizes(built.legs, q);
    var s := ScaleStrategy(built, q);
    assert Sized(s.legs, q);
    UniformUnit(OrderFor(s, decisionId).quantities, q);
  }

  // ---- what was traded -------------------------------------------------------

  /** Contract symbols identify their contracts. */
  ghost predicate Names(terms: string -> OptionContract, legs: seq<OptionLeg>) {
    forall i :: 0 <= i < |legs| ==> terms(legs[i].contract.symbol) == legs[i].contract
  }

  /** Expiry value of a number of contracts of one symbol, owned if bought and owed if sold. */
  ghost function TradePayoff(
    terms: string -> OptionContract, symbol: string, buy: bool, contracts: int, spot: real): real
  {
    var c := terms(symbol);
    var worth := 100.0 * contracts as real * (
      if c.optionType.Call? then Max(spot - c.strike, 0.0) else Max(c.strike - spot, 0.0));
    if buy then worth else -worth
  }

  ghost function RequestsPayoff(terms: string -> OptionContract, qty: int, legs: seq<LegRequest>, spot: real): real {
    if legs == [] then 0.0
    else TradePayoff(terms, legs[0].symbol, legs[0].buy, qty * legs[0].ratio, spot)
         + RequestsPayoff(terms, qty, legs[1..], spot)
  }

  /** Expiry value of an order as the broker fills it. */
  ghost function OrderPayoff(terms: string -> OptionContract, o: BrokerOrder, spot: real): real {
    match o
    case Multi(qty, legs, _) => RequestsPayoff(terms, qty, legs, spot)
    case Single(symbol, qty, buy, _) => TradePayoff(terms, symbol, buy, qty, spot)
  }

  lemma {:induction false} TradeIsLeg(terms: string -> OptionContract, leg: OptionLeg, buy: bool, spot: real)
    requires terms(leg.contract.symbol) == leg.contract && (buy <==> leg.side.BuyToOpen? || leg.side.BuyToClose?)
    ensures TradePayoff(terms, leg.contract.symbol, buy, leg.quantity, spot) == D.LegPayoff(leg, spot)
  {
    var value := D.Intrinsic(leg.contract.optionType, leg.contract.strike, spot);
    assert 100.0 * leg.quantity as real * value == value * 100.0 * leg.quantity as real;
  }

  lemma {:induction false} RequestsAreLegs(
    terms: string -> OptionContract, qty: int, requests: seq<LegRequest>, legs: seq<OptionLeg>, spot: real)
    requires Names(terms, legs) && |requests| == |legs|
    requires forall i :: 0 <= i < |legs| ==>
               && requests[i].symbol == legs[i].contract.symbol && qty * requests[i].ratio == legs[i].quantity
               && (requests[i].buy <==> legs[i].side.BuyToOpen? || legs[i].side.BuyToClose?)
    ensures RequestsPayoff(terms, qty, requests, spot) == D.LegsPayoff(legs, spot)
  {
    if legs != [] {
      TradeIsLeg(terms, legs[0], requests[0].buy, spot);
      RequestsAreLegs(terms, qty, requests[1..], legs[1..], spot);
    }
  }

  /** The order sent is the strategy judged: at every terminal price it is worth what the strategy's
      legs are worth. */
  lemma {:induction false} OrderIsTheStrategy(
    s: OptionStrategy, decisionId: string, terms: string -> OptionContract, spot: real)
    requires s.legs != [] && Names(terms, s.legs)
    ensures var o := Submitted(OrderFor(s, decisionId));
            o.Some? && OrderPayoff(terms, o.value, spot) == D.LegsPayoff(s.legs, spot)
  {
    var r := OrderFor(s, decisionId);
    SubmissionConserves(r);
    var o := Submitted(r).value;
    if |s.legs| > 1 {
      RequestsAreLegs(terms, o.qty, o.legs, s.legs, spot);
    } else {
      TradeIsLeg(terms, s.legs[0], o.buy, spot);
      assert s.legs[1..] == [];
    }
  }

  /** So the defined risk is that of the trade: with the reported profit as the cash received, the order
      for whatever the desk proposes ends within the reported loss and profit. */
  lemma {:induction false} TradedRiskIsDefined(
    cfg: AgentConfig, a: AccountSnapshot, d: AgentDecision, market: Market, signal: Option<Signal>, now: int,
    terms: string -> OptionContract, spot: real)
    requires Propose(cfg, a, d, market, signal, now).Continue? && !d.status.Executed?
    requires Names(terms, Propose(cfg, a, d, market, signal, now).decision.strategy.value.legs)
    ensures var p := Propose(cfg, a, d, market, signal, now).decision;
            var s := p.strategy.value;
            var o := Submitted(OrderFor(s, p.decisionId));
            && o.Some? && s.maxLoss.Some? && s.maxProfit.Some?
            && -s.maxLoss.value <= s.maxProfit.value + OrderPayoff(terms, o.value, spot) <= s.maxProfit.value
  {
    DeskOrdersAreOneToOne(cfg, a, d, market, signal, now);
    InterleavedSafety.ProposeShape(cfg, a, d, market, signal, now);
    var p := Propose(cfg, a, d, market, signal, now).decision;
    OrderIsTheStrategy(p.strategy.value, p.decisionId, terms, spot);
    assert D.RiskIsDefined(p.strategy.value, spot);
  }
}
