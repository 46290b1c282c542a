/** What a built strategy is worth at expiry, and how that compares with its reported risk numbers. */
module DefinedRisk {
  import opened Basics
  import opened Options
  import opened Strategies

  function Intrinsic(kind: OptionType, strike: real, spot: real): real {
    if kind.Call? then Max(spot - strike, 0.0) else Max(strike - spot, 0.0)
  }

  /** Value of one leg at expiry: owed by a seller, owned by a buyer. */
  function LegPayoff(leg: OptionLeg, spot: real): real {
    var worth := Dollars(Intrinsic(leg.contract.optionType, leg.contract.strike, spot), leg.quantity);
    if leg.side.BuyToOpen? || leg.side.BuyToClose? then worth else -worth
  }

  function LegsPayoff(legs: seq<OptionLeg>, spot: real): real {
    if legs == [] then 0.0 else LegPayoff(legs[0], spot) + LegsPayoff(legs[1..], spot)
  }

  /** Profit or loss at expiry when the reported credit is the cash received. */
  function ExpiryPnl(strategy: OptionStrategy, spot: real): real {
    OrZero(strategy.maxProfit) + LegsPayoff(strategy.legs, spot)
  }

  /** Signed cash of trading every leg at its recorded mid price. */
  function MidCash(legs: seq<OptionLeg>): real {
    if legs == [] then 0.0 else
      var price := Dollars(legs[0].theoretical, legs[0].quantity);
      (if legs[0].side.SellToOpen? || legs[0].side.SellToClose? then price else -price) + MidCash(legs[1..])
  }

  /** Profit or loss at expiry when every leg trades at its mid price. */
  function MidPnl(strategy: OptionStrategy, spot: real): real {
    MidCash(strategy.legs) + LegsPayoff(strategy.legs, spot)
  }

  // ---- one vertical spread -------------------------------------------------

  /** Distance from the short strike to the protecting long strike. */
  function Width(kind: OptionType, short: real, long: real): real {
    if kind.Put? then short - long else long - short
  }

  /** A one-for-one credit spread whose numbers are the builder's. */
  ghost predicate IsVertical(s: OptionStrategy, kind: OptionType, quantity: Pos) {
    && |s.legs| == 2
    && s.legs[0].side == SellToOpen && s.legs[1].side == BuyToOpen
    && s.legs[0].quantity == s.legs[1].quantity == quantity
    && s.legs[0].contract.optionType == s.legs[1].contract.optionType == kind
    && SpreadWidth(s, kind) >= 0.0
    && s.netCredit.Some? && s.netCredit.value == Max(NetMid(s), 0.0)
    && s.maxProfit.Some? && s.maxProfit.value == Dollars(s.netCredit.value, quantity)
    && s.maxLoss.Some?
    && s.maxLoss.value == Dollars(SpreadWidth(s, kind), quantity) - Dollars(s.netCredit.value, quantity)
    && s.breakEven == [if kind.Put? then s.legs[0].contract.strike - s.netCredit.value
                       else s.legs[0].contract.strike + s.netCredit.value]
  }

  ghost function NetMid(s: OptionStrategy): real
    requires |s.legs| >= 2
  {
    s.legs[0].theoretical - s.legs[1].theoretical
  }

  ghost function SpreadWidth(s: OptionStrategy, kind: OptionType): real
    requires |s.legs| >= 2
  {
    Width(kind, s.legs[0].contract.strike, s.legs[1].contract.strike)
  }

  /** Per-share value of a vertical: worth nothing at the short strike, minus the width beyond the long one. */
  ghost function UnitPayoff(s: OptionStrategy, kind: OptionType, spot: real): real
    requires |s.legs| >= 2
  {
    Intrinsic(kind, s.legs[1].contract.strike, spot) - Intrinsic(kind, s.legs[0].contract.strike, spot)
  }

  lemma {:induction false} SpreadIsVertical(
    name: string, u: string, kind: OptionType, e: int, now: int, short: OptionQuote, long: OptionQuote, q: Pos)
    requires short.delta.Some? && Width(kind, short.strike, long.strike) >= 0.0
    ensures IsVertical(Spread(name, u, kind, e, now, short, long, Width(kind, short.strike, long.strike), q), kind, q)
  {
    var s := Spread(name, u, kind, e, now, short, long, Width(kind, short.strike, long.strike), q);
    var credit := Max(OrZero(Mid(short)) - OrZero(Mid(long)), 0.0);
    assert s.netCredit.value == credit && s.maxProfit.value == Dollars(credit, q);
  }

  lemma {:induction false} BullPutIsVertical(
    u: string, e: int, now: int, puts: seq<OptionQuote>, d: real, w: nat, q: Pos)
    requires BullPutSpread(u, e, now, puts, d, w, q).Some?
    ensures IsVertical(BullPutSpread(u, e, now, puts, d, w, q).value, Put, q)
  {
    var (short, long) := PutPair(puts, d, w).value;
    SpreadIsVertical("bull_put_spread", u, Put, e, now, short, long, q);
  }

  lemma {:induction false} BearCallIsVertical(
    u: string, e: int, now: int, calls: seq<OptionQuote>, d: real, w: nat, q: Pos)
    requires BearCallSpread(u, e, now, calls, d, w, q).Some?
    ensures IsVertical(BearCallSpread(u, e, now, calls, d, w, q).value, Call, q)
  {
    var (short, long) := CallPair(calls, d, w).value;
    SpreadIsVertical("bear_call_spread", u, Call, e, now, short, long, q);
  }

  lemma {:induction false} VerticalPayoff(s: OptionStrategy, kind: OptionType, q: Pos, spot: real)
    requires IsVertical(s, kind, q)
    ensures LegsPayoff(s.legs, spot) == Dollars(UnitPayoff(s, kind, spot), q)
    ensures MidCash(s.legs) == Dollars(NetMid(s), q)
    ensures -SpreadWidth(s, kind) <= UnitPayoff(s, kind, spot) <= 0.0
  {
    assert s.legs == [s.legs[0], s.legs[1]];
    assert s.legs[1..] == [s.legs[1]];
    assert LegsPayoff(s.legs[1..], spot) == LegPayoff(s.legs[1], spot) + LegsPayoff(s.legs[1..][1..], spot);
    assert MidCash(s.legs[1..]) == -Dollars(s.legs[1].theoretical, q) + MidCash(s.legs[1..][1..]);
    DollarsSum(Intrinsic(kind, s.legs[1].contract.strike, spot), Intrinsic(kind, s.legs[0].contract.strike, spot), q);
    DollarsSum(s.legs[0].theoretical, s.legs[1].theoretical, q);
  }

  lemma {:induction false} VerticalBounds(s: OptionStrategy, kind: OptionType, q: Pos, spot: real)
    requires IsVertical(s, kind, q)
    ensures -s.maxLoss.value <= ExpiryPnl(s, spot) <= s.maxProfit.value
  {
    VerticalPayoff(s, kind, q, spot);
    DollarsOrder(-SpreadWidth(s, kind), UnitPayoff(s, kind, spot), q);
    DollarsOrder(UnitPayoff(s, kind, spot), 0.0, q);
    DollarsSum(0.0, SpreadWidth(s, kind), q);
  }

  /** Both reported extremes happen: the loss at the long strike, the profit at the short strike. */
  lemma {:induction false} VerticalAttains(s: OptionStrategy, kind: OptionType, q: Pos)
    requires IsVertical(s, kind, q)
    ensures ExpiryPnl(s, s.legs[1].contract.strike) == -s.maxLoss.value
    ensures ExpiryPnl(s, s.legs[0].contract.strike) == s.maxProfit.value
  {
    VerticalPayoff(s, kind, q, s.legs[1].contract.strike);
    VerticalPayoff(s, kind, q, s.legs[0].contract.strike);
    DollarsSum(0.0, SpreadWidth(s, kind), q);
  }

  /** The break-even is where profit is zero exactly when the strategy passes as defined risk. */
  lemma {:induction false} VerticalBreakEven(s: OptionStrategy, kind: OptionType, q: Pos)
    requires IsVertical(s, kind, q)
    ensures ExpiryPnl(s, s.breakEven[0]) == 0.0 <==> s.DefinedRisk()
  {
    var c, w := s.netCredit.value, SpreadWidth(s, kind);
    VerticalPayoff(s, kind, q, s.breakEven[0]);
    assert UnitPayoff(s, kind, s.breakEven[0]) == -Min(c, w);
    DollarsSum(c, -Min(c, w), q);
    DollarsOrder(c - Min(c, w), 0.0, q);
    DollarsOrder(c, w, q);
    DollarsSum(0.0, 0.0, q);
  }

  /** A debit hidden by clamping the credit at zero, per share. */
  ghost function Debit(s: OptionStrategy): real
    requires |s.legs| >= 2
  {
    Max(-NetMid(s), 0.0)
  }

  lemma {:induction false} MidGap(s: OptionStrategy, kind: OptionType, q: Pos, spot: real)
    requires IsVertical(s, kind, q)
    ensures MidPnl(s, spot) == ExpiryPnl(s, spot) - Dollars(Debit(s), q)
  {
    VerticalPayoff(s, kind, q, spot);
    DollarsSum(s.netCredit.value, Debit(s), q);
    assert NetMid(s) == s.netCredit.value - Debit(s);
  }

  /** At mid prices the reported loss is a true bound exactly when the short leg is worth
      at least the long one, so that no debit was clamped away. */
  lemma {:induction false} VerticalLossAtMids(s: OptionStrategy, kind: OptionType, q: Pos)
    requires IsVertical(s, kind, q)
    ensures (forall spot: real :: 0.0 <= spot ==> -s.maxLoss.value <= MidPnl(s, spot))
            <==> s.legs[0].theoretical >= s.legs[1].theoretical
  {
    var worst: real := s.legs[1].contract.strike;
    DollarsOrder(Debit(s), 0.0, q);
    DollarsSum(0.0, 0.0, q);
    VerticalAttains(s, kind, q);
    MidGap(s, kind, q, worst);
    if NetMid(s) < 0.0 {
      assert 0.0 <= worst && MidPnl(s, worst) < -s.maxLoss.value;
    } else {
      forall spot: real | 0.0 <= spot ensures -s.maxLoss.value <= MidPnl(s, spot) {
        MidGap(s, kind, q, spot);
        VerticalBounds(s, kind, q, spot);
      }
    }
  }

  // ---- the iron condor -----------------------------------------------------

  lemma {:induction false} PayoffConcat(a: seq<OptionLeg>, b: seq<OptionLeg>, spot: real)
    ensures LegsPayoff(a + b, spot) == LegsPayoff(a, spot) + LegsPayoff(b, spot)
    ensures MidCash(a + b) == MidCash(a) + MidCash(b)
  {
    if a == [] {
      assert a + b == b;
    } else {
      assert (a + b)[1..] == a[1..] + b;
      PayoffConcat(a[1..], b, spot);
    }
  }

  /** A condor is worth its put side plus its call side. */
  lemma {:induction false} CondorPnl(
    put: OptionStrategy, call: OptionStrategy, u: string, e: int, now: int, q: Pos, spot: real)
    requires IsVertical(put, Put, q) && IsVertical(call, Call, q)
    ensures ExpiryPnl(Combine(put, call, u, e, now), spot) == ExpiryPnl(put, spot) + ExpiryPnl(call, spot)
    ensures MidPnl(Combine(put, call, u, e, now), spot) == MidPnl(put, spot) + MidPnl(call, spot)
  {
    PayoffConcat(put.legs, call.legs, spot);
  }

  // ---- every built strategy ------------------------------------------------

  /** Within its reported bounds at one terminal price. */
  ghost predicate RiskIsDefined(s: OptionStrategy, spot: real) {
    s.maxLoss.Some? && s.maxProfit.Some? && -s.maxLoss.value <= ExpiryPnl(s, spot) <= s.maxProfit.value
  }

  /** Within its reported bounds wherever the underlying ends. */
  ghost predicate Honest(s: OptionStrategy) { forall spot: real :: RiskIsDefined(s, spot) }

  lemma {:induction false} BuiltRiskIsDefined(
    direction: string, u: string, e: int, now: int, calls: seq<OptionQuote>, puts: seq<OptionQuote>,
    d: real, w: nat, q: Pos, spot: real)
    requires BuildStrategy(direction, u, e, now, calls, puts, d, w, q).Some?
    ensures RiskIsDefined(BuildStrategy(direction, u, e, now, calls, puts, d, w, q).value, spot)
  {
    if direction != "bearish" {
      BullPutIsVertical(u, e, now, puts, d, w, q);
      VerticalBounds(BullPutSpread(u, e, now, puts, d, w, q).value, Put, q, spot);
    }
    if direction != "bullish" {
      BearCallIsVertical(u, e, now, calls, d, w, q);
      VerticalBounds(BearCallSpread(u, e, now, calls, d, w, q).value, Call, q, spot);
    }
    if direction != "bullish" && direction != "bearish" {
      CondorPnl(BullPutSpread(u, e, now, puts, d, w, q).value, BearCallSpread(u, e, now, calls, d, w, q).value,
                u, e, now, q, spot);
    }
  }

  /** Resizing after building equals building at the final size, except for the per-share credit. */
  ghost predicate SameButCredit(a: OptionStrategy, b: OptionStrategy) {
    && a.name == b.name && a.underlying == b.underlying && a.legs == b.legs && a.breakEven == b.breakEven
    && a.probabilityOfProfit == b.probabilityOfProfit && a.daysToExpiration == b.daysToExpiration
    && a.maxLoss.Some? && b.maxLoss.Some? && a.maxLoss.value == b.maxLoss.value
    && a.maxProfit.Some? && b.maxProfit.Some? && a.maxProfit.value == b.maxProfit.value
  }

  lemma {:induction false} SpreadScales(
    name: string, u: string, kind: OptionType, e: int, now: int,
    short: OptionQuote, long: OptionQuote, width: real, q: Pos)
    requires short.delta.Some?
    ensures SameButCredit(ScaleStrategy(Spread(name, u, kind, e, now, short, long, width, 1), q),
                          Spread(name, u, kind, e, now, short, long, width, q))
  {
    var one := Spread(name, u, kind, e, now, short, long, width, 1);
    var many := Spread(name, u, kind, e, now, short, long, width, q);
    var scaled := ScaleStrategy(one, q);
    var credit := one.netCredit.value;
    assert Resize(one.legs, q) == [one.legs[0].(quantity := q)] + Resize(one.legs[1..], q);
    assert Resize(one.legs[1..], q) == [one.legs[1].(quantity := q)];
    assert scaled.legs == many.legs;
    DollarsScale(width, q);
    DollarsScale(credit, q);
    MinusScales(Dollars(width, 1), Dollars(credit, 1), q as real);
    assert scaled.maxLoss.value == many.maxLoss.value && scaled.maxProfit.value == many.maxProfit.value;
  }

  lemma {:induction false} ResizeConcat(a: seq<OptionLeg>, b: seq<OptionLeg>, q: Pos)
    ensures Resize(a + b, q) == Resize(a, q) + Resize(b, q)
  {
    if a == [] {
      assert a + b == b;
    } else {
      assert (a + b)[1..] == a[1..] + b;
      ResizeConcat(a[1..], b, q);
    }
  }

  /** Both money fields are present and the credit does not depend on the size. */
  ghost predicate Priced(one: OptionStrategy, many: OptionStrategy) {
    && one.maxLoss.Some? && one.maxProfit.Some? && one.netCredit == many.netCredit
    && one.breakEven != [] && many.breakEven != []
  }

  lemma {:induction false} BullPutScales(u: string, e: int, now: int, puts: seq<OptionQuote>, d: real, w: nat, q: Pos)
    returns (one: OptionStrategy, many: OptionStrategy)
    requires BullPutSpread(u, e, now, puts, d, w, 1).Some?
    ensures BullPutSpread(u, e, now, puts, d, w, 1) == Some(one)
            && BullPutSpread(u, e, now, puts, d, w, q) == Some(many)
    ensures SameButCredit(ScaleStrategy(one, q), many) && Priced(one, many)
  {
    var (short, long) := PutPair(puts, d, w).value;
    one := BullPutSpread(u, e, now, puts, d, w, 1).value;
    many := BullPutSpread(u, e, now, puts, d, w, q).value;
    SpreadScales("bull_put_spread", u, Put, e, now, short, long, short.strike - long.strike, q);
  }

  lemma {:induction false} BearCallScales(u: string, e: int, now: int, calls: seq<OptionQuote>, d: real, w: nat, q: Pos)
    returns (one: OptionStrategy, many: OptionStrategy)
    requires BearCallSpread(u, e, now, calls, d, w, 1).Some?
    ensures BearCallSpread(u, e, now, calls, d, w, 1) == Some(one)
            && BearCallSpread(u, e, now, calls, d, w, q) == Some(many)
    ensures SameButCredit(ScaleStrategy(one, q), many) && Priced(one, many)
  {
    var (short, long) := CallPair(calls, d, w).value;
    one := BearCallSpread(u, e, now, calls, d, w, 1).value;
    many := BearCallSpread(u, e, now, calls, d, w, q).value;
    SpreadScales("bear_call_spread", u, Call, e, now, short, long, long.strike - short.strike, q);
  }

  lemma {:induction false} CombineScales(
    put: OptionStrategy, call: OptionStrategy, puts: OptionStrategy, calls: OptionStrategy,
    u: string, e: int, now: int, q: Pos)
    requires Priced(put, puts) && Priced(call, calls) && q != 1
    requires SameButCredit(ScaleStrategy(put, q), puts) && SameButCredit(ScaleStrategy(call, q), calls)
    ensures SameButCredit(ScaleStrategy(Combine(put, call, u, e, now), q), Combine(puts, calls, u, e, now))
  {
    ResizeConcat(put.legs, call.legs, q);
    AddScales(put.maxLoss.value, call.maxLoss.value, puts.maxLoss.value, calls.maxLoss.value, q as real);
    AddScales(put.maxProfit.value, call.maxProfit.value, puts.maxProfit.value, calls.maxProfit.value, q as real);
    var scaled, many := ScaleStrategy(Combine(put, call, u, e, now), q), Combine(puts, calls, u, e, now);
    assert scaled.maxLoss.value == many.maxLoss.value && scaled.maxProfit.value == many.maxProfit.value;
  }

  lemma {:induction false} CombinePriced(
    put: OptionStrategy, call: OptionStrategy, puts: OptionStrategy, calls: OptionStrategy, u: string, e: int, now: int)
    requires Priced(put, puts) && Priced(call, calls)
    ensures Priced(Combine(put, call, u, e, now), Combine(puts, calls, u, e, now))
  {
  }

  /** A condor that could be built is its two spreads combined. */
  lemma {:induction false} CondorParts(
    u: string, e: int, now: int, calls: seq<OptionQuote>, puts: seq<OptionQuote>, d: real, w: nat, q: Pos,
    put: OptionStrategy, call: OptionStrategy)
    requires BullPutSpread(u, e, now, puts, d, w, q) == Some(put) && put.breakEven != []
    requires BearCallSpread(u, e, now, calls, d, w, q) == Some(call) && call.breakEven != []
    ensures IronCondor(u, e, now, calls, puts, d, w, q) == Some(Combine(put, call, u, e, now))
  {
  }

  lemma {:induction false} MinusScales(a: real, b: real, q: real)
    ensures (a - b) * q == a * q - b * q
  {
  }

  lemma {:induction false} AddScales(a: real, b: real, aq: real, bq: real, q: real)
    requires a * q == aq && b * q == bq
    ensures (a + b) * q == aq + bq
  {
  }

  lemma {:induction false} IronCondorScales(
    u: string, e: int, now: int, calls: seq<OptionQuote>, puts: seq<OptionQuote>, d: real, w: nat, q: Pos)
    returns (one: OptionStrategy, many: OptionStrategy)
    requires IronCondor(u, e, now, calls, puts, d, w, 1).Some?
    ensures IronCondor(u, e, now, calls, puts, d, w, 1) == Some(one)
            && IronCondor(u, e, now, calls, puts, d, w, q) == Some(many)
    ensures SameButCredit(ScaleStrategy(one, q), many) && Priced(one, many)
  {
    var put, puts' := BullPutScales(u, e, now, puts, d, w, q);
    var call, calls' := BearCallScales(u, e, now, calls, d, w, q);
    one, many := Combine(put, call, u, e, now), Combine(puts', calls', u, e, now);
    CondorParts(u, e, now, calls, puts, d, w, 1, put, call);
    CondorParts(u, e, now, calls, puts, d, w, q, puts', calls');
    CombinePriced(put, call, puts', calls', u, e, now);
    if q != 1 { CombineScales(put, call, puts', calls', u, e, now, q); }
  }

  /** Scaling refines building, for every chain, direction and size. */
  lemma {:induction false} ScalingRefinesBuilding(
    direction: string, u: string, e: int, now: int, calls: seq<OptionQuote>, puts: seq<OptionQuote>,
    d: real, w: nat, q: Pos) returns (one: OptionStrategy, many: OptionStrategy)
    requires BuildStrategy(direction, u, e, now, calls, puts, d, w, 1).Some?
    ensures BuildStrategy(direction, u, e, now, calls, puts, d, w, 1) == Some(one)
    ensures BuildStrategy(direction, u, e, now, calls, puts, d, w, q) == Some(many)
    ensures SameButCredit(ScaleStrategy(one, q), many) && one.netCredit == many.netCredit
  {
    if direction == "bullish" {
      one, many := BullPutScales(u, e, now, puts, d, w, q);
    } else if direction == "bearish" {
      one, many := BearCallScales(u, e, now, calls, d, w, q);
    } else {
      one, many := IronCondorScales(u, e, now, calls, puts, d, w, q);
    }
  }

  /** The credit a resized strategy carries is the per-share credit of a built one exactly when
      it was not resized or there is no credit. */
  lemma {:induction false} ScaledCreditIsPerShare(
    direction: string, u: string, e: int, now: int, calls: seq<OptionQuote>, puts: seq<OptionQuote>,
    d: real, w: nat, q: Pos) returns (one: OptionStrategy, many: OptionStrategy)
    requires BuildStrategy(direction, u, e, now, calls, puts, d, w, 1).Some?
    ensures BuildStrategy(direction, u, e, now, calls, puts, d, w, 1) == Some(one)
    ensures BuildStrategy(direction, u, e, now, calls, puts, d, w, q) == Some(many)
    ensures OrZero(ScaleStrategy(one, q).netCredit) == OrZero(many.netCredit)
            <==> q == 1 || OrZero(one.netCredit) == 0.0
  {
    one, many := ScalingRefinesBuilding(direction, u, e, now, calls, puts, d, w, q);
    CreditScales(one, q);
  }

  lemma {:induction false} CreditScales(s: OptionStrategy, q: Pos)
    ensures OrZero(ScaleStrategy(s, q).netCredit) == OrZero(s.netCredit) <==> q == 1 || OrZero(s.netCredit) == 0.0
  {
    if OrZero(s.netCredit) != 0.0 && q != 1 { TimesChanges(OrZero(s.netCredit), q as real); }
  }

  lemma {:induction false} TimesChanges(x: real, k: real)
    requires x != 0.0 && k > 1.0
    ensures x * k != x
  {
    if x > 0.0 { assert x * (k - 1.0) > 0.0; } else { assert -x * (k - 1.0) > 0.0; }
  }

  /** Defined risk is real: whatever the chain and the size, the strategy the desk holds
      never loses more, nor gains more, than it reports. */
  lemma {:induction false} DeskRiskIsDefined(
    direction: string, u: string, e: int, now: int, calls: seq<OptionQuote>, puts: seq<OptionQuote>,
    d: real, w: nat, q: Pos)
    requires BuildStrategy(direction, u, e, now, calls, puts, d, w, 1).Some?
    ensures Honest(ScaleStrategy(BuildStrategy(direction, u, e, now, calls, puts, d, w, 1).value, q))
  {
    var one, many := ScalingRefinesBuilding(direction, u, e, now, calls, puts, d, w, q);
    forall spot: real ensures RiskIsDefined(ScaleStrategy(one, q), spot) {
      BuiltRiskIsDefined(direction, u, e, now, calls, puts, d, w, q, spot);
    }
  }

  /** A cash-secured put stays within its bounds and attains both: worst at zero, best at the strike. */
  lemma {:induction false} CashSecuredPutRisk(
    u: string, e: int, now: int, puts: seq<OptionQuote>, d: real, q: Pos, spot: real)
    requires 0.0 <= spot && CashSecuredPut(u, e, now, puts, d, q).Some?
    ensures var s := CashSecuredPut(u, e, now, puts, d, q).value;
            && RiskIsDefined(s, spot)
            && ExpiryPnl(s, 0.0) == -s.maxLoss.value
            && ExpiryPnl(s, s.legs[0].contract.strike) == s.maxProfit.value
  {
    var s := CashSecuredPut(u, e, now, puts, d, q).value;
    var strike: real := s.legs[0].contract.strike;
    assert s.legs[1..] == [];
    assert forall x :: LegsPayoff(s.legs, x) == -Dollars(Max(strike - x, 0.0), q);
    DollarsOrder(0.0, Max(strike - spot, 0.0), q);
    DollarsOrder(Max(strike - spot, 0.0), strike, q);
    DollarsSum(0.0, 0.0, q);
  }
}
