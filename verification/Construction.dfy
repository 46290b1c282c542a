/** What the builders take from the chain, and what a view of the market turns into
    (services/options/strategies.py, services/trading/agent.py). */
module Construction {
  import opened Basics
  import opened Options
  import opened Strategies
  import opened DefinedRisk
  import opened Risk
  import opened TradingSchemas
  import opened Agent
  import S = InterleavedSafety

  /** The price of a quote lies half-way between bid and ask; without either it is the last trade. */
  lemma {:induction false} MidIsHalfway(q: OptionQuote)
    ensures q.bid.Some? && q.ask.Some? ==>
              Mid(q).Some? && Mid(q).value - q.bid.value == q.ask.value - Mid(q).value
    ensures q.bid.None? || q.ask.None? ==> Mid(q) == q.last
  {
  }

  /** Whole days to expiration, none once it is past. */
  lemma {:induction false} DaysAreWhole(expiration: int, now: int)
    ensures now <= expiration ==>
              0 <= DaysTo(expiration, now) * 86400 <= expiration - now < (DaysTo(expiration, now) + 1) * 86400
    ensures expiration < now ==> DaysTo(expiration, now) == 0
  {
  }

  /** A leg trades the contract of its quote, at that quote's price. */
  ghost predicate Trades(
    leg: OptionLeg, q: OptionQuote, u: string, kind: OptionType, e: int, side: OptionSide, quantity: Pos)
  {
    && leg.contract == OptionContract(q.symbol, u, kind, q.strike, e)
    && leg.side == side && leg.quantity == quantity && leg.delta == q.delta
    && leg.theoretical == if Mid(q).Some? then Mid(q).value else 0.0
  }

  ghost predicate TradesPair(
    s: OptionStrategy, pair: Option<(OptionQuote, OptionQuote)>, u: string, kind: OptionType, e: int, now: int, q: Pos)
  {
    && pair.Some? && s.underlying == u && |s.legs| == 2 && s.daysToExpiration == Some(DaysTo(e, now))
    && Trades(s.legs[0], pair.value.0, u, kind, e, SellToOpen, q)
    && Trades(s.legs[1], pair.value.1, u, kind, e, BuyToOpen, q)
  }

  /** The spreads exist exactly when their pairs do; they sell the pick and buy its protection. */
  lemma {:induction false} SpreadsTradeTheirPairs(
    u: string, e: int, now: int, quotes: seq<OptionQuote>, d: real, w: nat, q: Pos)
    ensures BullPutSpread(u, e, now, quotes, d, w, q).Some? <==> PutPair(quotes, d, w).Some?
    ensures BullPutSpread(u, e, now, quotes, d, w, q).Some? ==>
              TradesPair(BullPutSpread(u, e, now, quotes, d, w, q).value, PutPair(quotes, d, w), u, Put, e, now, q)
    ensures BearCallSpread(u, e, now, quotes, d, w, q).Some? <==> CallPair(quotes, d, w).Some?
    ensures BearCallSpread(u, e, now, quotes, d, w, q).Some? ==>
              TradesPair(BearCallSpread(u, e, now, quotes, d, w, q).value, CallPair(quotes, d, w), u, Call, e, now, q)
  {
  }

  /** The reported chance of profit is one less the short delta's size for calls. Put deltas are
      signed, so a put spread on a usual, non-positive delta always reports certainty. */
  lemma {:induction false} ReportedChances(
    u: string, e: int, now: int, quotes: seq<OptionQuote>, d: real, w: nat, q: Pos)
    ensures var s := BullPutSpread(u, e, now, quotes, d, w, q);
            s.Some? ==>
              && s.value.probabilityOfProfit.Some? && 0.0 <= s.value.probabilityOfProfit.value <= 1.0
              && var delta := PutPair(quotes, d, w).value.0.delta.value;
                 && (delta <= 0.0 <==> s.value.probabilityOfProfit == Some(1.0))
                 && (0.0 <= delta <= 1.0 ==> s.value.probabilityOfProfit.value + delta == 1.0)
    ensures var s := BearCallSpread(u, e, now, quotes, d, w, q);
            s.Some? ==>
              && s.value.probabilityOfProfit.Some? && 0.0 <= s.value.probabilityOfProfit.value <= 1.0
              && var delta := CallPair(quotes, d, w).value.0.delta.value;
                 && (0.0 <= delta <= 1.0 ==> s.value.probabilityOfProfit.value + delta == 1.0)
                 && (-1.0 <= delta <= 0.0 ==> s.value.probabilityOfProfit.value - delta == 1.0)
  {
  }

  /** A condor exists exactly when both its spreads do; its chance is the product of theirs, a chance
      of zero counting as one half. */
  lemma {:induction false} CondorReports(
    u: string, e: int, now: int, calls: seq<OptionQuote>, puts: seq<OptionQuote>, d: real, w: nat, q: Pos)
    ensures var s := IronCondor(u, e, now, calls, puts, d, w, q);
            var put, call := BullPutSpread(u, e, now, puts, d, w, q), BearCallSpread(u, e, now, calls, d, w, q);
            && (s.Some? <==> put.Some? && call.Some?)
            && (s.Some? ==>
                  && put.value.name == "bull_put_spread" && call.value.name == "bear_call_spread"
                  && s.value.name == "iron_condor" && s.value.underlying == u
                  && s.value.legs == put.value.legs + call.value.legs
                  && s.value.daysToExpiration == Some(DaysTo(e, now))
                  && var x, y := put.value.probabilityOfProfit.value, call.value.probabilityOfProfit.value;
                     && s.value.probabilityOfProfit.Some?
                     && IsProduct(s.value.probabilityOfProfit.value,
                                  if x == 0.0 then 0.5 else x, if y == 0.0 then 0.5 else y))
  {
    var put, call := BullPutSpread(u, e, now, puts, d, w, q), BearCallSpread(u, e, now, calls, d, w, q);
    if put.Some? && call.Some? {
      ProductOf(OrHalf(put.value.probabilityOfProfit), OrHalf(call.value.probabilityOfProfit));
    }
  }

  ghost predicate IsProduct(p: real, a: real, b: real) { p == a * b }

  lemma {:induction false} ProductOf(a: real, b: real)
    ensures IsProduct(BothWin(a, b), a, b)
  {
  }

  /** A cash-secured put exists exactly when some put has a delta; it sells the pick, and its break-even
      is where profit is zero exactly when the premium is not negative. */
  lemma {:induction false} CashSecuredPutReports(
    u: string, e: int, now: int, puts: seq<OptionQuote>, d: real, q: Pos)
    ensures var s := CashSecuredPut(u, e, now, puts, d, q);
            var pick := PickByDelta(SortByStrike(puts), d);
            && (s.Some? <==> pick.Some?)
            && (s.Some? ==>
                  && s.value.name == "cash_secured_put" && s.value.underlying == u && |s.value.legs| == 1
                  && Trades(s.value.legs[0], pick.value, u, Put, e, SellToOpen, q)
                  && s.value.daysToExpiration == Some(DaysTo(e, now))
                  && s.value.netCredit == Some(s.value.legs[0].theoretical) && |s.value.breakEven| == 1
                  && (ExpiryPnl(s.value, s.value.breakEven[0]) == 0.0 <==> s.value.legs[0].theoretical >= 0.0)
                  && s.value.probabilityOfProfit.Some?
                  && var delta := pick.value.delta.value;
                     && (delta <= 0.0 <==> s.value.probabilityOfProfit == Some(1.0))
                     && (0.0 <= delta <= 1.0 ==> s.value.probabilityOfProfit.value + delta == 1.0))
  {
    var s := CashSecuredPut(u, e, now, puts, d, q);
    if s.Some? {
      var premium, strike := s.value.legs[0].theoretical, s.value.legs[0].contract.strike;
      var spot := s.value.breakEven[0];
      assert s.value.legs[1..] == [];
      var worth := Intrinsic(Put, strike, spot);
      assert worth == if premium >= 0.0 then premium else 0.0;
      assert LegPayoff(s.value.legs[0], spot) == -Dollars(worth, q);
      assert LegsPayoff(s.value.legs, spot) == LegPayoff(s.value.legs[0], spot) + LegsPayoff(s.value.legs[1..], spot);
      assert s.value.maxProfit.value == Dollars(premium, q);
      assert ExpiryPnl(s.value, spot) == Dollars(premium, q) - Dollars(worth, q);
      DollarsOrder(premium, worth, q);
      DollarsOrder(worth, premium, q);
    }
  }

  // ---- a view and its payoff -------------------------------------------------

  lemma {:induction false} PutSpreadRises(s: OptionStrategy, q: Pos, x: real, y: real)
    requires IsVertical(s, Put, q) && x <= y
    ensures ExpiryPnl(s, x) <= ExpiryPnl(s, y)
  {
    VerticalPayoff(s, Put, q, x);
    VerticalPayoff(s, Put, q, y);
    DollarsOrder(UnitPayoff(s, Put, x), UnitPayoff(s, Put, y), q);
  }

  lemma {:induction false} CallSpreadFalls(s: OptionStrategy, q: Pos, x: real, y: real)
    requires IsVertical(s, Call, q) && x <= y
    ensures ExpiryPnl(s, x) >= ExpiryPnl(s, y)
  {
    VerticalPayoff(s, Call, q, x);
    VerticalPayoff(s, Call, q, y);
    DollarsOrder(UnitPayoff(s, Call, y), UnitPayoff(s, Call, x), q);
  }

  ghost predicate Rises(s: OptionStrategy) { forall x: real, y: real :: x <= y ==> ExpiryPnl(s, x) <= ExpiryPnl(s, y) }

  ghost predicate Falls(s: OptionStrategy) { forall x: real, y: real :: x <= y ==> ExpiryPnl(s, x) >= ExpiryPnl(s, y) }

  /** A put spread and a call spread held together. */
  ghost predicate BothSides(s: OptionStrategy) {
    && |s.legs| == 4
    && s.legs[0].contract.optionType == s.legs[1].contract.optionType == Put
    && s.legs[2].contract.optionType == s.legs[3].contract.optionType == Call
    && s.legs[0].side == s.legs[2].side == SellToOpen && s.legs[1].side == s.legs[3].side == BuyToOpen
  }

  /** What each view calls for: a put spread gains as the price rises, a call spread as it falls,
      and no view on the direction holds both. */
  ghost predicate Fits(view: SignalDirection, s: OptionStrategy) {
    match view
    case Bullish => |s.legs| == 2 && (forall leg :: leg in s.legs ==> leg.contract.optionType == Put) && Rises(s)
    case Bearish => |s.legs| == 2 && (forall leg :: leg in s.legs ==> leg.contract.optionType == Call) && Falls(s)
    case Neutral => BothSides(s)
    case AbstainSignal => false
  }

  lemma {:induction false} SameLegsSamePnl(a: OptionStrategy, b: OptionStrategy)
    requires SameButCredit(a, b)
    ensures forall spot: real :: ExpiryPnl(a, spot) == ExpiryPnl(b, spot)
  {
  }

  lemma {:induction false} PutSpreadFits(u: string, e: int, now: int, puts: seq<OptionQuote>, d: real, w: nat, q: Pos)
    requires BullPutSpread(u, e, now, puts, d, w, q).Some?
    ensures Fits(Bullish, BullPutSpread(u, e, now, puts, d, w, q).value)
  {
    BullPutIsVertical(u, e, now, puts, d, w, q);
    var s := BullPutSpread(u, e, now, puts, d, w, q).value;
    forall x: real, y: real | x <= y ensures ExpiryPnl(s, x) <= ExpiryPnl(s, y) { PutSpreadRises(s, q, x, y); }
  }

  lemma {:induction false} CallSpreadFits(u: string, e: int, now: int, calls: seq<OptionQuote>, d: real, w: nat, q: Pos)
    requires BearCallSpread(u, e, now, calls, d, w, q).Some?
    ensures Fits(Bearish, BearCallSpread(u, e, now, calls, d, w, q).value)
  {
    BearCallIsVertical(u, e, now, calls, d, w, q);
    var s := BearCallSpread(u, e, now, calls, d, w, q).value;
    forall x: real, y: real | x <= y ensures ExpiryPnl(s, x) >= ExpiryPnl(s, y) { CallSpreadFalls(s, q, x, y); }
  }

  lemma {:induction false} CondorFits(
    u: string, e: int, now: int, calls: seq<OptionQuote>, puts: seq<OptionQuote>, d: real, w: nat, q: Pos)
    requires IronCondor(u, e, now, calls, puts, d, w, q).Some?
    ensures Fits(Neutral, IronCondor(u, e, now, calls, puts, d, w, q).value)
  {
    BullPutIsVertical(u, e, now, puts, d, w, q);
    BearCallIsVertical(u, e, now, calls, d, w, q);
    var put, call := BullPutSpread(u, e, now, puts, d, w, q).value, BearCallSpread(u, e, now, calls, d, w, q).value;
    var legs := put.legs + call.legs;
    assert legs[0] == put.legs[0] && legs[1] == put.legs[1] && legs[2] == call.legs[0] && legs[3] == call.legs[1];
  }

  lemma {:induction false} BuiltFitsTheView(view: SignalDirection, u: string, chain: OptionChain, now: int, q: Pos)
    requires !view.AbstainSignal?
    ensures var s := BuildStrategy(
              DirectionName(view), u, chain.expiration, now, chain.calls, chain.puts, SHORT_DELTA, 1, q);
            s.Some? ==> Fits(view, s.value)
  {
    var s := BuildStrategy(
      DirectionName(view), u, chain.expiration, now, chain.calls, chain.puts, SHORT_DELTA, 1, q);
    if s.Some? {
      match view
      case Bullish => PutSpreadFits(u, chain.expiration, now, chain.puts, SHORT_DELTA, 1, q);
      case Bearish => CallSpreadFits(u, chain.expiration, now, chain.calls, SHORT_DELTA, 1, q);
      case Neutral => CondorFits(u, chain.expiration, now, chain.calls, chain.puts, SHORT_DELTA, 1, q);
    }
  }

  /** What the desk proposes fits the signal's view, at the size it proposes. */
  lemma {:induction false} ProposalFitsTheView(
    cfg: AgentConfig, a: AccountSnapshot, d: AgentDecision, market: Market, signal: Option<Signal>, now: int)
    requires Propose(cfg, a, d, market, signal, now).Continue?
    ensures var p := Propose(cfg, a, d, market, signal, now).decision;
            signal.Some? && Fits(signal.value.direction, p.strategy.value)
  {
    S.ProposalIsConstructed(cfg, a, d, market, signal, now);
    var view, chain := signal.value.direction, market.chain.value;
    var built := BuildStrategy(
      DirectionName(view), d.symbol, chain.expiration, now, chain.calls, chain.puts, SHORT_DELTA, 1, 1);
    var q := SizeFor(cfg, a.equity, built.value.maxLoss);
    var one, many := ScalingRefinesBuilding(
      DirectionName(view), d.symbol, chain.expiration, now, chain.calls, chain.puts, SHORT_DELTA, 1, q);
    BuiltFitsTheView(view, d.symbol, chain, now, q);
    SameLegsSamePnl(ScaleStrategy(one, q), many);
  }
}
