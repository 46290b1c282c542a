/** The ten risk gates and their verdict (services/risk/engine.py). */
module Risk {
  import opened Basics
  import opened Options

  datatype GateVerdict = Approve | Refuse | Reduce

  datatype Gate =
    | DefinedRiskGate | MaxLossPerTrade | MaxLossTotal | Concentration | IvRankBand
    | DteWindow | ProbabilityOfProfit | DailyLossCircuitBreaker | OpenPositionsLimit | CashCollateral

  datatype GateResult = GateResult(gate: Gate, passed: bool, hard: bool, limit: Option<real>, actual: Option<real>)

  datatype RiskResult = RiskResult(verdict: GateVerdict, gates: seq<GateResult>) {
    /** Only a refusal blocks execution: REDUCE passes. */
    predicate Passed() { verdict != Refuse }
  }

  datatype RiskBudget = RiskBudget(
    maxLossPerTradePct: real, maxTotalDefinedRiskPct: real, maxConcentrationPct: real,
    minIvRank: real, maxIvRank: real, minDte: int, maxDte: int,
    minProbabilityOfProfit: real, dailyLossLimitPct: real, maxOpenPositions: int)

  datatype PortfolioState = PortfolioState(
    equity: real, cash: real, dailyPl: real, openPositions: int,
    definedRiskCommitted: real, exposureByUnderlying: map<string, real>)

  /** The equity every limit is a fraction of. */
  function GateEquity(equity: real): (r: real)
    ensures r > 0.0 && r >= equity
  {
    Max(equity, 0.000001)
  }

  /** A fraction of equity, in dollars. */
  function Share(pct: real, equity: real): real { pct * equity }

  lemma {:induction false} ShareGrows(pct: real, had: real, has: real)
    requires pct >= 0.0 && had <= has
    ensures Share(pct, had) <= Share(pct, has)
  {
    ScaleLe(had, has, pct);
  }

  function Lookup(exposure: map<string, real>, symbol: string): real {
    if symbol in exposure then exposure[symbol] else 0.0
  }

  /** What each gate demands. */
  predicate Holds(gate: Gate, s: OptionStrategy, p: PortfolioState, b: RiskBudget, ivRank: Option<real>) {
    var equity := GateEquity(p.equity);
    var loss := OrZero(s.maxLoss);
    match gate
    case DefinedRiskGate => s.DefinedRisk()
    case MaxLossPerTrade => loss <= Share(b.maxLossPerTradePct, equity)
    case MaxLossTotal => p.definedRiskCommitted + loss <= Share(b.maxTotalDefinedRiskPct, equity)
    case Concentration => Lookup(p.exposureByUnderlying, s.underlying) + loss <= Share(b.maxConcentrationPct, equity)
    case IvRankBand => ivRank.None? || b.minIvRank <= ivRank.value <= b.maxIvRank
    case DteWindow => s.daysToExpiration.None? || b.minDte <= s.daysToExpiration.value <= b.maxDte
    case ProbabilityOfProfit => s.probabilityOfProfit.None? || s.probabilityOfProfit.value >= b.minProbabilityOfProfit
    case DailyLossCircuitBreaker => p.dailyPl > -Share(b.dailyLossLimitPct, equity)
    case OpenPositionsLimit => p.openPositions < b.maxOpenPositions
    case CashCollateral => p.cash >= loss
  }

  predicate IsHard(gate: Gate) { gate != IvRankBand && gate != ProbabilityOfProfit }

  const ALL_GATES: seq<Gate> := [
    DefinedRiskGate, MaxLossPerTrade, MaxLossTotal, Concentration, IvRankBand,
    DteWindow, ProbabilityOfProfit, DailyLossCircuitBreaker, OpenPositionsLimit, CashCollateral]

  /** The meaning of a verdict: a hard gate that does not hold refuses, else a soft one reduces. */
  function Verdict(s: OptionStrategy, p: PortfolioState, b: RiskBudget, ivRank: Option<real>): GateVerdict {
    if exists g: Gate :: IsHard(g) && !Holds(g, s, p, b, ivRank) then Refuse
    else if exists g: Gate :: !IsHard(g) && !Holds(g, s, p, b, ivRank) then Reduce
    else Approve
  }

  /** The limit and the value a gate reports beside its outcome. */
  function Figures(gate: Gate, s: OptionStrategy, p: PortfolioState, b: RiskBudget, ivRank: Option<real>)
    : (Option<real>, Option<real>)
  {
    var equity := GateEquity(p.equity);
    var loss := OrZero(s.maxLoss);
    match gate
    case DefinedRiskGate => (None, s.maxLoss)
    case MaxLossPerTrade => (Some(Share(b.maxLossPerTradePct, equity)), Some(loss))
    case MaxLossTotal => (Some(Share(b.maxTotalDefinedRiskPct, equity)), Some(p.definedRiskCommitted + loss))
    case Concentration => (Some(Share(b.maxConcentrationPct, equity)),
                           Some(Lookup(p.exposureByUnderlying, s.underlying) + loss))
    case IvRankBand => if ivRank.None? then (None, None) else (Some(b.minIvRank), ivRank)
    case DteWindow =>
      (Some(b.minDte as real), if s.daysToExpiration.None? then None else Some(s.daysToExpiration.value as real))
    case ProbabilityOfProfit => (Some(b.minProbabilityOfProfit), s.probabilityOfProfit)
    case DailyLossCircuitBreaker => (Some(Share(b.dailyLossLimitPct, equity)), Some(p.dailyPl))
    case OpenPositionsLimit => (Some(b.maxOpenPositions as real), Some(p.openPositions as real))
    case CashCollateral => (Some(loss), Some(p.cash))
  }

  /** The line one gate contributes to the report. */
  function Check(gate: Gate, s: OptionStrategy, p: PortfolioState, b: RiskBudget, ivRank: Option<real>): GateResult {
    var figures := Figures(gate, s, p, b, ivRank);
    GateResult(gate, Holds(gate, s, p, b, ivRank), IsHard(gate), figures.0, figures.1)
  }

  function Report(gates: seq<Gate>, s: OptionStrategy, p: PortfolioState, b: RiskBudget, ivRank: Option<real>)
    : (r: seq<GateResult>)
    ensures |r| == |gates|
    ensures forall i :: 0 <= i < |gates| ==> r[i] == Check(gates[i], s, p, b, ivRank)
  {
    seq(|gates|, i requires 0 <= i < |gates| => Check(gates[i], s, p, b, ivRank))
  }

  /** What `evaluate` answers. Without a finite loss only the first gate is reported. */
  function Evaluation(s: OptionStrategy, p: PortfolioState, b: RiskBudget, ivRank: Option<real>): RiskResult {
    if !s.DefinedRisk() then RiskResult(Refuse, [GateResult(DefinedRiskGate, false, true, None, None)])
    else RiskResult(Verdict(s, p, b, ivRank), Report(ALL_GATES, s, p, b, ivRank))
  }

  /** Run the gates one after the other, then read the verdict off the list. */
  method Evaluate(s: OptionStrategy, p: PortfolioState, b: RiskBudget, ivRank: Option<real>) returns (r: RiskResult)
    ensures r == Evaluation(s, p, b, ivRank)
  {
    if !s.DefinedRisk() {
      return RiskResult(Refuse, [GateResult(DefinedRiskGate, false, true, None, None)]);
    }
    var gates := [GateResult(DefinedRiskGate, true, true, None, s.maxLoss)];
    var lossGates := RunLossGates(s, p, b, ivRank);
    gates := gates + lossGates;
    var signalGates := RunSignalGates(s, p, b, ivRank);
    gates := gates + signalGates;
    var accountGates := RunAccountGates(s, p, b, ivRank);
    gates := gates + accountGates;

    assert gates[0] == Check(DefinedRiskGate, s, p, b, ivRank);
    assert gates == Report(ALL_GATES, s, p, b, ivRank);
    VerdictFromReport(s, p, b, ivRank);
    r := RiskResult(
      if AnyFailure(gates, true) then Refuse else if AnyFailure(gates, false) then Reduce else Approve, gates);
  }

  /** Gates 2 to 4: the loss against three fractions of equity. */
  method RunLossGates(
    s: OptionStrategy, p: PortfolioState, b: RiskBudget, ivRank: Option<real>)
    returns (gates: seq<GateResult>)
    ensures gates == Report([MaxLossPerTrade, MaxLossTotal, Concentration], s, p, b, ivRank)
  {
    gates := [];
    var equity := GateEquity(p.equity);
    var loss := OrZero(s.maxLoss);

    var limit := Share(b.maxLossPerTradePct, equity);
    gates := gates + [GateResult(MaxLossPerTrade, loss <= limit, true, Some(limit), Some(loss))];

    var totalAfter := p.definedRiskCommitted + loss;
    var totalLimit := Share(b.maxTotalDefinedRiskPct, equity);
    gates := gates + [GateResult(MaxLossTotal, totalAfter <= totalLimit, true, Some(totalLimit), Some(totalAfter))];

    var concAfter := Lookup(p.exposureByUnderlying, s.underlying) + loss;
    var concLimit := Share(b.maxConcentrationPct, equity);
    gates := gates + [GateResult(Concentration, concAfter <= concLimit, true, Some(concLimit), Some(concAfter))];
  }

  /** Gates 5 to 7: volatility rank, expiry window and chance of profit; an absent figure passes. */
  method RunSignalGates(
    s: OptionStrategy, p: PortfolioState, b: RiskBudget, ivRank: Option<real>)
    returns (gates: seq<GateResult>)
    ensures gates == Report([IvRankBand, DteWindow, ProbabilityOfProfit], s, p, b, ivRank)
  {
    gates := [];
    if ivRank.None? {
      gates := gates + [GateResult(IvRankBand, true, false, None, None)];
    } else {
      var okIv := b.minIvRank <= ivRank.value <= b.maxIvRank;
      gates := gates + [GateResult(IvRankBand, okIv, false, Some(b.minIvRank), ivRank)];
    }

    var okDte, dte := true, None;
    if s.daysToExpiration.Some? {
      okDte := b.minDte <= s.daysToExpiration.value <= b.maxDte;
      dte := Some(s.daysToExpiration.value as real);
    }
    gates := gates + [GateResult(DteWindow, okDte, true, Some(b.minDte as real), dte)];

    var okPop := true;
    if s.probabilityOfProfit.Some? {
      okPop := s.probabilityOfProfit.value >= b.minProbabilityOfProfit;
    }
    gates := gates + [GateResult(ProbabilityOfProfit, okPop, false, Some(b.minProbabilityOfProfit),
                                 s.probabilityOfProfit)];
  }

  /** Gates 8 to 10: circuit breaker, open positions and cash. */
  method RunAccountGates(
    s: OptionStrategy, p: PortfolioState, b: RiskBudget, ivRank: Option<real>)
    returns (gates: seq<GateResult>)
    ensures gates == Report([DailyLossCircuitBreaker, OpenPositionsLimit, CashCollateral], s, p, b, ivRank)
  {
    gates := [];
    var dailyLimit := Share(b.dailyLossLimitPct, GateEquity(p.equity));
    gates := gates + [GateResult(DailyLossCircuitBreaker, p.dailyPl > -dailyLimit, true, Some(dailyLimit),
                                 Some(p.dailyPl))];
    gates := gates + [GateResult(OpenPositionsLimit, p.openPositions < b.maxOpenPositions, true,
                                 Some(b.maxOpenPositions as real), Some(p.openPositions as real))];
    var loss := OrZero(s.maxLoss);
    gates := gates + [GateResult(CashCollateral, p.cash >= loss, true, Some(loss), Some(p.cash))];
  }

  /** Is there a failed gate of this hardness? */
  predicate AnyFailure(gates: seq<GateResult>, hard: bool) {
    exists i :: 0 <= i < |gates| && !gates[i].passed && gates[i].hard == hard
  }

  lemma {:induction false} VerdictFromReport(s: OptionStrategy, p: PortfolioState, b: RiskBudget, ivRank: Option<real>)
    ensures var report := Report(ALL_GATES, s, p, b, ivRank);
            Verdict(s, p, b, ivRank)
              == if AnyFailure(report, true) then Refuse else if AnyFailure(report, false) then Reduce else Approve
  {
    var report := Report(ALL_GATES, s, p, b, ivRank);
    forall g: Gate | !Holds(g, s, p, b, ivRank) ensures AnyFailure(report, IsHard(g)) {
      var i := Position(g);
      assert !report[i].passed && report[i].hard == IsHard(g);
    }
    forall hard: bool | AnyFailure(report, hard)
      ensures exists g: Gate :: IsHard(g) == hard && !Holds(g, s, p, b, ivRank) {
      var i :| 0 <= i < |report| && !report[i].passed && report[i].hard == hard;
      assert IsHard(ALL_GATES[i]) == hard && !Holds(ALL_GATES[i], s, p, b, ivRank);
    }
  }

  ghost function Position(g: Gate): (i: nat)
    ensures i < |ALL_GATES| && ALL_GATES[i] == g
  {
    match g
    case DefinedRiskGate => 0
    case MaxLossPerTrade => 1
    case MaxLossTotal => 2
    case Concentration => 3
    case IvRankBand => 4
    case DteWindow => 5
    case ProbabilityOfProfit => 6
    case DailyLossCircuitBreaker => 7
    case OpenPositionsLimit => 8
    case CashCollateral => 9
  }

  /** A strategy passes exactly when all eight hard gates hold. */
  lemma {:induction false} PassedMeansHardGates(
    s: OptionStrategy, p: PortfolioState, b: RiskBudget, ivRank: Option<real>)
    ensures Evaluation(s, p, b, ivRank).Passed() <==> forall g: Gate :: IsHard(g) ==> Holds(g, s, p, b, ivRank)
  {
    assert !s.DefinedRisk() ==> IsHard(DefinedRiskGate) && !Holds(DefinedRiskGate, s, p, b, ivRank);
  }

  ghost predicate NonNegative(b: RiskBudget) {
    && b.maxLossPerTradePct >= 0.0 && b.maxTotalDefinedRiskPct >= 0.0
    && b.maxConcentrationPct >= 0.0 && b.dailyLossLimitPct >= 0.0
  }

  /** A portfolio with no less room in any respect. */
  ghost predicate Roomier(q: PortfolioState, p: PortfolioState, symbol: string) {
    && q.equity >= p.equity && q.cash >= p.cash && q.dailyPl >= p.dailyPl
    && q.openPositions <= p.openPositions && q.definedRiskCommitted <= p.definedRiskCommitted
    && Lookup(q.exposureByUnderlying, symbol) <= Lookup(p.exposureByUnderlying, symbol)
  }

  /** A strategy with a smaller non-negative loss, in a roomier portfolio. */
  ghost predicate Easier(smaller: OptionStrategy, q: PortfolioState, s: OptionStrategy, p: PortfolioState) {
    && Roomier(q, p, s.underlying)
    && smaller.underlying == s.underlying && smaller.daysToExpiration == s.daysToExpiration
    && smaller.DefinedRisk() && (s.DefinedRisk() ==> smaller.maxLoss.value <= s.maxLoss.value)
  }

  /** Acceptance is monotone: what passes still passes with a smaller non-negative loss
      or in a roomier portfolio, whatever the volatility rank. */
  lemma {:induction false} AcceptanceIsMonotone(
    s: OptionStrategy, p: PortfolioState, smaller: OptionStrategy, q: PortfolioState, b: RiskBudget,
    ivRank: Option<real>, otherRank: Option<real>)
    requires Easier(smaller, q, s, p) && (NonNegative(b) || q.equity == p.equity)
    requires Evaluation(s, p, b, ivRank).Passed()
    ensures Evaluation(smaller, q, b, otherRank).Passed()
  {
    PassedMeansHardGates(s, p, b, ivRank);
    PassedMeansHardGates(smaller, q, b, otherRank);
    if NonNegative(b) {
      var had, has := GateEquity(p.equity), GateEquity(q.equity);
      ShareGrows(b.maxLossPerTradePct, had, has);
      ShareGrows(b.maxTotalDefinedRiskPct, had, has);
      ShareGrows(b.maxConcentrationPct, had, has);
      ShareGrows(b.dailyLossLimitPct, had, has);
    }
    forall g: Gate | IsHard(g) ensures Holds(g, smaller, q, b, otherRank) {
      assert Holds(g, s, p, b, ivRank);
      assert Holds(DefinedRiskGate, s, p, b, ivRank);
    }
  }

  ghost predicate Monotone(b: RiskBudget) {
    forall s, p, smaller, q, ivRank, otherRank ::
      Easier(smaller, q, s, p) && Evaluation(s, p, b, ivRank).Passed() ==> Evaluation(smaller, q, b, otherRank).Passed()
  }

  /** A negative per-trade limit accepts nothing at all. */
  lemma {:induction false} NegativeLimitAcceptsNothing(
    s: OptionStrategy, p: PortfolioState, b: RiskBudget, ivRank: Option<real>)
    requires b.maxLossPerTradePct < 0.0
    ensures !Evaluation(s, p, b, ivRank).Passed()
  {
    ProductSign(b.maxLossPerTradePct, GateEquity(p.equity));
    PassedMeansHardGates(s, p, b, ivRank);
    assert IsHard(DefinedRiskGate) && IsHard(MaxLossPerTrade);
    assert !Holds(DefinedRiskGate, s, p, b, ivRank) || !Holds(MaxLossPerTrade, s, p, b, ivRank);
  }

  /** Under a negative limit of another kind, doubling the equity turns an acceptance into a refusal. */
  lemma {:induction false} NegativeLimitBreaks(b: RiskBudget)
    returns (s: OptionStrategy, p: PortfolioState, q: PortfolioState)
    requires b.maxLossPerTradePct >= 0.0 && !NonNegative(b)
    ensures Easier(s, q, s, p) && Evaluation(s, p, b, None).Passed() && !Evaluation(s, q, b, None).Passed()
  {
    s := OptionStrategy("", "", [], None, Some(0.0), None, [], None, None);
    var dailyPl := if b.dailyLossLimitPct < 0.0 then -1.5 * b.dailyLossLimitPct else 1.0;
    p := PortfolioState(1.0, 0.0, dailyPl, b.maxOpenPositions - 1, b.maxTotalDefinedRiskPct,
                        map["" := b.maxConcentrationPct]);
    q := p.(equity := 2.0);
    PassedMeansHardGates(s, p, b, None);
    PassedMeansHardGates(s, q, b, None);
    forall g: Gate | IsHard(g) ensures Holds(g, s, p, b, None) {}
    assert b.maxTotalDefinedRiskPct < 0.0 ==> !Holds(MaxLossTotal, s, q, b, None);
    assert b.maxConcentrationPct < 0.0 ==> !Holds(Concentration, s, q, b, None);
    assert b.dailyLossLimitPct < 0.0 ==> !Holds(DailyLossCircuitBreaker, s, q, b, None);
  }

  /** Acceptance is monotone under exactly those budgets that have no negative limit, or that
      accept nothing because the per-trade one is negative. */
  lemma {:induction false} MonotoneExactly(b: RiskBudget)
    ensures Monotone(b) <==> b.maxLossPerTradePct < 0.0 || NonNegative(b)
  {
    if b.maxLossPerTradePct < 0.0 || NonNegative(b) {
      forall s, p, smaller, q, ivRank, otherRank | Easier(smaller, q, s, p) && Evaluation(s, p, b, ivRank).Passed()
        ensures Evaluation(smaller, q, b, otherRank).Passed()
      {
        if b.maxLossPerTradePct < 0.0 {
          NegativeLimitAcceptsNothing(s, p, b, ivRank);
        } else {
          AcceptanceIsMonotone(s, p, smaller, q, b, ivRank, otherRank);
        }
      }
    } else {
      var s, p, q := NegativeLimitBreaks(b);
    }
  }

  // ---- the verdict in figures ------------------------------------------------

  /** The conditions of acceptance in dollars, days and positions, as the budget's documentation gives them. */
  ghost predicate Acceptable(s: OptionStrategy, p: PortfolioState, b: RiskBudget) {
    var equity := if p.equity >= 0.000001 then p.equity else 0.000001;
    var exposure := if s.underlying in p.exposureByUnderlying then p.exposureByUnderlying[s.underlying] else 0.0;
    && s.maxLoss.Some? && 0.0 <= s.maxLoss.value
    && s.maxLoss.value <= b.maxLossPerTradePct * equity
    && p.definedRiskCommitted + s.maxLoss.value <= b.maxTotalDefinedRiskPct * equity
    && exposure + s.maxLoss.value <= b.maxConcentrationPct * equity
    && (s.daysToExpiration.Some? ==> b.minDte <= s.daysToExpiration.value <= b.maxDte)
    && p.dailyPl > -(b.dailyLossLimitPct * equity)
    && p.openPositions < b.maxOpenPositions
    && p.cash >= s.maxLoss.value
  }

  /** What only reduces: the volatility rank in its band, and the probability of profit above its floor. */
  ghost predicate Comfortable(s: OptionStrategy, b: RiskBudget, ivRank: Option<real>) {
    && (ivRank.Some? ==> b.minIvRank <= ivRank.value <= b.maxIvRank)
    && (s.probabilityOfProfit.Some? ==> s.probabilityOfProfit.value >= b.minProbabilityOfProfit)
  }

  lemma {:induction false} HardGatesInFigures(s: OptionStrategy, p: PortfolioState, b: RiskBudget, ivRank: Option<real>)
    ensures (forall g: Gate :: IsHard(g) ==> Holds(g, s, p, b, ivRank)) <==> Acceptable(s, p, b)
  {
    if forall g: Gate :: IsHard(g) ==> Holds(g, s, p, b, ivRank) {
      assert Holds(DefinedRiskGate, s, p, b, ivRank) && Holds(MaxLossPerTrade, s, p, b, ivRank);
      assert Holds(MaxLossTotal, s, p, b, ivRank) && Holds(Concentration, s, p, b, ivRank);
      assert Holds(DteWindow, s, p, b, ivRank) && Holds(DailyLossCircuitBreaker, s, p, b, ivRank);
      assert Holds(OpenPositionsLimit, s, p, b, ivRank) && Holds(CashCollateral, s, p, b, ivRank);
    }
  }

  lemma {:induction false} SoftGatesInFigures(s: OptionStrategy, p: PortfolioState, b: RiskBudget, ivRank: Option<real>)
    ensures (forall g: Gate :: !IsHard(g) ==> Holds(g, s, p, b, ivRank)) <==> Comfortable(s, b, ivRank)
  {
    if forall g: Gate :: !IsHard(g) ==> Holds(g, s, p, b, ivRank) {
      assert Holds(IvRankBand, s, p, b, ivRank) && Holds(ProbabilityOfProfit, s, p, b, ivRank);
    }
  }

  /** The verdict, in figures: refused exactly when not acceptable, approved exactly when comfortable
      too, and passed when either approved or reduced. */
  lemma {:induction false} VerdictInFigures(s: OptionStrategy, p: PortfolioState, b: RiskBudget, ivRank: Option<real>)
    ensures var r := Evaluation(s, p, b, ivRank);
            && (r.Passed() <==> Acceptable(s, p, b))
            && (r.verdict == Refuse <==> !Acceptable(s, p, b))
            && (r.verdict == Approve <==> Acceptable(s, p, b) && Comfortable(s, b, ivRank))
  {
    PassedMeansHardGates(s, p, b, ivRank);
    HardGatesInFigures(s, p, b, ivRank);
    SoftGatesInFigures(s, p, b, ivRank);
  }

  /** A reported gate passed exactly as its own two figures compare. */
  ghost predicate FiguresAgree(g: GateResult) {
    match g.gate
    case DefinedRiskGate => g.passed <==> g.actual.Some? && g.actual.value >= 0.0
    case MaxLossPerTrade | MaxLossTotal | Concentration =>
      g.limit.Some? && g.actual.Some? && (g.passed <==> g.actual.value <= g.limit.value)
    case IvRankBand | DteWindow =>
      && (g.actual.None? ==> g.passed)
      && (g.passed && g.actual.Some? ==> g.limit.Some? && g.actual.value >= g.limit.value)
    case ProbabilityOfProfit => g.limit.Some? && (g.passed <==> g.actual.None? || g.actual.value >= g.limit.value)
    case DailyLossCircuitBreaker => g.limit.Some? && g.actual.Some? && (g.passed <==> g.actual.value > -g.limit.value)
    case OpenPositionsLimit => g.limit.Some? && g.actual.Some? && (g.passed <==> g.actual.value < g.limit.value)
    case CashCollateral => g.limit.Some? && g.actual.Some? && (g.passed <==> g.actual.value >= g.limit.value)
  }

  /** Every gate reported agrees with its own figures. */
  lemma {:induction false} ReportAgrees(s: OptionStrategy, p: PortfolioState, b: RiskBudget, ivRank: Option<real>)
    ensures forall g :: g in Evaluation(s, p, b, ivRank).gates ==>
              g.hard == (g.gate != IvRankBand && g.gate != ProbabilityOfProfit) && (s.DefinedRisk() ==> FiguresAgree(g))
  {
    forall gate: Gate | s.DefinedRisk() ensures FiguresAgree(Check(gate, s, p, b, ivRank)) {}
    var gates := Evaluation(s, p, b, ivRank).gates;
    forall g | g in gates
      ensures g.hard == (g.gate != IvRankBand && g.gate != ProbabilityOfProfit) && (s.DefinedRisk() ==> FiguresAgree(g))
    {
      if s.DefinedRisk() {
        var i :| 0 <= i < |gates| && gates[i] == g;
        assert g == Check(ALL_GATES[i], s, p, b, ivRank);
      }
    }
  }

  /** The figures a report shows for one gate. */
  ghost predicate Shows(gates: seq<GateResult>, i: nat, gate: Gate, limit: real, actual: real) {
    && i < |gates| && gates[i].gate == gate
    && gates[i].limit.Some? && gates[i].limit.value == limit && gates[i].actual.Some? && gates[i].actual.value == actual
  }

  /** The loss gates report the budget's limits in dollars and what the trade would make of them. */
  lemma {:induction false} ReportedLosses(s: OptionStrategy, p: PortfolioState, b: RiskBudget, ivRank: Option<real>)
    requires s.maxLoss.Some? && s.maxLoss.value >= 0.0
    ensures var gates := Evaluation(s, p, b, ivRank).gates;
            var equity := if p.equity >= 0.000001 then p.equity else 0.000001;
            var exposures := p.exposureByUnderlying;
            var exposure := if s.underlying in exposures then exposures[s.underlying] else 0.0;
            var loss := s.maxLoss.value;
            && |gates| == 10 && gates[0].gate == DefinedRiskGate && gates[0].actual == s.maxLoss
            && Shows(gates, 1, MaxLossPerTrade, b.maxLossPerTradePct * equity, loss)
            && Shows(gates, 2, MaxLossTotal, b.maxTotalDefinedRiskPct * equity, p.definedRiskCommitted + loss)
            && Shows(gates, 3, Concentration, b.maxConcentrationPct * equity, exposure + loss)
            && Shows(gates, 9, CashCollateral, loss, p.cash)
  {
    var gates := Evaluation(s, p, b, ivRank).gates;
    assert gates[0] == Check(ALL_GATES[0], s, p, b, ivRank) && gates[1] == Check(ALL_GATES[1], s, p, b, ivRank);
    assert gates[2] == Check(ALL_GATES[2], s, p, b, ivRank) && gates[3] == Check(ALL_GATES[3], s, p, b, ivRank);
    assert gates[9] == Check(ALL_GATES[9], s, p, b, ivRank);
    var equity := if p.equity >= 0.000001 then p.equity else 0.000001;
    assert GateEquity(p.equity) == equity;
  }

  /** The other gates report their bounds and the figure compared with them. */
  lemma {:induction false} ReportedConditions(s: OptionStrategy, p: PortfolioState, b: RiskBudget, ivRank: Option<real>)
    requires s.maxLoss.Some? && s.maxLoss.value >= 0.0
    ensures var gates := Evaluation(s, p, b, ivRank).gates;
            var equity := if p.equity >= 0.000001 then p.equity else 0.000001;
            var days, pop := s.daysToExpiration, s.probabilityOfProfit;
            && |gates| == 10
            && gates[4].gate == IvRankBand && gates[5].gate == DteWindow && gates[6].gate == ProbabilityOfProfit
            && (if ivRank.None? then gates[4].actual.None? else Shows(gates, 4, IvRankBand, b.minIvRank, ivRank.value))
            && (if days.None? then gates[5].actual.None?
                else Shows(gates, 5, DteWindow, b.minDte as real, days.value as real))
            && (if pop.None? then gates[6].actual.None?
                else Shows(gates, 6, ProbabilityOfProfit, b.minProbabilityOfProfit, pop.value))
            && Shows(gates, 7, DailyLossCircuitBreaker, b.dailyLossLimitPct * equity, p.dailyPl)
            && Shows(gates, 8, OpenPositionsLimit, b.maxOpenPositions as real, p.openPositions as real)
  {
    var gates := Evaluation(s, p, b, ivRank).gates;
    assert gates[4] == Check(ALL_GATES[4], s, p, b, ivRank) && gates[5] == Check(ALL_GATES[5], s, p, b, ivRank);
    assert gates[6] == Check(ALL_GATES[6], s, p, b, ivRank) && gates[7] == Check(ALL_GATES[7], s, p, b, ivRank);
    assert gates[8] == Check(ALL_GATES[8], s, p, b, ivRank);
    var equity := if p.equity >= 0.000001 then p.equity else 0.000001;
    assert GateEquity(p.equity) == equity && Share(b.dailyLossLimitPct, equity) == b.dailyLossLimitPct * equity;
  }
}
