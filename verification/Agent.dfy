/** One pass of the agent: signal, strategy, size, risk, order, journal (services/trading/agent.py).
    Each function below is the code between two suspension points of `decide`; the method
    `TradingAgent.Decide` runs them in order. */
module Agent {
  import opened Basics
  import opened Options
  import opened Strategies
  import opened Risk
  import opened TradingSchemas
  import opened Journal

  datatype AccountSnapshot = AccountSnapshot(
    equity: real, cash: real, buyingPower: real, dailyPl: real,
    openPositions: int, definedRiskCommitted: real, exposureByUnderlying: map<string, real>)

  datatype AgentConfig = AgentConfig(budget: RiskBudget, minConfidence: real, execute: bool, maxContracts: int)

  /** Spot price, volatility rank and enriched chain as fetched, or the failure to fetch them. */
  datatype Market =
    | MarketFailed(exc: string)
    | MarketReady(spot: Option<real>, volRank: Option<real>, chain: Option<OptionChain>)

  datatype Reply = Rejected(exc: string) | Accepted(orderId: string, status: string)

  /** Everything one pass receives from outside: ids, clock, market, model and broker. */
  datatype AgentIo = AgentIo(
    decisionId: string, market: Market, signal: Option<Signal>, now: int, reply: Reply, ts: string)

  /** Either the pass ends here with one journal line, or it goes on. */
  datatype Stage = Stop(decision: AgentDecision, kind: string, payload: Payload) | Continue(decision: AgentDecision)

  const SHORT_DELTA := 0.30

  function DirectionName(d: SignalDirection): string {
    match d
    case Bullish => "bullish"
    case Bearish => "bearish"
    case Neutral => "neutral"
    case AbstainSignal => "abstain"
  }

  function Truncate(x: real): int { if x >= 0.0 then x.Floor else -(-x).Floor }

  /** Contracts such that the loss per trade stays within the budget, at least one. */
  function SizeFor(cfg: AgentConfig, equity: real, maxLoss: Option<real>): Pos {
    var limit := Share(cfg.budget.maxLossPerTradePct, Max(equity, 1.0));
    var maxQty := if maxLoss.Some? && maxLoss.value != 0.0 then Truncate(limit / maxLoss.value) else 0;
    var capped := if maxQty <= cfg.maxContracts then maxQty else cfg.maxContracts;
    if maxQty < 1 || capped < 1 then 1 else capped
  }

  function Fresh(decisionId: string, symbol: string): AgentDecision {
    AgentDecision(decisionId, Upper(symbol), None, None, None, Abstained, None, None, None, None)
  }

  function Abstain(d: AgentDecision, reason: Reason, confidence: Option<real>): Stage {
    Stop(d.(reason := Some(reason)), "abstain", AbstainPayload(reason, confidence))
  }

  /** From the market context to a sized strategy. */
  function Propose(
    cfg: AgentConfig, account: AccountSnapshot, base: AgentDecision, market: Market, signal: Option<Signal>, now: int)
    : Stage
  {
    if market.MarketFailed? then
      Stop(base.(status := Error, reason := Some(MarketContextFailed(market.exc))), "error", ErrorPayload(market.exc))
    else
      var d := base.(signal := signal, marketPrice := market.spot, ivRank := market.volRank);
      if signal.None? then Abstain(d, NoSignal, None)
      else if signal.value.direction.AbstainSignal? then Abstain(d, NoEdge, None)
      else if signal.value.confidence < cfg.minConfidence then
        Abstain(d, LowConfidence(signal.value.confidence, cfg.minConfidence), Some(signal.value.confidence))
      else if market.chain.None? || market.spot.None? then Abstain(d, NoChain, None)
      else
        var chain := market.chain.value;
        var built := BuildStrategy(DirectionName(signal.value.direction), d.symbol, chain.expiration, now,
                                   chain.calls, chain.puts, SHORT_DELTA, 1, 1);
        if built.None? then Abstain(d, NotConstructible, None)
        else
          var quantity := SizeFor(cfg, account.equity, built.value.maxLoss);
          Continue(d.(strategy := Some(ScaleStrategy(built.value, quantity))))
  }

  function PortfolioOf(a: AccountSnapshot): PortfolioState {
    PortfolioState(a.equity, a.cash, a.dailyPl, a.openPositions, a.definedRiskCommitted, a.exposureByUnderlying)
  }

  /** Run the gates against the account as it is now. */
  function Judge(cfg: AgentConfig, account: AccountSnapshot, d: AgentDecision): AgentDecision
    requires d.strategy.Some?
  {
    d.(risk := Some(Evaluation(d.strategy.value, PortfolioOf(account), cfg.budget, d.ivRank)))
  }

  function FailedGates(gates: seq<GateResult>): seq<Gate> {
    if gates == [] then []
    else (if gates[0].passed then [] else [gates[0].gate]) + FailedGates(gates[1..])
  }

  ghost predicate Judged(d: AgentDecision) { d.signal.Some? && d.strategy.Some? && d.risk.Some? }

  /** Refuse, stop short of execution, or go on to the broker. */
  function Settle(d: AgentDecision, shouldExecute: bool): Stage
    requires Judged(d)
  {
    if !d.risk.value.Passed() then
      Stop(d.(status := Refused, reason := Some(RiskGates(FailedGates(d.risk.value.gates)))),
           "refusal", RefusalPayload(d.risk.value, d.signal.value))
    else if !shouldExecute then
      Stop(d.(status := Abstained, reason := Some(ExecutionDisabled)), "dry_run",
           DryRunPayload(d.strategy.value, d.risk.value))
    else Continue(d)
  }

  /** The broker's answer ends the pass. */
  function Conclude(d: AgentDecision, reply: Reply): Stage
    requires d.strategy.Some?
  {
    match reply
    case Rejected(exc) => Stop(d.(status := Error, reason := Some(OrderRejected(exc))), "error", ErrorPayload(exc))
    case Accepted(orderId, status) =>
      Stop(d.(status := Executed, orderId := Some(orderId)), "execution",
           ExecutionPayload(orderId, status, d.strategy.value))
  }

  function ShouldExecute(cfg: AgentConfig, execute: Option<bool>): bool {
    if execute.None? then cfg.execute else execute.value
  }

  /** From the sized strategy to the end of the pass. */
  function Finish(
    cfg: AgentConfig, account: AccountSnapshot, d: AgentDecision, shouldExecute: bool, reply: Reply): (r: Stage)
    requires d.strategy.Some? && d.signal.Some?
    ensures r.Stop?
  {
    var settled := Settle(Judge(cfg, account, d), shouldExecute);
    if settled.Stop? then settled else Conclude(settled.decision, reply)
  }

  /** A whole pass: its decision and its one journal line. */
  function Pass(
    cfg: AgentConfig, account: AccountSnapshot, symbol: string, execute: Option<bool>, io: AgentIo): (r: Stage)
    ensures r.Stop?
  {
    var proposed := Propose(cfg, account, Fresh(io.decisionId, symbol), io.market, io.signal, io.now);
    if proposed.Stop? then proposed
    else Finish(cfg, account, proposed.decision, ShouldExecute(cfg, execute), io.reply)
  }

  class TradingAgent {
    const cfg: AgentConfig
    const journal: TradingJournal
    var account: AccountSnapshot

    constructor (cfg: AgentConfig, journal: TradingJournal, account: AccountSnapshot)
      ensures this.cfg == cfg && this.journal == journal && this.account == account
    {
      this.cfg, this.journal, this.account := cfg, journal, account;
    }

    method Decide(symbol: string, execute: Option<bool>, io: AgentIo) returns (decision: AgentDecision)
      requires journal.Valid()
      modifies journal
      ensures journal.Valid()
      ensures var pass := Pass(cfg, account, symbol, execute, io);
              && decision == pass.decision
              && journal.entries == old(journal.entries)
                 + [NextEntry(journal.dg, old(journal.entries), pass.kind, symbol, pass.payload, io.ts)]
    {
      var shouldExecute := if execute.None? then cfg.execute else execute.value;
      decision := Fresh(io.decisionId, symbol);
      if io.market.MarketFailed? {
        decision := decision.(status := Error, reason := Some(MarketContextFailed(io.market.exc)));
        var _ := journal.Append("error", symbol, ErrorPayload(io.market.exc), io.ts);
        return;
      }
      decision := decision.(signal := io.signal, marketPrice := io.market.spot, ivRank := io.market.volRank);
      if io.signal.None? || io.signal.value.direction.AbstainSignal? {
        var reason := if io.signal.None? then NoSignal else NoEdge;
        decision := decision.(status := Abstained, reason := Some(reason));
        var _ := journal.Append("abstain", symbol, AbstainPayload(reason, None), io.ts);
        return;
      }
      var signal := io.signal.value;
      if signal.confidence < cfg.minConfidence {
        var reason := LowConfidence(signal.confidence, cfg.minConfidence);
        decision := decision.(status := Abstained, reason := Some(reason));
        var _ := journal.Append("abstain", symbol, AbstainPayload(reason, Some(signal.confidence)), io.ts);
        return;
      }
      if io.market.chain.None? || io.market.spot.None? {
        decision := decision.(status := Abstained, reason := Some(NoChain));
        var _ := journal.Append("abstain", symbol, AbstainPayload(NoChain, None), io.ts);
        return;
      }
      var chain := io.market.chain.value;
      var built := BuildStrategy(DirectionName(signal.direction), Upper(symbol), chain.expiration, io.now,
                                 chain.calls, chain.puts, SHORT_DELTA, 1, 1);
      if built.None? {
        decision := decision.(status := Abstained, reason := Some(NotConstructible));
        var _ := journal.Append("abstain", symbol, AbstainPayload(NotConstructible, None), io.ts);
        return;
      }
      var quantity := SizeFor(cfg, account.equity, built.value.maxLoss);
      var strategy := ScaleStrategy(built.value, quantity);
      decision := decision.(strategy := Some(strategy));
      decision := Trade(symbol, decision, shouldExecute, io);
    }

    /** From the sized strategy on: gates, dry run, order. */
    method Trade(
      symbol: string, proposed: AgentDecision, shouldExecute: bool, io: AgentIo)
      returns (decision: AgentDecision)
      requires journal.Valid() && proposed.strategy.Some? && proposed.signal.Some?
      modifies journal
      ensures journal.Valid()
      ensures var end := Finish(cfg, account, proposed, shouldExecute, io.reply);
              && decision == end.decision
              && journal.entries == old(journal.entries)
                 + [NextEntry(journal.dg, old(journal.entries), end.kind, symbol, end.payload, io.ts)]
    {
      decision := proposed;
      var strategy := decision.strategy.value;
      var risk := Evaluate(strategy, PortfolioOf(account), cfg.budget, decision.ivRank);
      decision := decision.(risk := Some(risk));
      if !risk.Passed() {
        decision := decision.(status := Refused, reason := Some(RiskGates(FailedGates(risk.gates))));
        var _ := journal.Append("refusal", symbol, RefusalPayload(risk, decision.signal.value), io.ts);
        return;
      }
      if !shouldExecute {
        decision := decision.(status := Abstained, reason := Some(ExecutionDisabled));
        var _ := journal.Append("dry_run", symbol, DryRunPayload(strategy, risk), io.ts);
        return;
      }
      match io.reply
      case Rejected(exc) =>
        decision := decision.(status := Error, reason := Some(OrderRejected(exc)));
        var _ := journal.Append("error", symbol, ErrorPayload(exc), io.ts);
      case Accepted(orderId, status) =>
        decision := decision.(status := Executed, orderId := Some(orderId));
        var _ := journal.Append("execution", symbol, ExecutionPayload(orderId, status, strategy), io.ts);
    }
  }
}
