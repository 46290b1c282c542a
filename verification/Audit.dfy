/** Which journal line belongs to which decision. */
module Audit {
  import opened Basics
  import opened TradingSchemas
  import opened Journal
  import opened Agent

  /** The kind of line a finished decision leaves. */
  function EntryKind(d: AgentDecision): string {
    match d.status
    case Executed => "execution"
    case Refused => "refusal"
    case Error => "error"
    case Abstained => if d.reason == Some(ExecutionDisabled) then "dry_run" else "abstain"
  }

  /** A payload that tells the same story as the decision. */
  ghost predicate Tells(p: Payload, d: AgentDecision) {
    match p
    case ErrorPayload(exc) => d.reason == Some(MarketContextFailed(exc)) || d.reason == Some(OrderRejected(exc))
    case AbstainPayload(reason, confidence) =>
      d.reason == Some(reason) && confidence == if reason.LowConfidence? then Some(reason.confidence) else None
    case RefusalPayload(risk, signal) => d.risk == Some(risk) && !risk.Passed() && d.signal == Some(signal)
    case DryRunPayload(strategy, risk) => d.strategy == Some(strategy) && d.risk == Some(risk) && risk.Passed()
    case ExecutionPayload(orderId, _, strategy) =>
      d.orderId == Some(orderId) && d.strategy == Some(strategy) && d.risk.Some? && d.risk.value.Passed()
  }

  ghost predicate Journals(e: JournalEntry, d: AgentDecision) {
    && e.kind == EntryKind(d) && Upper(e.symbol) == d.symbol && Tells(e.payload, d)
    && (d.status.Executed? <==> e.payload.ExecutionPayload?)
  }

  /** A stage that stops leaves the line its decision calls for. */
  ghost predicate Faithful(stage: Stage) {
    && stage.Stop? && stage.kind == EntryKind(stage.decision) && Tells(stage.payload, stage.decision)
    && (stage.decision.status.Executed? <==> stage.payload.ExecutionPayload?)
  }

  lemma {:induction false} ProposeIsFaithful(
    cfg: AgentConfig, a: AccountSnapshot, d: AgentDecision, market: Market, signal: Option<Signal>, now: int)
    requires d.status.Abstained?
    ensures var stage := Propose(cfg, a, d, market, signal, now);
            && stage.decision.symbol == d.symbol
            && (stage.Stop? ==> Faithful(stage))
            && (stage.Continue? ==>
                  stage.decision.status.Abstained? && stage.decision.strategy.Some? && stage.decision.signal.Some?)
  {
  }

  lemma {:induction false} SettleIsFaithful(d: AgentDecision, shouldExecute: bool)
    requires Agent.Judged(d)
    ensures var stage := Settle(d, shouldExecute);
            && stage.decision.symbol == d.symbol
            && (stage.Stop? ==> Faithful(stage)) && (stage.Continue? ==> stage.decision == d && d.risk.value.Passed())
  {
  }

  lemma {:induction false} ConcludeIsFaithful(d: AgentDecision, reply: Reply)
    requires d.strategy.Some? && d.risk.Some? && d.risk.value.Passed()
    ensures Faithful(Conclude(d, reply)) && Conclude(d, reply).decision.symbol == d.symbol
  {
  }

  /** Every pass ends with exactly the line its decision calls for. */
  lemma {:induction false} PassIsFaithful(
    cfg: AgentConfig, a: AccountSnapshot, symbol: string, execute: Option<bool>, io: AgentIo)
    ensures var pass := Pass(cfg, a, symbol, execute, io);
            Faithful(pass) && pass.decision.symbol == Upper(symbol)
  {
    var proposed := Propose(cfg, a, Fresh(io.decisionId, symbol), io.market, io.signal, io.now);
    ProposeIsFaithful(cfg, a, Fresh(io.decisionId, symbol), io.market, io.signal, io.now);
    if proposed.Continue? {
      var judged := Judge(cfg, a, proposed.decision);
      SettleIsFaithful(judged, ShouldExecute(cfg, execute));
      if judged.risk.value.Passed() { ConcludeIsFaithful(judged, io.reply); }
    }
  }
}
