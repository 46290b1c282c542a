/** What a pass decides, in terms of what it was given (services/trading/agent.py). */
module Decisions {
  import opened Basics
  import opened Options
  import opened Strategies
  import opened Risk
  import opened TradingSchemas
  import opened Journal
  import opened Agent
  import opened Book
  import opened Desk
  import opened Interleaving
  import R = DeskRuns
  import A = InterleavedAudit

  // ---- one pass --------------------------------------------------------------

  /** A confident view on a market with a price and a chain. */
  ghost predicate Workable(cfg: AgentConfig, market: Market, signal: Option<Signal>) {
    && market.MarketReady? && market.spot.Some? && market.chain.Some?
    && signal.Some? && !signal.value.direction.AbstainSignal? && signal.value.confidence >= cfg.minConfidence
  }

  /** The one-contract strategy a view calls for, at a short delta of 0.30 and a width of one strike. */
  ghost function Called(view: SignalDirection, symbol: string, chain: OptionChain, now: int): Option<OptionStrategy> {
    match view
    case Bullish => BullPutSpread(symbol, chain.expiration, now, chain.puts, 0.30, 1, 1)
    case Bearish => BearCallSpread(symbol, chain.expiration, now, chain.calls, 0.30, 1, 1)
    case Neutral => IronCondor(symbol, chain.expiration, now, chain.calls, chain.puts, 0.30, 1, 1)
    case AbstainSignal => None
  }

  /** The sized strategy, if the pass gets that far. */
  ghost function Sought(
    cfg: AgentConfig, equity: real, symbol: string, market: Market, signal: Option<Signal>, now: int)
    : Option<OptionStrategy>
  {
    if !Workable(cfg, market, signal) then None else
      var one := Called(signal.value.direction, symbol, market.chain.value, now);
      if one.None? then None else Some(ScaleStrategy(one.value, SizeFor(cfg, equity, one.value.maxLoss)))
  }

  /** The override if there is one, else the agent's own setting. */
  ghost predicate Allowed(cfg: AgentConfig, execute: Option<bool>) {
    execute == Some(true) || (execute.None? && cfg.execute)
  }

  ghost function PortfolioOn(a: AccountSnapshot): PortfolioState {
    PortfolioState(a.equity, a.cash, a.dailyPl, a.openPositions, a.definedRiskCommitted, a.exposureByUnderlying)
  }

  lemma {:induction false} ProposalIsSought(
    cfg: AgentConfig, a: AccountSnapshot, d: AgentDecision, market: Market, signal: Option<Signal>, now: int)
    requires d.strategy.None? && d.status.Abstained?
    ensures var stage := Propose(cfg, a, d, market, signal, now);
            && stage.decision.strategy == Sought(cfg, a.equity, d.symbol, market, signal, now)
            && (stage.Continue? <==> Sought(cfg, a.equity, d.symbol, market, signal, now).Some?)
            && (stage.decision.status.Error? <==> market.MarketFailed?)
            && (stage.decision.status.Abstained? || stage.decision.status.Error?)
            && stage.decision.symbol == d.symbol && stage.decision.decisionId == d.decisionId
            && stage.decision.orderId == d.orderId && stage.decision.risk == d.risk
            && (market.MarketReady? ==> stage.decision.signal == signal && stage.decision.ivRank == market.volRank
                                        && stage.decision.marketPrice == market.spot)
  {
  }

  /** Why a pass abstains before the gates: the first obstacle, in the order they are looked for. */
  lemma {:induction false} AbstentionReasons(
    cfg: AgentConfig, a: AccountSnapshot, symbol: string, execute: Option<bool>, io: AgentIo)
    requires io.market.MarketReady? && Pass(cfg, a, symbol, execute, io).decision.risk.None?
    ensures var d := Pass(cfg, a, symbol, execute, io).decision;
            && d.status.Abstained? && d.orderId.None?
            && d.reason == Some(
                 if io.signal.None? then NoSignal
                 else if io.signal.value.direction.AbstainSignal? then NoEdge
                 else if io.signal.value.confidence < cfg.minConfidence
                 then LowConfidence(io.signal.value.confidence, cfg.minConfidence)
                 else if io.market.chain.None? || io.market.spot.None? then NoChain
                 else NotConstructible)
  {
    StopsAtTheFirst(cfg, a, Fresh(io.decisionId, symbol), io.market, io.signal, io.now);
  }

  lemma {:induction false} StopsAtTheFirst(
    cfg: AgentConfig, a: AccountSnapshot, d: AgentDecision, market: Market, signal: Option<Signal>, now: int)
    requires market.MarketReady? && d.status.Abstained?
    requires Propose(cfg, a, d, market, signal, now).Stop?
    ensures var r := Propose(cfg, a, d, market, signal, now).decision;
            && r.status.Abstained? && r.orderId == d.orderId
            && r.reason == Some(
                 if signal.None? then NoSignal
                 else if signal.value.direction.AbstainSignal? then NoEdge
                 else if signal.value.confidence < cfg.minConfidence
                 then LowConfidence(signal.value.confidence, cfg.minConfidence)
                 else if market.chain.None? || market.spot.None? then NoChain
                 else NotConstructible)
  {
  }

  /** The decision of a whole pass: what is sought is acceptable on the account as it stands, execution
      is allowed, and the broker accepts; anything else ends in a refusal, an error or an abstention. */
  lemma {:induction false} PassDecides(
    cfg: AgentConfig, a: AccountSnapshot, symbol: string, execute: Option<bool>, io: AgentIo)
    ensures var d := Pass(cfg, a, symbol, execute, io).decision;
            var sought := Sought(cfg, a.equity, Upper(symbol), io.market, io.signal, io.now);
            var fit := sought.Some? && Acceptable(sought.value, PortfolioOn(a), cfg.budget);
            && d.decisionId == io.decisionId && d.symbol == Upper(symbol) && d.strategy == sought
            && (d.status.Executed? <==> fit && Allowed(cfg, execute) && io.reply.Accepted?)
            && (d.status.Refused? <==> sought.Some? && !fit)
            && (d.status.Error? <==> io.market.MarketFailed? || (fit && Allowed(cfg, execute) && io.reply.Rejected?))
            && (d.reason == Some(ExecutionDisabled) <==> fit && !Allowed(cfg, execute))
            && (d.orderId.Some? <==> d.status.Executed?)
            && (d.status.Executed? ==> d.orderId == Some(io.reply.orderId))
            && (d.risk.Some? <==> sought.Some?)
  {
    var start := Fresh(io.decisionId, symbol);
    ProposalIsSought(cfg, a, start, io.market, io.signal, io.now);
    var proposed := Propose(cfg, a, start, io.market, io.signal, io.now);
    if proposed.Continue? {
      FinishDecides(cfg, a, proposed.decision, ShouldExecute(cfg, execute), io.reply);
    } else {
      StopReasons(cfg, a, start, io.market, io.signal, io.now);
    }
  }

  lemma {:induction false} StopReasons(
    cfg: AgentConfig, a: AccountSnapshot, d: AgentDecision, market: Market, signal: Option<Signal>, now: int)
    requires d.reason.None?
    ensures Propose(cfg, a, d, market, signal, now).decision.reason != Some(ExecutionDisabled)
  {
  }

  lemma {:induction false} FinishDecides(
    cfg: AgentConfig, a: AccountSnapshot, p: AgentDecision, go: bool, reply: Reply)
    requires p.strategy.Some? && p.signal.Some? && p.status.Abstained? && p.orderId.None?
    requires p.reason.None?
    ensures var d := Finish(cfg, a, p, go, reply).decision;
            var fit := Acceptable(p.strategy.value, PortfolioOn(a), cfg.budget);
            && d.decisionId == p.decisionId && d.symbol == p.symbol && d.strategy == p.strategy && d.risk.Some?
            && (d.status.Executed? <==> fit && go && reply.Accepted?)
            && (d.status.Refused? <==> !fit)
            && (d.status.Error? <==> fit && go && reply.Rejected?)
            && (d.reason == Some(ExecutionDisabled) <==> fit && !go)
            && (d.orderId.Some? <==> d.status.Executed?)
            && (d.status.Executed? ==> d.orderId == Some(reply.orderId))
  {
    VerdictInFigures(p.strategy.value, PortfolioOf(a), cfg.budget, p.ivRank);
  }

  /** A refusal names exactly the gates that failed. */
  lemma {:induction false} FailedGatesExactly(gates: seq<GateResult>)
    ensures forall gate :: gate in FailedGates(gates) <==>
              exists i :: 0 <= i < |gates| && gates[i].gate == gate && !gates[i].passed
  {
    if gates != [] {
      FailedGatesExactly(gates[1..]);
      forall gate
        ensures gate in FailedGates(gates)
                <==> exists i :: 0 <= i < |gates| && gates[i].gate == gate && !gates[i].passed
      {
        if gate in FailedGates(gates[1..]) {
          var i :| 0 <= i < |gates[1..]| && gates[1..][i].gate == gate && !gates[1..][i].passed;
          assert gates[i + 1].gate == gate && !gates[i + 1].passed;
        }
        if i :| 0 <= i < |gates| && gates[i].gate == gate && !gates[i].passed {
          if i > 0 { assert gates[1..][i - 1].gate == gate && !gates[1..][i - 1].passed; }
        }
      }
    }
  }

  // ---- one decision of the desk ----------------------------------------------

  /** The portfolio a decision is judged on: the account as just read, and the book. */
  ghost function PortfolioAt(book: seq<AgentDecision>, base: AccountSnapshot): PortfolioState {
    PortfolioState(base.equity, base.cash, base.dailyPl, |book|, Total(AllRisk, book), Exposures(book))
  }

  /** A live desk that reads its account executes exactly what is sought, acceptable, allowed and
      accepted; it then holds that decision in place of any of the same id, and all others as before. */
  lemma {:induction false} DeskDecides(cfg: AgentConfig, dg: Digest, s: DeskState, call: DeskCall)
    requires !s.kill && call.base.Some?
    ensures var d := DecideResult(cfg, s, call);
            var base := call.base.value;
            var sought := Sought(cfg, base.equity, Upper(call.symbol), call.io.market, call.io.signal, call.io.now);
            && d.Some? && d.value.strategy == sought
            && (d.value.status.Executed? <==>
                  && sought.Some? && Acceptable(sought.value, PortfolioAt(s.book, base), cfg.budget)
                  && Allowed(cfg, call.execute) && call.io.reply.Accepted?)
  {
    PassDecides(cfg, SnapshotOf(s.book, call.base.value), call.symbol, call.execute, call.io);
  }

  /** What a decision does to the desk. */
  lemma {:induction false} DeskRecords(cfg: AgentConfig, dg: Digest, s: DeskState, call: DeskCall)
    requires !s.kill && call.base.Some? && R.DistinctIds(s.book)
    ensures var d := DecideResult(cfg, s, call).value;
            var after := DecideState(cfg, dg, s, call);
            && after.log == s.log + [d]
            && |after.journal| == |s.journal| + 1 && after.journal[..|s.journal|] == s.journal
            && after.kill == s.kill && after.account.equity == call.base.value.equity
            && after.account.cash == call.base.value.cash && after.account.dailyPl == call.base.value.dailyPl
            && after.account.buyingPower == call.base.value.buyingPower
            && forall e :: e in after.book <==>
                 if d.status.Executed? then e == d || (e in s.book && e.decisionId != d.decisionId) else e in s.book
  {
    var d := DecideResult(cfg, s, call).value;
    if d.status.Executed? { OpenedHolds(s.book, d); }
  }

  lemma {:induction false} OpenedHolds(book: seq<AgentDecision>, d: AgentDecision)
    requires R.DistinctIds(book)
    ensures forall e :: e in Opened(book, d) <==> e == d || (e in book && e.decisionId != d.decisionId)
  {
    var i := Find(book, d.decisionId);
    forall e ensures e in Opened(book, d) <==> e == d || (e in book && e.decisionId != d.decisionId) {
      if i.Some? {
        assert Opened(book, d)[i.value] == d;
        if e in book && e.decisionId != d.decisionId {
          var j :| 0 <= j < |book| && book[j] == e;
          assert Opened(book, d)[j] == e;
        }
      } else {
        assert Opened(book, d)[|book|] == d;
      }
    }
  }

  // ---- histories -------------------------------------------------------------

  /** An executed decision, and a call of the history that accounts for it: execution was allowed, the
      broker took the order, and the account read covered the loss, was above the daily floor and had
      room, with the expiration in the window. */
  ghost predicate AccountedFor(cfg: AgentConfig, d: AgentDecision, call: DeskCall) {
    && Allowed(cfg, call.execute) && call.io.reply.Accepted? && d.orderId == Some(call.io.reply.orderId)
    && call.base.Some? && d.strategy.Some? && Covered(d.strategy.value, call.base.value, cfg.budget)
  }

  /** The account's cash covers the loss, its day is above the floor, and the expiration is in the window. */
  ghost predicate Covered(s: OptionStrategy, base: AccountSnapshot, b: RiskBudget) {
    var equity := if base.equity >= 0.000001 then base.equity else 0.000001;
    && s.maxLoss.Some? && 0.0 <= s.maxLoss.value <= base.cash
    && s.maxLoss.value <= b.maxLossPerTradePct * equity
    && base.dailyPl > -(b.dailyLossLimitPct * equity)
    && (s.daysToExpiration.Some? ==> b.minDte <= s.daysToExpiration.value <= b.maxDte)
  }

  lemma {:induction false} AcceptableIsCovered(
    s: OptionStrategy, p: PortfolioState, base: AccountSnapshot, b: RiskBudget)
    requires p.equity == base.equity && p.cash == base.cash && p.dailyPl == base.dailyPl && Acceptable(s, p, b)
    ensures Covered(s, base, b)
  {
  }

  function CallsOf(ops: seq<R.Op>): seq<DeskCall> {
    if ops == [] then [] else
      (match ops[0] case Decide(call) => [call] case Cycle(calls) => calls case _ => []) + CallsOf(ops[1..])
  }

  ghost predicate AllAccountedFor(cfg: AgentConfig, log: seq<AgentDecision>, calls: seq<DeskCall>) {
    forall d :: d in log && d.status.Executed? ==> exists call :: call in calls && AccountedFor(cfg, d, call)
  }

  lemma {:induction false} CallAccounts(cfg: AgentConfig, s: DeskState, call: DeskCall)
    requires !s.kill && call.base.Some?
    ensures var d := DecideResult(cfg, s, call);
            d.Some? && (d.value.status.Executed? ==> AccountedFor(cfg, d.value, call))
  {
    var a := SnapshotOf(s.book, call.base.value);
    PassDecides(cfg, a, call.symbol, call.execute, call.io);
    var d := DecideResult(cfg, s, call).value;
    if d.status.Executed? { AcceptableIsCovered(d.strategy.value, PortfolioOn(a), call.base.value, cfg.budget); }
  }

  lemma {:induction false} DecideAccounts(
    cfg: AgentConfig, dg: Digest, s: DeskState, call: DeskCall, calls: seq<DeskCall>)
    requires AllAccountedFor(cfg, s.log, calls) && call in calls
    ensures AllAccountedFor(cfg, DecideState(cfg, dg, s, call).log, calls)
  {
    if !s.kill && call.base.Some? {
      var d := DecideResult(cfg, s, call).value;
      CallAccounts(cfg, s, call);
      assert DecideState(cfg, dg, s, call).log == s.log + [d];
    }
  }

  lemma {:induction false} CycleAccounts(
    cfg: AgentConfig, dg: Digest, s: DeskState, cycle: seq<DeskCall>, calls: seq<DeskCall>)
    requires AllAccountedFor(cfg, s.log, calls) && forall call :: call in cycle ==> call in calls
    ensures AllAccountedFor(cfg, CycleState(cfg, dg, s, cycle).log, calls)
    decreases |cycle|
  {
    if cycle != [] && !s.kill && cycle[0].base.Some? {
      DecideAccounts(cfg, dg, s, cycle[0], calls);
      CycleAccounts(cfg, dg, DecideState(cfg, dg, s, cycle[0]), cycle[1..], calls);
    }
  }

  lemma {:induction false} RunAccounts(
    cfg: AgentConfig, dg: Digest, s: DeskState, ops: seq<R.Op>, calls: seq<DeskCall>)
    requires AllAccountedFor(cfg, s.log, calls) && forall call :: call in CallsOf(ops) ==> call in calls
    ensures AllAccountedFor(cfg, R.RunOps(cfg, dg, s, ops).log, calls)
    decreases |ops|
  {
    if ops != [] {
      match ops[0] {
        case Decide(call) => assert call in CallsOf(ops); DecideAccounts(cfg, dg, s, call, calls);
        case Cycle(cycle) =>
          assert forall call :: call in cycle ==> call in CallsOf(ops);
          CycleAccounts(cfg, dg, s, cycle, calls);
        case _ =>
      }
      RunAccounts(cfg, dg, R.Apply(cfg, dg, s, ops[0]), ops[1..], calls);
    }
  }

  /** In every sequential history, each executed decision goes back to a call that allowed execution, on
      an account that covered its loss, above the daily floor and inside the expiration window. */
  lemma {:induction false} ExecutionsAreAccountedFor(cfg: AgentConfig, dg: Digest, ops: seq<R.Op>)
    ensures AllAccountedFor(cfg, R.RunOps(cfg, dg, START, ops).log, CallsOf(ops))
  {
    RunAccounts(cfg, dg, START, ops, CallsOf(ops));
  }

  // ---- dry runs among decisions in flight ------------------------------------

  /** Only tasks allowed to execute are at the broker or have executed. */
  ghost predicate Obedient(cfg: AgentConfig, t: Task) {
    t.phase.Submitting? || (t.phase.Done? && t.phase.d.status.Executed?) ==> Allowed(cfg, t.execute)
  }

  ghost predicate AllObedient(cfg: AgentConfig, tasks: seq<Task>) { forall t :: t in tasks ==> Obedient(cfg, t) }

  /** Before the broker a decision has not executed. */
  ghost predicate Unexecuted(t: Task) {
    match t.phase
    case Waiting => true
    case Done(_) => true
    case _ => !t.phase.d.status.Executed?
  }

  ghost predicate AllUnexecuted(tasks: seq<Task>) { forall t :: t in tasks ==> Unexecuted(t) }

  /** An event leads a task only to where its permission allows. */
  ghost predicate Dutiful(cfg: AgentConfig, t: Task, f: A.Effect) {
    match f
    case Staged(stage, _, next) =>
      && (stage.Stop? && stage.decision.status.Executed? ==> Allowed(cfg, t.execute))
      && (stage.Stop? && stage.kind == "execution" ==> Allowed(cfg, t.execute))
      && (stage.Continue? ==> Obedient(cfg, t.(phase := next)) && Unexecuted(t.(phase := next)))
    case Moved(next) => Obedient(cfg, t.(phase := next)) && Unexecuted(t.(phase := next))
    case _ => true
  }

  lemma {:induction false} EffectIsDutiful(cfg: AgentConfig, m: Machine, i: nat, e: Event)
    requires i < |m.tasks| && Obedient(cfg, m.tasks[i]) && Unexecuted(m.tasks[i])
    ensures Dutiful(cfg, m.tasks[i], A.EffectOf(cfg, m, i, e))
  {
  }

  lemma {:induction false} TaskStepObeys(cfg: AgentConfig, dg: Digest, m: Machine, i: nat, e: Event)
    requires i < |m.tasks| && Obedient(cfg, m.tasks[i]) && Unexecuted(m.tasks[i])
    ensures var n := TaskStep(cfg, dg, m, i, e);
            || n.tasks == Without(m.tasks, i)
            || (|n.tasks| == |m.tasks| && n.tasks == m.tasks[i := n.tasks[i]]
                && Obedient(cfg, n.tasks[i]) && Unexecuted(n.tasks[i]))
    ensures forall entry :: entry in TaskStep(cfg, dg, m, i, e).desk.journal ==>
              entry in m.desk.journal || (entry.kind == "execution" ==> Allowed(cfg, m.tasks[i].execute))
    ensures forall d :: d in TaskStep(cfg, dg, m, i, e).desk.book ==>
              d in m.desk.book || Allowed(cfg, m.tasks[i].execute)
  {
    EffectIsDutiful(cfg, m, i, e);
    A.StepFollows(cfg, dg, m, i, e);
    EffectObeys(cfg, dg, m, i, A.EffectOf(cfg, m, i, e), TaskStep(cfg, dg, m, i, e));
  }

  lemma {:induction false} EffectObeys(cfg: AgentConfig, dg: Digest, m: Machine, i: nat, f: A.Effect, n: Machine)
    requires i < |m.tasks| && Obedient(cfg, m.tasks[i]) && Unexecuted(m.tasks[i])
    requires Dutiful(cfg, m.tasks[i], f) && A.Follows(dg, m, i, f, n)
    ensures || n.tasks == Without(m.tasks, i)
            || (|n.tasks| == |m.tasks| && n.tasks == m.tasks[i := n.tasks[i]]
                && Obedient(cfg, n.tasks[i]) && Unexecuted(n.tasks[i]))
    ensures forall entry :: entry in n.desk.journal ==>
              entry in m.desk.journal || (entry.kind == "execution" ==> Allowed(cfg, m.tasks[i].execute))
    ensures forall d :: d in n.desk.book ==> d in m.desk.book || Allowed(cfg, m.tasks[i].execute)
  {
  }

  lemma {:induction false} StepObeys(cfg: AgentConfig, dg: Digest, m: Machine, e: Event)
    requires AllObedient(cfg, m.tasks) && AllUnexecuted(m.tasks)
    ensures AllObedient(cfg, Step(cfg, dg, m, e).tasks) && AllUnexecuted(Step(cfg, dg, m, e).tasks)
  {
    if !e.Begin? && !e.Close? && !e.Kill? && !e.Resume? && e.i < |m.tasks| {
      assert m.tasks[e.i] in m.tasks;
      TaskStepObeys(cfg, dg, m, e.i, e);
    }
  }

  lemma {:induction false} RunObeys(cfg: AgentConfig, dg: Digest, m: Machine, events: seq<Event>)
    requires AllObedient(cfg, m.tasks) && AllUnexecuted(m.tasks)
    ensures AllObedient(cfg, Run(cfg, dg, m, events).tasks)
    decreases |events|
  {
    if events != [] {
      StepObeys(cfg, dg, m, events[0]);
      RunObeys(cfg, dg, Step(cfg, dg, m, events[0]), events[1..]);
    }
  }

  /** However decisions interleave, one that was not allowed to execute is never at the broker and never
      executed. */
  lemma {:induction false} OnlyAllowedTasksTrade(cfg: AgentConfig, dg: Digest, events: seq<Event>)
    ensures forall t :: t in Run(cfg, dg, IDLE, events).tasks && !Allowed(cfg, t.execute) ==>
              !t.phase.Submitting? && !(t.phase.Done? && t.phase.d.status.Executed?)
  {
    RunObeys(cfg, dg, IDLE, events);
  }

  /** No decision may execute. */
  ghost predicate DryEvents(cfg: AgentConfig, events: seq<Event>) {
    forall e :: e in events && e.Begin? ==> !Allowed(cfg, e.execute)
  }

  ghost predicate DryMachine(cfg: AgentConfig, m: Machine) {
    && AllObedient(cfg, m.tasks) && AllUnexecuted(m.tasks) && m.desk.book == []
    && (forall t :: t in m.tasks ==> !Allowed(cfg, t.execute))
    && (forall entry :: entry in m.desk.journal ==> entry.kind != "execution")
  }

  lemma {:induction false} DryStep(cfg: AgentConfig, dg: Digest, m: Machine, e: Event)
    requires DryMachine(cfg, m) && (e.Begin? ==> !Allowed(cfg, e.execute))
    ensures DryMachine(cfg, Step(cfg, dg, m, e))
  {
    StepObeys(cfg, dg, m, e);
    if !e.Begin? && !e.Close? && !e.Kill? && !e.Resume? && e.i < |m.tasks| {
      assert m.tasks[e.i] in m.tasks;
      TaskStepObeys(cfg, dg, m, e.i, e);
      NothingIn(TaskStep(cfg, dg, m, e.i, e).desk.book);
      DryTasks(cfg, dg, m, e.i, e);
    }
  }

  lemma {:induction false} NothingIn(book: seq<AgentDecision>)
    ensures (forall d :: d !in book) ==> book == []
  {
    if book != [] { assert book[0] in book; }
  }

  lemma {:induction false} DryTasks(cfg: AgentConfig, dg: Digest, m: Machine, i: nat, e: Event)
    requires i < |m.tasks| && forall t :: t in m.tasks ==> !Allowed(cfg, t.execute)
    ensures forall t :: t in TaskStep(cfg, dg, m, i, e).tasks ==> !Allowed(cfg, t.execute)
  {
    assert m.tasks[i] in m.tasks;
  }

  lemma {:induction false} DryRun(cfg: AgentConfig, dg: Digest, m: Machine, events: seq<Event>)
    requires DryMachine(cfg, m) && DryEvents(cfg, events)
    ensures DryMachine(cfg, Run(cfg, dg, m, events))
    decreases |events|
  {
    if events != [] {
      DryStep(cfg, dg, m, events[0]);
      DryRun(cfg, dg, Step(cfg, dg, m, events[0]), events[1..]);
    }
  }

  /** A desk all of whose decisions are dry runs journals no execution and opens no position, whatever
      the signals, the accounts and the broker say. */
  lemma {:induction false} DryDeskNeverTrades(cfg: AgentConfig, dg: Digest, events: seq<Event>)
    requires DryEvents(cfg, events)
    ensures var end := Run(cfg, dg, IDLE, events);
            end.desk.book == [] && forall entry :: entry in end.desk.journal ==> entry.kind != "execution"
  {
    DryRun(cfg, dg, IDLE, events);
  }
}
