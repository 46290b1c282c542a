/** How much the desk can have at risk when decisions run concurrently. */
module InterleavedSafety {
  import opened Basics
  import opened Options
  import opened Strategies
  import opened Risk
  import opened TradingSchemas
  import opened Journal
  import opened Agent
  import opened Book
  import opened Desk
  import opened Interleaving
  import D = DefinedRisk

  // ---- what is approved but not yet in the book ------------------------------

  /** Past the gates and on the way into the book. */
  ghost predicate Approved(t: Task) {
    match t.phase
    case Gated(d) => d.risk.Some? && d.risk.value.Passed()
    case Submitting(_) => true
    case Done(d) => d.status.Executed?
    case _ => false
  }

  ghost function Pending(ms: Measure, t: Task): real {
    if Approved(t) then Weigh(ms, t.phase.d) else 0.0
  }

  ghost function AllPending(ms: Measure, tasks: seq<Task>): real {
    if tasks == [] then 0.0 else AllPending(ms, tasks[..|tasks| - 1]) + Pending(ms, tasks[|tasks| - 1])
  }

  /** Decisions whose account snapshot has been taken. */
  ghost function Snapped(tasks: seq<Task>): nat {
    if tasks == [] then 0
    else Snapped(tasks[..|tasks| - 1]) + if tasks[|tasks| - 1].phase.Waiting? then 0 else 1
  }

  lemma {:induction false} TasksConcat(ms: Measure, a: seq<Task>, b: seq<Task>)
    ensures AllPending(ms, a + b) == AllPending(ms, a) + AllPending(ms, b)
    ensures Snapped(a + b) == Snapped(a) + Snapped(b)
  {
    if b == [] {
      assert a + b == a;
    } else {
      assert (a + b)[..|a + b| - 1] == a + b[..|b| - 1];
      TasksConcat(ms, a, b[..|b| - 1]);
    }
  }

  lemma {:induction false} TasksSplit(ms: Measure, tasks: seq<Task>, i: nat)
    requires i < |tasks|
    ensures AllPending(ms, tasks) == AllPending(ms, Without(tasks, i)) + Pending(ms, tasks[i])
    ensures Snapped(tasks) == Snapped(Without(tasks, i)) + if tasks[i].phase.Waiting? then 0 else 1
  {
    var a, b := tasks[..i], tasks[i + 1..];
    assert tasks == a + [tasks[i]] + b;
    assert [tasks[i]][..0] == [];
    TasksConcat(ms, a + [tasks[i]], b);
    TasksConcat(ms, a, [tasks[i]]);
    TasksConcat(ms, a, b);
  }

  lemma {:induction false} TasksUpdate(ms: Measure, tasks: seq<Task>, i: nat, t: Task)
    requires i < |tasks|
    ensures AllPending(ms, tasks[i := t]) == AllPending(ms, tasks) - Pending(ms, tasks[i]) + Pending(ms, t)
    ensures Snapped(tasks[i := t])
            == Snapped(tasks) - (if tasks[i].phase.Waiting? then 0 else 1) + (if t.phase.Waiting? then 0 else 1)
  {
    TasksSplit(ms, tasks, i);
    TasksSplit(ms, tasks[i := t], i);
    assert Without(tasks[i := t], i) == Without(tasks, i);
  }

  lemma {:induction false} SnappedAtMost(tasks: seq<Task>)
    ensures Snapped(tasks) <= |tasks|
  {
    if tasks != [] { SnappedAtMost(tasks[..|tasks| - 1]); }
  }

  // ---- limits -----------------------------------------------------------------

  /** The largest weight one approved decision can have when no equity reading exceeds `e`. */
  ghost function Cap(b: RiskBudget, e: real, ms: Measure): real {
    if ms.Positions? then 1.0 else Share(b.maxLossPerTradePct, e)
  }

  /** The budget's own limit on a measure. */
  ghost function Limit(b: RiskBudget, e: real, ms: Measure): real {
    match ms
    case AllRisk => Share(b.maxTotalDefinedRiskPct, e)
    case SymbolRisk(_) => Share(b.maxConcentrationPct, e)
    case Positions => b.maxOpenPositions as real
  }

  ghost predicate Sane(b: RiskBudget) { NonNegative(b) && b.maxOpenPositions >= 0 }

  ghost function Caps(n: int, cap: real): real { n as real * cap }

  lemma {:induction false} CapsLe(n: int, m: int, cap: real)
    requires n <= m && cap >= 0.0
    ensures Caps(n, cap) <= Caps(m, cap)
  {
    ScaleLe(n as real, m as real, cap);
  }

  lemma {:induction false} CapsAdd(n: int, m: int, cap: real)
    ensures Caps(n, cap) + Caps(m, cap) == Caps(n + m, cap)
    ensures Caps(0, cap) == 0.0 && Caps(1, cap) == cap
  {
  }

  lemma {:induction false} CapIsNonNegative(b: RiskBudget, e: real, ms: Measure)
    requires Sane(b) && e > 0.0
    ensures Cap(b, e, ms) >= 0.0 && Limit(b, e, ms) >= 0.0
  {
    ShareGrows(b.maxLossPerTradePct, 0.0, e);
    ShareGrows(b.maxTotalDefinedRiskPct, 0.0, e);
    ShareGrows(b.maxConcentrationPct, 0.0, e);
  }

  /** A decision fit for the book: finite loss within the per-trade cap, filed under its underlying. */
  ghost predicate Bookable(b: RiskBudget, e: real, d: AgentDecision) {
    && d.strategy.Some? && d.strategy.value.DefinedRisk() && d.symbol == d.strategy.value.underlying
    && D.Honest(d.strategy.value) && LossOf(d) <= Share(b.maxLossPerTradePct, e)
  }

  lemma {:induction false} BookableWeight(b: RiskBudget, e: real, ms: Measure, d: AgentDecision)
    requires Sane(b) && e > 0.0 && Bookable(b, e, d)
    ensures 0.0 <= Weigh(ms, d) <= Cap(b, e, ms)
  {
    CapIsNonNegative(b, e, ms);
  }

  /** What the gates guarantee about a measure, at the account they read. */
  lemma {:induction false} GatesBound(cfg: AgentConfig, a: AccountSnapshot, e: real, d: AgentDecision, ms: Measure)
    requires Sane(cfg.budget) && GateEquity(a.equity) <= e
    requires d.strategy.Some? && d.symbol == d.strategy.value.underlying && D.Honest(d.strategy.value)
    requires Judge(cfg, a, d).risk.value.Passed()
    ensures Bookable(cfg.budget, e, d)
    ensures Seen(ms, a) + Weigh(ms, d) <= Limit(cfg.budget, e, ms) || Weigh(ms, d) == 0.0
  {
    var s, p, b := d.strategy.value, PortfolioOf(a), cfg.budget;
    PassedMeansHardGates(s, p, b, d.ivRank);
    assert Holds(DefinedRiskGate, s, p, b, d.ivRank) && Holds(MaxLossPerTrade, s, p, b, d.ivRank);
    assert Holds(MaxLossTotal, s, p, b, d.ivRank) && Holds(Concentration, s, p, b, d.ivRank);
    assert Holds(OpenPositionsLimit, s, p, b, d.ivRank);
    ShareGrows(b.maxLossPerTradePct, GateEquity(a.equity), e);
    ShareGrows(b.maxTotalDefinedRiskPct, GateEquity(a.equity), e);
    ShareGrows(b.maxConcentrationPct, GateEquity(a.equity), e);
  }

  // ---- the invariant -----------------------------------------------------------

  ghost predicate TaskOk(b: RiskBudget, e: real, t: Task) {
    match t.phase
    case Waiting => true
    case Analysing(d) => !d.status.Executed?
    case Proposed(d) => d.strategy.Some? && d.symbol == d.strategy.value.underlying && D.Honest(d.strategy.value)
    case Gated(d) => Approved(t) ==> Bookable(b, e, d)
    case Submitting(d) => Bookable(b, e, d)
    case Done(d) => d.status.Executed? ==> Bookable(b, e, d)
  }

  ghost predicate AllOk(b: RiskBudget, e: real, m: Machine) {
    && GateEquity(m.desk.account.equity) <= e
    && (forall d :: d in m.desk.book ==> Bookable(b, e, d))
    && (forall t :: t in m.tasks ==> TaskOk(b, e, t))
  }

  /** `r` counts the decisions recorded since the shared account was last refreshed. Each of
      them, like every decision with a snapshot, was in flight at that refresh. */
  ghost predicate Bounded(b: RiskBudget, e: real, k: Pos, ms: Measure, m: Machine, r: nat) {
    && r + Snapped(m.tasks) <= k
    && Total(ms, m.desk.book) <= Seen(ms, m.desk.account) + Caps(r, Cap(b, e, ms))
    && Total(ms, m.desk.book) + AllPending(ms, m.tasks) <= Limit(b, e, ms) + Caps(k - 1, Cap(b, e, ms))
  }

  /** How an event changes the count of recordings since the last refresh. */
  ghost function Recordings(m: Machine, e: Event, r: nat): nat {
    if e.GetAccount? && e.i < |m.tasks| && m.tasks[e.i].phase.Waiting? && e.base.Some? then 0
    else if e.Record? && e.i < |m.tasks| && m.tasks[e.i].phase.Done? then r + 1
    else r
  }

  /** All approved weight fits under one cap a snapped decision, one of which is not approved. */
  lemma {:induction false} PendingAtMost(b: RiskBudget, e: real, ms: Measure, tasks: seq<Task>)
    requires Sane(b) && e > 0.0 && forall t :: t in tasks ==> TaskOk(b, e, t)
    ensures 0.0 <= AllPending(ms, tasks) <= Caps(Snapped(tasks), Cap(b, e, ms))
  {
    CapIsNonNegative(b, e, ms);
    CapsAdd(0, 0, Cap(b, e, ms));
    if tasks != [] {
      var before, t := tasks[..|tasks| - 1], tasks[|tasks| - 1];
      PendingAtMost(b, e, ms, before);
      CapsAdd(Snapped(before), 1, Cap(b, e, ms));
      assert TaskOk(b, e, t);
      if Approved(t) { BookableWeight(b, e, ms, t.phase.d); }
    }
  }

  lemma {:induction false} ConstructedIsHonest(
    direction: string, u: string, chain: OptionChain, now: int, cfg: AgentConfig, equity: real)
    ensures var built := BuildStrategy(direction, u, chain.expiration, now, chain.calls, chain.puts, SHORT_DELTA, 1, 1);
            built.Some? ==> D.Honest(ScaleStrategy(built.value, SizeFor(cfg, equity, built.value.maxLoss)))
  {
    var built := BuildStrategy(direction, u, chain.expiration, now, chain.calls, chain.puts, SHORT_DELTA, 1, 1);
    if built.Some? {
      D.DeskRiskIsDefined(direction, u, chain.expiration, now, chain.calls, chain.puts, SHORT_DELTA, 1,
                          SizeFor(cfg, equity, built.value.maxLoss));
    }
  }

  /** A sized proposal is the constructed strategy. */
  lemma {:induction false} ProposalIsConstructed(
    cfg: AgentConfig, a: AccountSnapshot, d: AgentDecision, market: Market, signal: Option<Signal>, now: int)
    requires Propose(cfg, a, d, market, signal, now).Continue?
    ensures var p := Propose(cfg, a, d, market, signal, now).decision;
            && market.MarketReady? && market.chain.Some? && signal.Some?
            && p.signal == signal && p.symbol == d.symbol && p.strategy.Some? && p.strategy.value.underlying == d.symbol
            && var chain := market.chain.value;
               var built := BuildStrategy(DirectionName(signal.value.direction), d.symbol, chain.expiration, now,
                                          chain.calls, chain.puts, SHORT_DELTA, 1, 1);
               && built.Some?
               && p.strategy.value == ScaleStrategy(built.value, SizeFor(cfg, a.equity, built.value.maxLoss))
  {
  }

  /** What a proposal is: an honest strategy on the decision's own symbol, or a stop without execution. */
  lemma {:induction false} ProposeShape(
    cfg: AgentConfig, a: AccountSnapshot, d: AgentDecision, market: Market, signal: Option<Signal>, now: int)
    requires !d.status.Executed?
    ensures var stage := Propose(cfg, a, d, market, signal, now);
            && (stage.Continue? ==> stage.decision.signal.Some? && stage.decision.strategy.Some?
                                    && stage.decision.symbol == stage.decision.strategy.value.underlying
                                    && D.Honest(stage.decision.strategy.value))
            && (stage.Stop? ==> !stage.decision.status.Executed?)
  {
    var stage := Propose(cfg, a, d, market, signal, now);
    if stage.Continue? {
      ProposalIsConstructed(cfg, a, d, market, signal, now);
      ConstructedIsHonest(DirectionName(signal.value.direction), d.symbol, market.chain.value, now, cfg, a.equity);
    }
  }

  /** Moving one task on without approving it keeps the bounds. */
  lemma {:induction false} MoveKeepsBounds(
    b: RiskBudget, e: real, k: Pos, ms: Measure, m: Machine, n: Machine, r: nat, i: nat, t: Task)
    requires i < |m.tasks| && Bounded(b, e, k, ms, m, r)
    requires n.desk.book == m.desk.book && n.desk.account == m.desk.account && n.tasks == m.tasks[i := t]
    requires !t.phase.Waiting? && !m.tasks[i].phase.Waiting? && Pending(ms, t) <= Pending(ms, m.tasks[i])
    ensures Bounded(b, e, k, ms, n, r)
  {
    TasksUpdate(ms, m.tasks, i, t);
  }

  lemma {:induction false} MoveKeepsOk(b: RiskBudget, e: real, m: Machine, n: Machine, i: nat, t: Task)
    requires i < |m.tasks| && AllOk(b, e, m) && TaskOk(b, e, t)
    requires n.desk.book == m.desk.book && n.desk.account == m.desk.account && n.tasks == m.tasks[i := t]
    ensures AllOk(b, e, n)
  {
  }

  lemma {:induction false} DropKeeps(b: RiskBudget, e: real, k: Pos, ms: Measure, m: Machine, r: nat, i: nat)
    requires Sane(b) && i < |m.tasks| && AllOk(b, e, m) && Bounded(b, e, k, ms, m, r)
    ensures AllOk(b, e, m.(tasks := Without(m.tasks, i))) && Bounded(b, e, k, ms, m.(tasks := Without(m.tasks, i)), r)
  {
    TasksSplit(ms, m.tasks, i);
    assert TaskOk(b, e, m.tasks[i]);
    if Approved(m.tasks[i]) { BookableWeight(b, e, ms, m.tasks[i].phase.d); }
  }

  lemma {:induction false} CloseKeeps(b: RiskBudget, e: real, k: Pos, ms: Measure, m: Machine, r: nat, id: string)
    requires Sane(b) && AllOk(b, e, m) && Bounded(b, e, k, ms, m, r)
    ensures var n := m.(desk := m.desk.(book := Remove(m.desk.book, id)));
            AllOk(b, e, n) && Bounded(b, e, k, ms, n, r)
  {
    CloseLowersTotals(ms, m.desk.book, id);
    var i := Find(m.desk.book, id);
    if i.Some? { BookableWeight(b, e, ms, m.desk.book[i.value]); }
  }

  /** A refreshed account is exact, and everyone with a snapshot is in flight. */
  lemma {:induction false} RefreshKeeps(
    cfg: AgentConfig, dg: Digest, e: real, k: Pos, ms: Measure, m: Machine, r: nat, i: nat,
    base: AccountSnapshot, id: string)
    requires Sane(cfg.budget) && AllOk(cfg.budget, e, m) && Bounded(cfg.budget, e, k, ms, m, r)
    requires i < |m.tasks| && m.tasks[i].phase.Waiting? && GateEquity(base.equity) <= e && |m.tasks| <= k
    ensures var n := Step(cfg, dg, m, GetAccount(i, Some(base), id));
            AllOk(cfg.budget, e, n) && Bounded(cfg.budget, e, k, ms, n, 0)
  {
    var t := m.tasks[i].(phase := Analysing(Fresh(id, m.tasks[i].symbol)));
    TasksUpdate(ms, m.tasks, i, t);
    SnappedAtMost(m.tasks[i := t]);
    SnapshotIsExact(ms, m.desk.book, base);
    CapsAdd(0, 0, Cap(cfg.budget, e, ms));
  }

  /** The one place where risk is added: the gates saw a stale account, but all that it misses
      was in flight with this decision when the account was refreshed. */
  lemma {:induction false} GatesKeep(
    cfg: AgentConfig, dg: Digest, e: real, k: Pos, ms: Measure, m: Machine, r: nat, i: nat)
    requires Sane(cfg.budget) && AllOk(cfg.budget, e, m) && Bounded(cfg.budget, e, k, ms, m, r)
    requires i < |m.tasks| && m.tasks[i].phase.Proposed?
    ensures var n := Step(cfg, dg, m, RunGates(i));
            AllOk(cfg.budget, e, n) && Bounded(cfg.budget, e, k, ms, n, r)
  {
    var b, d := cfg.budget, m.tasks[i].phase.d;
    assert TaskOk(b, e, m.tasks[i]);
    var judged := Judge(cfg, m.desk.account, d);
    var t := m.tasks[i].(phase := Gated(judged));
    TasksUpdate(ms, m.tasks, i, t);
    if Approved(t) {
      GatesBound(cfg, m.desk.account, e, d, ms);
      if Weigh(ms, d) != 0.0 { PendingWithoutOne(b, e, k, ms, m, r, i); }
    }
  }

  lemma {:induction false} PendingWithoutOne(b: RiskBudget, e: real, k: Pos, ms: Measure, m: Machine, r: nat, i: nat)
    requires Sane(b) && AllOk(b, e, m) && i < |m.tasks| && m.tasks[i].phase.Proposed? && r + Snapped(m.tasks) <= k
    ensures AllPending(ms, m.tasks) + Caps(r, Cap(b, e, ms)) <= Caps(k - 1, Cap(b, e, ms))
  {
    var rest, cap := Without(m.tasks, i), Cap(b, e, ms);
    TasksSplit(ms, m.tasks, i);
    PendingAtMost(b, e, ms, rest);
    CapIsNonNegative(b, e, ms);
    CapsAdd(Snapped(rest), r, cap);
    CapsLe(Snapped(rest) + r, k - 1, cap);
  }

  lemma {:induction false} RecordKeepsOk(cfg: AgentConfig, dg: Digest, e: real, m: Machine, i: nat)
    requires AllOk(cfg.budget, e, m) && i < |m.tasks| && m.tasks[i].phase.Done?
    ensures AllOk(cfg.budget, e, Step(cfg, dg, m, Record(i)))
  {
    var d := m.tasks[i].phase.d;
    assert TaskOk(cfg.budget, e, m.tasks[i]);
    forall x | x in Recorded(m.desk, d).book ensures Bookable(cfg.budget, e, x) {
      assert x == d || x in m.desk.book;
    }
  }

  /** Recording turns pending weight into book weight. */
  lemma {:induction false} RecordKeepsBounds(
    cfg: AgentConfig, dg: Digest, e: real, k: Pos, ms: Measure, m: Machine, r: nat, i: nat)
    requires Sane(cfg.budget) && AllOk(cfg.budget, e, m) && Bounded(cfg.budget, e, k, ms, m, r)
    requires i < |m.tasks| && m.tasks[i].phase.Done?
    ensures Bounded(cfg.budget, e, k, ms, Step(cfg, dg, m, Record(i)), r + 1)
  {
    var b, d := cfg.budget, m.tasks[i].phase.d;
    assert TaskOk(b, e, m.tasks[i]);
    TasksSplit(ms, m.tasks, i);
    CapIsNonNegative(b, e, ms);
    CapsAdd(r, 1, Cap(b, e, ms));
    if d.status.Executed? {
      BookableWeight(b, e, ms, d);
      OpenRaisesTotals(ms, m.desk.book, d);
      var j := Find(m.desk.book, d.decisionId);
      if j.Some? { BookableWeight(b, e, ms, m.desk.book[j.value]); }
    }
  }

  lemma {:induction false} AnalyseKeeps(
    cfg: AgentConfig, dg: Digest, e: real, k: Pos, ms: Measure, m: Machine, r: nat, i: nat,
    market: Market, signal: Option<Signal>, now: int, ts: string)
    requires AllOk(cfg.budget, e, m) && Bounded(cfg.budget, e, k, ms, m, r)
    requires i < |m.tasks| && m.tasks[i].phase.Analysing? && !m.tasks[i].phase.d.status.Executed?
    ensures var n := Step(cfg, dg, m, Analyse(i, market, signal, now, ts));
            AllOk(cfg.budget, e, n) && Bounded(cfg.budget, e, k, ms, n, r)
  {
    var d := m.tasks[i].phase.d;
    ProposeShape(cfg, m.desk.account, d, market, signal, now);
    var n := Step(cfg, dg, m, Analyse(i, market, signal, now, ts));
    MoveKeepsBounds(cfg.budget, e, k, ms, m, n, r, i, n.tasks[i]);
    MoveKeepsOk(cfg.budget, e, m, n, i, n.tasks[i]);
  }

  lemma {:induction false} VerdictKeeps(
    cfg: AgentConfig, dg: Digest, e: real, k: Pos, ms: Measure, m: Machine, r: nat, i: nat, ts: string)
    requires Sane(cfg.budget) && AllOk(cfg.budget, e, m) && Bounded(cfg.budget, e, k, ms, m, r)
    requires i < |m.tasks| && m.tasks[i].phase.Gated? && Judged(m.tasks[i].phase.d)
    ensures var n := Step(cfg, dg, m, ReadVerdict(i, ts));
            AllOk(cfg.budget, e, n) && Bounded(cfg.budget, e, k, ms, n, r)
  {
    assert TaskOk(cfg.budget, e, m.tasks[i]);
    if Approved(m.tasks[i]) { BookableWeight(cfg.budget, e, ms, m.tasks[i].phase.d); }
    var n := Step(cfg, dg, m, ReadVerdict(i, ts));
    MoveKeepsBounds(cfg.budget, e, k, ms, m, n, r, i, n.tasks[i]);
    MoveKeepsOk(cfg.budget, e, m, n, i, n.tasks[i]);
  }

  lemma {:induction false} ReplyKeeps(
    cfg: AgentConfig, dg: Digest, e: real, k: Pos, ms: Measure, m: Machine, r: nat, i: nat, reply: Reply, ts: string)
    requires Sane(cfg.budget) && AllOk(cfg.budget, e, m) && Bounded(cfg.budget, e, k, ms, m, r)
    requires i < |m.tasks| && m.tasks[i].phase.Submitting?
    ensures var n := Step(cfg, dg, m, BrokerReplies(i, reply, ts));
            AllOk(cfg.budget, e, n) && Bounded(cfg.budget, e, k, ms, n, r)
  {
    assert TaskOk(cfg.budget, e, m.tasks[i]);
    BookableWeight(cfg.budget, e, ms, m.tasks[i].phase.d);
    var n := Step(cfg, dg, m, BrokerReplies(i, reply, ts));
    MoveKeepsBounds(cfg.budget, e, k, ms, m, n, r, i, n.tasks[i]);
    MoveKeepsOk(cfg.budget, e, m, n, i, n.tasks[i]);
  }

  // ---- every run ---------------------------------------------------------------

  ghost predicate WithinEquity(e: real, ev: Event) {
    ev.GetAccount? && ev.base.Some? ==> GateEquity(ev.base.value.equity) <= e
  }

  lemma {:induction false} StepKeeps(
    cfg: AgentConfig, dg: Digest, e: real, k: Pos, ms: Measure, m: Machine, r: nat, ev: Event)
    requires Sane(cfg.budget) && AllOk(cfg.budget, e, m) && Bounded(cfg.budget, e, k, ms, m, r)
    requires |m.tasks| <= k && WithinEquity(e, ev)
    ensures AllOk(cfg.budget, e, Step(cfg, dg, m, ev))
    ensures Bounded(cfg.budget, e, k, ms, Step(cfg, dg, m, ev), Recordings(m, ev, r))
  {
    match ev
    case Begin(symbol, execute) =>
      var t := Task(symbol, execute, Waiting);
      assert (m.tasks + [t])[..|m.tasks|] == m.tasks;
    case Close(id) => CloseKeeps(cfg.budget, e, k, ms, m, r, id);
    case Kill =>
    case Resume =>
    case _ =>
      if ev.i < |m.tasks| { TaskStepKeeps(cfg, dg, e, k, ms, m, r, ev.i, ev); }
  }

  lemma {:induction false} TaskStepKeeps(
    cfg: AgentConfig, dg: Digest, e: real, k: Pos, ms: Measure, m: Machine, r: nat, i: nat, ev: Event)
    requires Sane(cfg.budget) && AllOk(cfg.budget, e, m) && Bounded(cfg.budget, e, k, ms, m, r)
    requires |m.tasks| <= k && WithinEquity(e, ev)
    requires !ev.Begin? && !ev.Close? && !ev.Kill? && !ev.Resume? && i == ev.i < |m.tasks|
    ensures AllOk(cfg.budget, e, Step(cfg, dg, m, ev))
    ensures Bounded(cfg.budget, e, k, ms, Step(cfg, dg, m, ev), Recordings(m, ev, r))
  {
    assert TaskOk(cfg.budget, e, m.tasks[i]);
    match (ev, m.tasks[i].phase)
    case (GetAccount(_, base, id), Waiting) =>
      if base.Some? { RefreshKeeps(cfg, dg, e, k, ms, m, r, i, base.value, id); }
      else { DropKeeps(cfg.budget, e, k, ms, m, r, i); }
    case (Analyse(_, market, signal, now, ts), Analysing(_)) =>
      AnalyseKeeps(cfg, dg, e, k, ms, m, r, i, market, signal, now, ts);
    case (RunGates(_), Proposed(_)) => GatesKeep(cfg, dg, e, k, ms, m, r, i);
    case (ReadVerdict(_, ts), Gated(d)) =>
      if Judged(d) { VerdictKeeps(cfg, dg, e, k, ms, m, r, i, ts); }
    case (BrokerReplies(_, reply, ts), Submitting(_)) => ReplyKeeps(cfg, dg, e, k, ms, m, r, i, reply, ts);
    case (Record(_), Done(_)) =>
      RecordKeepsOk(cfg, dg, e, m, i);
      RecordKeepsBounds(cfg, dg, e, k, ms, m, r, i);
    case (Abandon(_), _) => DropKeeps(cfg.budget, e, k, ms, m, r, i);
    case _ =>
  }

  /** At most `k` decisions in flight, now and after every event. */
  ghost predicate AtMostInFlight(cfg: AgentConfig, dg: Digest, m: Machine, events: seq<Event>, k: nat)
    decreases |events|
  {
    |m.tasks| <= k && (events != [] ==> AtMostInFlight(cfg, dg, Step(cfg, dg, m, events[0]), events[1..], k))
  }

  ghost predicate EquityAtMost(events: seq<Event>, e: real) {
    forall ev :: ev in events ==> WithinEquity(e, ev)
  }

  lemma {:induction false} RunKeeps(
    cfg: AgentConfig, dg: Digest, e: real, k: Pos, ms: Measure, m: Machine, r: nat, events: seq<Event>)
    requires Sane(cfg.budget) && AllOk(cfg.budget, e, m) && Bounded(cfg.budget, e, k, ms, m, r)
    requires AtMostInFlight(cfg, dg, m, events, k) && EquityAtMost(events, e)
    ensures var end := Run(cfg, dg, m, events);
            Total(ms, end.desk.book) + AllPending(ms, end.tasks)
              <= Limit(cfg.budget, e, ms) + Caps(k - 1, Cap(cfg.budget, e, ms))
    ensures AllOk(cfg.budget, e, Run(cfg, dg, m, events))
    decreases |events|
  {
    if events != [] {
      StepKeeps(cfg, dg, e, k, ms, m, r, events[0]);
      RunKeeps(cfg, dg, e, k, ms, Step(cfg, dg, m, events[0]), Recordings(m, events[0], r), events[1..]);
    }
  }

  lemma {:induction false} EveryRunIsOk(cfg: AgentConfig, dg: Digest, e: real, k: Pos, events: seq<Event>)
    requires Sane(cfg.budget) && e >= 0.000001
    requires AtMostInFlight(cfg, dg, IDLE, events, k) && EquityAtMost(events, e)
    ensures AllOk(cfg.budget, e, Run(cfg, dg, IDLE, events))
  {
    CapIsNonNegative(cfg.budget, e, AllRisk);
    CapsAdd(0, 0, Cap(cfg.budget, e, AllRisk));
    CapsLe(0, k - 1, Cap(cfg.budget, e, AllRisk));
    RunKeeps(cfg, dg, e, k, AllRisk, IDLE, 0, events);
  }

  /** The bound under concurrency: with at most `k` decisions in flight and no equity reading
      above `e`, the book and everything approved on its way into it stay within the budget's
      limit plus `k - 1` per-trade caps, in total risk, in every symbol, and in positions. */
  lemma {:induction false} ConcurrentRiskIsBounded(
    cfg: AgentConfig, dg: Digest, e: real, k: Pos, ms: Measure, events: seq<Event>)
    requires Sane(cfg.budget) && e >= 0.000001
    requires AtMostInFlight(cfg, dg, IDLE, events, k) && EquityAtMost(events, e)
    ensures var end := Run(cfg, dg, IDLE, events);
            && Total(ms, end.desk.book) + AllPending(ms, end.tasks)
               <= Limit(cfg.budget, e, ms) + Caps(k - 1, Cap(cfg.budget, e, ms))
            && Total(ms, end.desk.book) <= Limit(cfg.budget, e, ms) + Caps(k - 1, Cap(cfg.budget, e, ms))
  {
    var cap := Cap(cfg.budget, e, ms);
    CapIsNonNegative(cfg.budget, e, ms);
    CapsAdd(0, 0, cap);
    CapsLe(0, k - 1, cap);
    RunKeeps(cfg, dg, e, k, ms, IDLE, 0, events);
    EveryRunIsOk(cfg, dg, e, k, events);
    PendingAtMost(cfg.budget, e, ms, Run(cfg, dg, IDLE, events).tasks);
  }
}
