/** Sequential histories of the desk: any order of decisions, cycles, closings, kills and resumes. */
module DeskRuns {
  import opened Basics
  import opened Risk
  import opened TradingSchemas
  import opened Journal
  import opened Agent
  import opened Book
  import opened Desk
  import opened Audit
  import I = Interleaving
  import S = InterleavedSafety
  import D = DefinedRisk

  datatype Op = Decide(call: DeskCall) | Cycle(calls: seq<DeskCall>) | Close(decisionId: string) | Kill | Resume

  /** Equity read by the latest execution: overall, and for each symbol. */
  datatype History = History(latest: Option<real>, bySymbol: map<string, real>)

  function Apply(cfg: AgentConfig, dg: Digest, s: DeskState, op: Op): DeskState {
    match op
    case Decide(call) => DecideState(cfg, dg, s, call)
    case Cycle(calls) => CycleState(cfg, dg, s, calls)
    case Close(id) => s.(book := Remove(s.book, id))
    case Kill => s.(kill := true)
    case Resume => s.(kill := false)
  }

  function RunOps(cfg: AgentConfig, dg: Digest, s: DeskState, ops: seq<Op>): DeskState
    decreases |ops|
  {
    if ops == [] then s else RunOps(cfg, dg, Apply(cfg, dg, s, ops[0]), ops[1..])
  }

  /** Did this call execute, and at which equity? */
  function Noted(cfg: AgentConfig, s: DeskState, call: DeskCall, h: History): History {
    var d := DecideResult(cfg, s, call);
    if s.kill || d.None? || !d.value.status.Executed? then h
    else History(Some(call.base.value.equity), h.bySymbol[d.value.symbol := call.base.value.equity])
  }

  function CycleHistory(cfg: AgentConfig, dg: Digest, s: DeskState, calls: seq<DeskCall>, h: History): History
    decreases |calls|
  {
    if calls == [] || s.kill || calls[0].base.None? then h
    else CycleHistory(cfg, dg, DecideState(cfg, dg, s, calls[0]), calls[1..], Noted(cfg, s, calls[0], h))
  }

  function HistoryOf(cfg: AgentConfig, dg: Digest, s: DeskState, ops: seq<Op>, h: History): History
    decreases |ops|
  {
    if ops == [] then h else
      HistoryOf(cfg, dg, Apply(cfg, dg, s, ops[0]), ops[1..],
        match ops[0]
        case Decide(call) => Noted(cfg, s, call, h)
        case Cycle(calls) => CycleHistory(cfg, dg, s, calls, h)
        case _ => h)
  }

  const NOTHING := History(None, map[])

  // ---- the book --------------------------------------------------------------

  /** An executed decision filed under its strategy's underlying, with a finite and honest loss. */
  ghost predicate Held(d: AgentDecision) {
    && d.status.Executed? && d.strategy.Some? && d.strategy.value.DefinedRisk()
    && d.symbol == d.strategy.value.underlying && D.Honest(d.strategy.value)
  }

  ghost predicate AllHeld(book: seq<AgentDecision>) { forall d :: d in book ==> Held(d) }

  ghost predicate DistinctIds(book: seq<AgentDecision>) {
    forall i, j :: 0 <= i < j < |book| ==> book[i].decisionId != book[j].decisionId
  }

  /** The concentration limit at the equity the symbol's latest execution saw; zero before any. */
  ghost function SymbolLimit(b: RiskBudget, bySymbol: map<string, real>, symbol: string): real {
    if symbol in bySymbol then Share(b.maxConcentrationPct, GateEquity(bySymbol[symbol])) else 0.0
  }

  ghost predicate SymbolWithin(b: RiskBudget, book: seq<AgentDecision>, bySymbol: map<string, real>, symbol: string) {
    Total(SymbolRisk(symbol), book) <= SymbolLimit(b, bySymbol, symbol)
  }

  /** Risk committed against the equity the executions saw. */
  ghost predicate WithinBudget(b: RiskBudget, book: seq<AgentDecision>, h: History) {
    && (book != [] ==> h.latest.Some?)
    && (h.latest.Some? ==> Total(AllRisk, book) <= Share(b.maxTotalDefinedRiskPct, GateEquity(h.latest.value)))
    && (forall symbol :: SymbolWithin(b, book, h.bySymbol, symbol))
    && (book == [] || |book| <= b.maxOpenPositions)
  }

  ghost predicate BookOk(b: RiskBudget, s: DeskState, h: History) {
    && AllHeld(s.book) && (forall d :: d in s.book ==> d in s.log)
    && DistinctIds(s.book)
    && WithinBudget(b, s.book, h)
  }

  ghost predicate NoGains(book: seq<AgentDecision>) { forall d :: d in book ==> LossOf(d) >= 0.0 }

  lemma {:induction false} CloseAtMost(ms: Measure, book: seq<AgentDecision>, id: string)
    requires NoGains(book)
    ensures Total(ms, Remove(book, id)) <= Total(ms, book)
  {
    CloseLowersTotals(ms, book, id);
    var i := Find(book, id);
    if i.Some? { assert book[i.value] in book; }
  }

  lemma {:induction false} HeldNeverGains(book: seq<AgentDecision>)
    requires AllHeld(book)
    ensures NoGains(book)
  {
    forall d | d in book ensures LossOf(d) >= 0.0 { assert Held(d); }
  }

  lemma {:induction false} CloseKeepsBudget(b: RiskBudget, book: seq<AgentDecision>, h: History, id: string)
    requires WithinBudget(b, book, h) && NoGains(book)
    ensures WithinBudget(b, Remove(book, id), h)
  {
    CloseAtMost(AllRisk, book, id);
    forall symbol ensures SymbolWithin(b, Remove(book, id), h.bySymbol, symbol) {
      assert SymbolWithin(b, book, h.bySymbol, symbol);
      CloseAtMost(SymbolRisk(symbol), book, id);
    }
  }

  lemma {:induction false} CloseKeepsDistinct(book: seq<AgentDecision>, i: nat)
    requires DistinctIds(book) && i < |book|
    ensures DistinctIds(book[..i] + book[i + 1..])
    ensures forall d :: d in book[..i] + book[i + 1..] ==> d.decisionId != book[i].decisionId
  {
    var after := book[..i] + book[i + 1..];
    assert forall j :: 0 <= j < i ==> after[j] == book[j];
    assert forall j :: i <= j < |after| ==> after[j] == book[j + 1];
  }

  lemma {:induction false} CloseMembers(book: seq<AgentDecision>, i: nat, d: AgentDecision)
    requires i < |book|
    ensures d in book <==> d in book[..i] + book[i + 1..] || d == book[i]
  {
    assert book == book[..i] + [book[i]] + book[i + 1..];
  }

  /** Closing takes out exactly the decision with that id and keeps all others. */
  lemma {:induction false} CloseTakesOne(book: seq<AgentDecision>, id: string)
    requires DistinctIds(book)
    ensures DistinctIds(Remove(book, id))
    ensures forall d :: d in Remove(book, id) <==> d in book && d.decisionId != id
  {
    var i := Find(book, id);
    if i.Some? {
      CloseKeepsDistinct(book, i.value);
      forall d ensures d in Remove(book, id) <==> d in book && d.decisionId != id {
        CloseMembers(book, i.value, d);
      }
    }
  }

  lemma {:induction false} CloseKeepsBook(b: RiskBudget, s: DeskState, h: History, id: string)
    requires BookOk(b, s, h)
    ensures BookOk(b, s.(book := Remove(s.book, id)), h)
  {
    HeldNeverGains(s.book);
    CloseKeepsBudget(b, s.book, h, id);
    CloseTakesOne(s.book, id);
  }

  /** An executed pass is fit for the book and passed the gates on the fresh account. */
  lemma {:induction false} ExecutedPass(
    cfg: AgentConfig, a: AccountSnapshot, symbol: string, execute: Option<bool>, io: AgentIo)
    requires Pass(cfg, a, symbol, execute, io).decision.status.Executed?
    ensures var d := Pass(cfg, a, symbol, execute, io).decision;
            && Held(d)
            && Seen(AllRisk, a) + Weigh(AllRisk, d) <= Share(cfg.budget.maxTotalDefinedRiskPct, GateEquity(a.equity))
            && Seen(SymbolRisk(d.symbol), a) + Weigh(SymbolRisk(d.symbol), d)
               <= Share(cfg.budget.maxConcentrationPct, GateEquity(a.equity))
            && a.openPositions < cfg.budget.maxOpenPositions
  {
    S.ProposeShape(cfg, a, Fresh(io.decisionId, symbol), io.market, io.signal, io.now);
    var p := Propose(cfg, a, Fresh(io.decisionId, symbol), io.market, io.signal, io.now).decision;
    PassedMeansHardGates(p.strategy.value, PortfolioOf(a), cfg.budget, p.ivRank);
    assert Holds(DefinedRiskGate, p.strategy.value, PortfolioOf(a), cfg.budget, p.ivRank);
    assert Holds(MaxLossTotal, p.strategy.value, PortfolioOf(a), cfg.budget, p.ivRank);
    assert Holds(Concentration, p.strategy.value, PortfolioOf(a), cfg.budget, p.ivRank);
    assert Holds(OpenPositionsLimit, p.strategy.value, PortfolioOf(a), cfg.budget, p.ivRank);
  }

  /** Opening a decision raises a total by at most its weight. */
  lemma {:induction false} OpenAtMost(ms: Measure, book: seq<AgentDecision>, d: AgentDecision)
    requires NoGains(book)
    ensures Total(ms, Opened(book, d)) <= Total(ms, book) + Weigh(ms, d)
    ensures forall x :: x in Opened(book, d) ==> x == d || x in book
    ensures |Opened(book, d)| <= |book| + 1
  {
    OpenRaisesTotals(ms, book, d);
    var i := Find(book, d.decisionId);
    if i.Some? { assert book[i.value] in book; }
  }

  /** Opening a decision the gates let through, at the equity they read. */
  lemma {:induction false} OpenKeepsBudget(
    b: RiskBudget, book: seq<AgentDecision>, h: History, base: AccountSnapshot, d: AgentDecision)
    requires WithinBudget(b, book, h) && NoGains(book)
    requires Total(AllRisk, book) + Weigh(AllRisk, d) <= Share(b.maxTotalDefinedRiskPct, GateEquity(base.equity))
    requires Total(SymbolRisk(d.symbol), book) + Weigh(SymbolRisk(d.symbol), d)
             <= Share(b.maxConcentrationPct, GateEquity(base.equity))
    requires |book| < b.maxOpenPositions
    ensures WithinBudget(b, Opened(book, d), History(Some(base.equity), h.bySymbol[d.symbol := base.equity]))
  {
    OpenAtMost(AllRisk, book, d);
    var noted := h.bySymbol[d.symbol := base.equity];
    forall symbol ensures SymbolWithin(b, Opened(book, d), noted, symbol) {
      assert SymbolWithin(b, book, h.bySymbol, symbol);
      OpenAtMost(SymbolRisk(symbol), book, d);
    }
  }

  /** Opening keeps ids distinct and adds nothing but the decision. */
  lemma {:induction false} OpenAddsOne(book: seq<AgentDecision>, d: AgentDecision)
    requires DistinctIds(book)
    ensures DistinctIds(Opened(book, d))
    ensures forall x :: x in Opened(book, d) ==> x == d || x in book
  {
  }

  lemma {:induction false} DecideKeepsBook(cfg: AgentConfig, dg: Digest, s: DeskState, call: DeskCall, h: History)
    requires BookOk(cfg.budget, s, h)
    ensures BookOk(cfg.budget, DecideState(cfg, dg, s, call), Noted(cfg, s, call, h))
  {
    if !s.kill && call.base.Some? {
      var base := call.base.value;
      var d := Pass(cfg, SnapshotOf(s.book, base), call.symbol, call.execute, call.io).decision;
      if d.status.Executed? {
        ExecutedPass(cfg, SnapshotOf(s.book, base), call.symbol, call.execute, call.io);
        ExecutedKeepsBook(cfg.budget, s, h, base, d);
      }
    }
  }

  lemma {:induction false} ExecutedKeepsBook(
    b: RiskBudget, s: DeskState, h: History, base: AccountSnapshot, d: AgentDecision)
    requires BookOk(b, s, h) && Held(d)
    requires var a := SnapshotOf(s.book, base);
             && Seen(AllRisk, a) + Weigh(AllRisk, d) <= Share(b.maxTotalDefinedRiskPct, GateEquity(base.equity))
             && Seen(SymbolRisk(d.symbol), a) + Weigh(SymbolRisk(d.symbol), d)
                <= Share(b.maxConcentrationPct, GateEquity(base.equity))
             && a.openPositions < b.maxOpenPositions
    ensures WithinBudget(b, Opened(s.book, d), History(Some(base.equity), h.bySymbol[d.symbol := base.equity]))
    ensures AllHeld(Opened(s.book, d)) && DistinctIds(Opened(s.book, d))
    ensures forall x :: x in Opened(s.book, d) ==> x in s.log + [d]
  {
    HeldNeverGains(s.book);
    SnapshotIsExact(SymbolRisk(d.symbol), s.book, base);
    OpenKeepsBudget(b, s.book, h, base, d);
    OpenAddsOne(s.book, d);
  }

  lemma {:induction false} CycleKeepsBook(cfg: AgentConfig, dg: Digest, s: DeskState, calls: seq<DeskCall>, h: History)
    requires BookOk(cfg.budget, s, h)
    ensures BookOk(cfg.budget, CycleState(cfg, dg, s, calls), CycleHistory(cfg, dg, s, calls, h))
    decreases |calls|
  {
    if calls != [] && !s.kill && calls[0].base.Some? {
      DecideKeepsBook(cfg, dg, s, calls[0], h);
      CycleKeepsBook(cfg, dg, DecideState(cfg, dg, s, calls[0]), calls[1..], Noted(cfg, s, calls[0], h));
    }
  }

  lemma {:induction false} RunKeepsBook(cfg: AgentConfig, dg: Digest, s: DeskState, ops: seq<Op>, h: History)
    requires BookOk(cfg.budget, s, h)
    ensures BookOk(cfg.budget, RunOps(cfg, dg, s, ops), HistoryOf(cfg, dg, s, ops, h))
    decreases |ops|
  {
    if ops != [] {
      match ops[0] {
        case Decide(call) =>
          DecideKeepsBook(cfg, dg, s, call, h);
          RunKeepsBook(cfg, dg, Apply(cfg, dg, s, ops[0]), ops[1..], Noted(cfg, s, call, h));
        case Cycle(calls) =>
          CycleKeepsBook(cfg, dg, s, calls, h);
          RunKeepsBook(cfg, dg, Apply(cfg, dg, s, ops[0]), ops[1..], CycleHistory(cfg, dg, s, calls, h));
        case Close(id) =>
          CloseKeepsBook(cfg.budget, s, h, id);
          RunKeepsBook(cfg, dg, Apply(cfg, dg, s, ops[0]), ops[1..], h);
        case _ =>
          RunKeepsBook(cfg, dg, Apply(cfg, dg, s, ops[0]), ops[1..], h);
      }
    }
  }

  /** Sequential safety: whatever the desk is asked to do, and however equity moves, risk stays
      within the budget at the equity the latest executions saw. */
  lemma {:induction false} SequentialRiskIsBounded(cfg: AgentConfig, dg: Digest, ops: seq<Op>)
    ensures BookOk(cfg.budget, RunOps(cfg, dg, START, ops), HistoryOf(cfg, dg, START, ops, NOTHING))
  {
    RunKeepsBook(cfg, dg, START, ops, NOTHING);
  }

  // ---- the audit trail ---------------------------------------------------------

  /** Line `i` of a verifying, gap-free journal tells the story of decision `i`. */
  ghost predicate AuditOk(dg: Digest, s: DeskState) {
    && Verifies(dg, s.journal) && Numbered(s.journal)
    && |s.journal| == |s.log|
    && forall i :: 0 <= i < |s.log| ==> Journals(s.journal[i], s.log[i])
  }

  lemma {:induction false} DecideKeepsAudit(cfg: AgentConfig, dg: Digest, s: DeskState, call: DeskCall)
    requires AuditOk(dg, s)
    ensures AuditOk(dg, DecideState(cfg, dg, s, call))
  {
    if !s.kill && call.base.Some? {
      var account := SnapshotOf(s.book, call.base.value);
      var pass := Pass(cfg, account, call.symbol, call.execute, call.io);
      PassIsFaithful(cfg, account, call.symbol, call.execute, call.io);
      AppendKeepsVerdict(dg, s.journal, pass.kind, call.symbol, pass.payload, call.io.ts);
    }
  }

  lemma {:induction false} CycleKeepsAudit(cfg: AgentConfig, dg: Digest, s: DeskState, calls: seq<DeskCall>)
    requires AuditOk(dg, s)
    ensures AuditOk(dg, CycleState(cfg, dg, s, calls))
    decreases |calls|
  {
    if calls != [] && !s.kill && calls[0].base.Some? {
      DecideKeepsAudit(cfg, dg, s, calls[0]);
      CycleKeepsAudit(cfg, dg, DecideState(cfg, dg, s, calls[0]), calls[1..]);
    }
  }

  lemma {:induction false} RunKeepsAudit(cfg: AgentConfig, dg: Digest, s: DeskState, ops: seq<Op>)
    requires AuditOk(dg, s)
    ensures AuditOk(dg, RunOps(cfg, dg, s, ops))
    decreases |ops|
  {
    if ops != [] {
      match ops[0] {
        case Decide(call) => DecideKeepsAudit(cfg, dg, s, call);
        case Cycle(calls) => CycleKeepsAudit(cfg, dg, s, calls);
        case _ =>
      }
      RunKeepsAudit(cfg, dg, Apply(cfg, dg, s, ops[0]), ops[1..]);
    }
  }

  /** Audit completeness: one line a decision, in order, in every sequential run; the lines of
      kind "execution" are exactly the decisions ever opened. */
  lemma {:induction false} AuditIsComplete(cfg: AgentConfig, dg: Digest, ops: seq<Op>)
    ensures var s := RunOps(cfg, dg, START, ops);
            && AuditOk(dg, s)
            && (forall i :: 0 <= i < |s.log| ==> (s.journal[i].kind == "execution" <==> s.log[i].status.Executed?))
            && (forall d :: d in s.book ==>
                  exists i :: 0 <= i < |s.log| && s.log[i] == d && s.journal[i].kind == "execution")
  {
    RunKeepsAudit(cfg, dg, START, ops);
    SequentialRiskIsBounded(cfg, dg, ops);
    var s := RunOps(cfg, dg, START, ops);
    forall i | 0 <= i < |s.log| ensures s.journal[i].kind == "execution" <==> s.log[i].status.Executed? {
      assert Journals(s.journal[i], s.log[i]);
    }
    forall d | d in s.book ensures exists i :: 0 <= i < |s.log| && s.log[i] == d && s.journal[i].kind == "execution" {
      var i :| 0 <= i < |s.log| && s.log[i] == d;
    }
  }

  /** While killed, no decision is made, logged or journalled; the book only loses what is closed. */
  lemma {:induction false} KilledDeskIsFrozen(cfg: AgentConfig, dg: Digest, s: DeskState, ops: seq<Op>)
    requires s.kill && forall op :: op in ops ==> !op.Resume?
    ensures var end := RunOps(cfg, dg, s, ops);
            && end.kill && end.journal == s.journal && end.log == s.log && end.account == s.account
            && (forall d :: d in end.book ==> d in s.book)
            && ((forall op :: op in ops ==> !op.Close?) ==> end == s)
    decreases |ops|
  {
    if ops != [] { KilledDeskIsFrozen(cfg, dg, Apply(cfg, dg, s, ops[0]), ops[1..]); }
  }

  // ---- sequential runs are interleaved runs -------------------------------------

  /** One task alone on the machine, suspended in a phase. */
  function Alone(s: DeskState, call: DeskCall, phase: I.Phase): I.Machine {
    I.Machine(s, [I.Task(call.symbol, call.execute, phase)])
  }

  lemma {:induction false} RunsOn(cfg: AgentConfig, dg: Digest, m: I.Machine, e: seq<I.Event>, i: nat, n: I.Machine)
    requires i < |e| && I.Step(cfg, dg, m, e[i]) == n
    ensures I.Run(cfg, dg, m, e[i..]) == I.Run(cfg, dg, n, e[i + 1..])
  {
    assert e[i..][1..] == e[i + 1..];
  }

  /** Once journalled, a decision only waits to be recorded. */
  lemma {:induction false} DoneRunsOut(
    cfg: AgentConfig, dg: Digest, s: DeskState, call: DeskCall, d: AgentDecision, i: nat)
    requires 1 <= i <= 6
    ensures I.Run(cfg, dg, Alone(s, call, I.Done(d)), I.EventsOf(call)[i..]) == I.Machine(Recorded(s, d), [])
    decreases 6 - i
  {
    var e := I.EventsOf(call);
    if i == 6 {
      assert I.Step(cfg, dg, Alone(s, call, I.Done(d)), e[6]) == I.Machine(Recorded(s, d), []);
      RunsOn(cfg, dg, Alone(s, call, I.Done(d)), e, 6, I.Machine(Recorded(s, d), []));
    } else {
      RunsOn(cfg, dg, Alone(s, call, I.Done(d)), e, i, Alone(s, call, I.Done(d)));
      DoneRunsOut(cfg, dg, s, call, d, i + 1);
    }
  }

  /** With nobody in flight, the remaining events of a decision change nothing. */
  lemma {:induction false} NobodyRunsOut(cfg: AgentConfig, dg: Digest, s: DeskState, call: DeskCall, i: nat)
    requires 1 <= i <= 7
    ensures I.Run(cfg, dg, I.Machine(s, []), I.EventsOf(call)[i..]) == I.Machine(s, [])
    decreases 7 - i
  {
    var e := I.EventsOf(call);
    if i < 7 {
      RunsOn(cfg, dg, I.Machine(s, []), e, i, I.Machine(s, []));
      NobodyRunsOut(cfg, dg, s, call, i + 1);
    }
  }

  /** From the sized proposal to the record. */
  lemma {:induction false} FinishesAlone(cfg: AgentConfig, dg: Digest, s: DeskState, call: DeskCall, d: AgentDecision)
    requires d.strategy.Some? && d.signal.Some?
    ensures var end := Finish(cfg, s.account, d, ShouldExecute(cfg, call.execute), call.io.reply);
            I.Run(cfg, dg, Alone(s, call, I.Proposed(d)), I.EventsOf(call)[3..])
            == I.Machine(Recorded(Journalled(dg, s, call.symbol, end.kind, end.payload, call.io.ts), end.decision), [])
  {
    var e := I.EventsOf(call);
    var judged := Judge(cfg, s.account, d);
    var settled := Settle(judged, ShouldExecute(cfg, call.execute));
    RunsOn(cfg, dg, Alone(s, call, I.Proposed(d)), e, 3, Alone(s, call, I.Gated(judged)));
    if settled.Stop? {
      var done := Journalled(dg, s, call.symbol, settled.kind, settled.payload, call.io.ts);
      RunsOn(cfg, dg, Alone(s, call, I.Gated(judged)), e, 4, Alone(done, call, I.Done(settled.decision)));
      DoneRunsOut(cfg, dg, done, call, settled.decision, 5);
    } else {
      RunsOn(cfg, dg, Alone(s, call, I.Gated(judged)), e, 4, Alone(s, call, I.Submitting(judged)));
      var end := Conclude(judged, call.io.reply);
      var done := Journalled(dg, s, call.symbol, end.kind, end.payload, call.io.ts);
      RunsOn(cfg, dg, Alone(s, call, I.Submitting(judged)), e, 5, Alone(done, call, I.Done(end.decision)));
      DoneRunsOut(cfg, dg, done, call, end.decision, 6);
    }
  }

  /** From the refreshed account to the record. */
  lemma {:induction false} PassesAlone(cfg: AgentConfig, dg: Digest, t: DeskState, call: DeskCall)
    ensures var pass := Pass(cfg, t.account, call.symbol, call.execute, call.io);
            I.Run(cfg, dg, Alone(t, call, I.Analysing(Fresh(call.io.decisionId, call.symbol))), I.EventsOf(call)[2..])
            == I.Machine(Recorded(Journalled(dg, t, call.symbol, pass.kind, pass.payload, call.io.ts), pass.decision),
                         [])
  {
    var e, start := I.EventsOf(call), Fresh(call.io.decisionId, call.symbol);
    var proposed := Propose(cfg, t.account, start, call.io.market, call.io.signal, call.io.now);
    if proposed.Continue? {
      RunsOn(cfg, dg, Alone(t, call, I.Analysing(start)), e, 2, Alone(t, call, I.Proposed(proposed.decision)));
      FinishesAlone(cfg, dg, t, call, proposed.decision);
    } else {
      var done := Journalled(dg, t, call.symbol, proposed.kind, proposed.payload, call.io.ts);
      RunsOn(cfg, dg, Alone(t, call, I.Analysing(start)), e, 2, Alone(done, call, I.Done(proposed.decision)));
      DoneRunsOut(cfg, dg, done, call, proposed.decision, 3);
    }
  }

  /** An undisturbed `decide` is the interleaved one with nobody else in flight. */
  lemma {:induction false} SequentialDecideIsAnInterleaving(cfg: AgentConfig, dg: Digest, s: DeskState, call: DeskCall)
    ensures I.Run(cfg, dg, I.Machine(s, []), I.EventsOf(call)) == I.Machine(DecideState(cfg, dg, s, call), [])
  {
    var e := I.EventsOf(call);
    assert e[0..] == e;
    if s.kill {
      RunsOn(cfg, dg, I.Machine(s, []), e, 0, I.Machine(s, []));
      NobodyRunsOut(cfg, dg, s, call, 1);
    } else {
      RunsOn(cfg, dg, I.Machine(s, []), e, 0, Alone(s, call, I.Waiting));
      if call.base.None? {
        RunsOn(cfg, dg, Alone(s, call, I.Waiting), e, 1, I.Machine(s, []));
        NobodyRunsOut(cfg, dg, s, call, 2);
      } else {
        var t := s.(account := SnapshotOf(s.book, call.base.value));
        RunsOn(cfg, dg, Alone(s, call, I.Waiting), e, 1,
               Alone(t, call, I.Analysing(Fresh(call.io.decisionId, call.symbol))));
        PassesAlone(cfg, dg, t, call);
      }
    }
  }
}
