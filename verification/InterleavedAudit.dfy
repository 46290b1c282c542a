/** The audit trail when decisions run concurrently. Lines and records may come in different orders,
    and a decision torn down after its line was written leaves a line without a record; nothing
    else is lost, and nothing is invented. */
module InterleavedAudit {
  import opened Basics
  import opened TradingSchemas
  import opened Journal
  import opened Agent
  import opened Desk
  import opened Interleaving
  import opened Audit

  ghost function DoneOf(t: Task): multiset<AgentDecision> {
    if t.phase.Done? then multiset{t.phase.d} else multiset{}
  }

  /** Decisions journalled but not yet recorded. */
  ghost function Finished(tasks: seq<Task>): multiset<AgentDecision> {
    if tasks == [] then multiset{} else Finished(tasks[..|tasks| - 1]) + DoneOf(tasks[|tasks| - 1])
  }

  /** Decisions torn down by the events after their journal line was written. */
  ghost function Torn(cfg: AgentConfig, dg: Digest, m: Machine, events: seq<Event>): multiset<AgentDecision>
    decreases |events|
  {
    if events == [] then multiset{}
    else TornBy(m, events[0]) + Torn(cfg, dg, Step(cfg, dg, m, events[0]), events[1..])
  }

  ghost function TornBy(m: Machine, ev: Event): multiset<AgentDecision> {
    if ev.Abandon? && ev.i < |m.tasks| then DoneOf(m.tasks[ev.i]) else multiset{}
  }

  /** Line by line, the decisions the journal is about. */
  ghost predicate Authored(journal: seq<JournalEntry>, authors: seq<AgentDecision>) {
    |authors| == |journal| && forall i :: 0 <= i < |journal| ==> Journals(journal[i], authors[i])
  }

  /** What a suspended decision already carries. */
  ghost predicate Shaped(t: Task) {
    match t.phase
    case Waiting => true
    case Analysing(d) => d.symbol == Upper(t.symbol) && d.status.Abstained?
    case Proposed(d) => d.symbol == Upper(t.symbol) && d.strategy.Some? && d.signal.Some?
    case Gated(d) => d.symbol == Upper(t.symbol) && Agent.Judged(d)
    case Submitting(d) => d.symbol == Upper(t.symbol) && Agent.Judged(d) && d.risk.value.Passed()
    case Done(_) => true
  }

  ghost predicate AllShaped(tasks: seq<Task>) { forall t :: t in tasks ==> Shaped(t) }

  /** The journal is sound, and its authors are the decisions recorded, finished or torn down. */
  ghost predicate Traced(dg: Digest, m: Machine, authors: seq<AgentDecision>, torn: multiset<AgentDecision>) {
    && Verifies(dg, m.desk.journal) && Numbered(m.desk.journal) && AllShaped(m.tasks)
    && Authored(m.desk.journal, authors)
    && multiset(authors) == multiset(m.desk.log) + Finished(m.tasks) + torn
  }

  lemma {:induction false} FinishedConcat(a: seq<Task>, b: seq<Task>)
    ensures Finished(a + b) == Finished(a) + Finished(b)
  {
    if b == [] {
      assert a + b == a;
    } else {
      assert (a + b)[..|a + b| - 1] == a + b[..|b| - 1];
      FinishedConcat(a, b[..|b| - 1]);
    }
  }

  lemma {:induction false} FinishedSplit(tasks: seq<Task>, i: nat)
    requires i < |tasks|
    ensures Finished(tasks) == Finished(Without(tasks, i)) + DoneOf(tasks[i])
  {
    var a, b := tasks[..i], tasks[i + 1..];
    assert tasks == a + [tasks[i]] + b && [tasks[i]][..0] == [];
    FinishedConcat(a + [tasks[i]], b);
    FinishedConcat(a, [tasks[i]]);
    FinishedConcat(a, b);
  }

  lemma {:induction false} FinishedMove(tasks: seq<Task>, i: nat, t: Task)
    requires i < |tasks| && !tasks[i].phase.Done?
    ensures Finished(tasks[i := t]) == Finished(tasks) + DoneOf(t)
  {
    FinishedSplit(tasks, i);
    FinishedSplit(tasks[i := t], i);
    assert Without(tasks[i := t], i) == Without(tasks, i);
  }

  lemma {:induction false} ShapesMove(tasks: seq<Task>, i: nat, t: Task)
    requires i < |tasks| && AllShaped(tasks) && Shaped(t)
    ensures AllShaped(tasks[i := t]) && AllShaped(Without(tasks, i))
  {
  }

  /** A stage that ends faithfully adds one line, and its decision as the line's author. */
  lemma {:induction false} StopIsTraced(
    dg: Digest, m: Machine, authors: seq<AgentDecision>, torn: multiset<AgentDecision>,
    i: nat, stage: Stage, ts: string, next: Phase)
    requires Traced(dg, m, authors, torn) && i < |m.tasks| && !m.tasks[i].phase.Done?
    requires Faithful(stage) && stage.decision.symbol == Upper(m.tasks[i].symbol)
    ensures Traced(dg, AfterStage(dg, m, i, stage, ts, next), authors + [stage.decision], torn)
  {
    var t := m.tasks[i].(phase := Done(stage.decision));
    FinishedMove(m.tasks, i, t);
    ShapesMove(m.tasks, i, t);
    AppendKeepsVerdict(dg, m.desk.journal, stage.kind, m.tasks[i].symbol, stage.payload, ts);
  }

  /** Moving a decision on before its end adds nothing. */
  lemma {:induction false} MoveIsTraced(
    dg: Digest, m: Machine, authors: seq<AgentDecision>, torn: multiset<AgentDecision>, n: Machine, i: nat, t: Task)
    requires Traced(dg, m, authors, torn)
    requires i < |m.tasks| && !m.tasks[i].phase.Done? && !t.phase.Done? && Shaped(t)
    requires n.desk.journal == m.desk.journal && n.desk.log == m.desk.log && n.tasks == m.tasks[i := t]
    ensures Traced(dg, n, authors, torn)
  {
    FinishedMove(m.tasks, i, t);
    ShapesMove(m.tasks, i, t);
  }

  /** A stage either ends with its line or moves the decision on. */
  lemma {:induction false} StageIsTraced(
    dg: Digest, m: Machine, authors: seq<AgentDecision>, torn: multiset<AgentDecision>,
    i: nat, stage: Stage, ts: string, next: Phase)
    returns (more: seq<AgentDecision>)
    requires Traced(dg, m, authors, torn) && i < |m.tasks| && !m.tasks[i].phase.Done?
    requires stage.Stop? ==> Faithful(stage) && stage.decision.symbol == Upper(m.tasks[i].symbol)
    requires stage.Continue? ==> !next.Done? && Shaped(m.tasks[i].(phase := next))
    ensures Traced(dg, AfterStage(dg, m, i, stage, ts, next), more, torn)
  {
    if stage.Stop? {
      StopIsTraced(dg, m, authors, torn, i, stage, ts, next);
      more := authors + [stage.decision];
    } else {
      MoveIsTraced(dg, m, authors, torn, MoveTo(m, i, next), i, m.tasks[i].(phase := next));
      more := authors;
    }
  }

  /** A decision is recorded: it leaves the finished ones for the log. */
  lemma {:induction false} RecordIsTraced(
    dg: Digest, m: Machine, authors: seq<AgentDecision>, torn: multiset<AgentDecision>, i: nat)
    requires Traced(dg, m, authors, torn) && i < |m.tasks| && m.tasks[i].phase.Done?
    ensures Traced(dg, Machine(Recorded(m.desk, m.tasks[i].phase.d), Without(m.tasks, i)), authors, torn)
  {
    FinishedSplit(m.tasks, i);
    ShapesMove(m.tasks, i, m.tasks[i]);
  }

  /** A decision leaves without being recorded: its line, if written, is torn from its record. */
  lemma {:induction false} LossIsTraced(
    dg: Digest, m: Machine, authors: seq<AgentDecision>, torn: multiset<AgentDecision>, i: nat)
    requires Traced(dg, m, authors, torn) && i < |m.tasks|
    ensures Traced(dg, m.(tasks := Without(m.tasks, i)), authors, torn + DoneOf(m.tasks[i]))
  {
    FinishedSplit(m.tasks, i);
    ShapesMove(m.tasks, i, m.tasks[i]);
  }

  // ---- the events ----------------------------------------------------------

  /** What an enabled event does, as a stage that follows or a move; else nothing. */
  datatype Effect =
    | Staged(stage: Stage, ts: string, next: Phase)
    | Moved(next: Phase)
    | Booked
    | Lost
    | Nothing

  ghost function EffectOf(cfg: AgentConfig, m: Machine, i: nat, e: Event): Effect
    requires i < |m.tasks|
  {
    var t := m.tasks[i];
    match (e, t.phase)
    case (GetAccount(_, base, id), Waiting) => if base.None? then Lost else Moved(Analysing(Fresh(id, t.symbol)))
    case (Analyse(_, market, signal, now, ts), Analysing(d)) =>
      var stage := Propose(cfg, m.desk.account, d, market, signal, now);
      Staged(stage, ts, Proposed(stage.decision))
    case (RunGates(_), Proposed(d)) =>
      if d.strategy.None? then Nothing else Moved(Gated(Judge(cfg, m.desk.account, d)))
    case (ReadVerdict(_, ts), Gated(d)) =>
      if d.signal.None? || d.strategy.None? || d.risk.None? then Nothing
      else Staged(Settle(d, ShouldExecute(cfg, t.execute)), ts, Submitting(d))
    case (BrokerReplies(_, reply, ts), Submitting(d)) =>
      if d.strategy.None? then Nothing else Staged(Conclude(d, reply), ts, Submitting(d))
    case (Record(_), Done(_)) => Booked
    case (Abandon(_), _) => Lost
    case _ => Nothing
  }

  /** The machine after an effect; taking the account snapshot touches neither journal nor log. */
  ghost predicate Follows(dg: Digest, m: Machine, i: nat, f: Effect, n: Machine)
    requires i < |m.tasks|
  {
    match f
    case Staged(stage, ts, next) => n == AfterStage(dg, m, i, stage, ts, next)
    case Moved(next) =>
      n.tasks == m.tasks[i := m.tasks[i].(phase := next)] && n.desk.(account := m.desk.account) == m.desk
    case Booked => m.tasks[i].phase.Done? && n == Machine(Recorded(m.desk, m.tasks[i].phase.d), Without(m.tasks, i))
    case Lost => n == m.(tasks := Without(m.tasks, i))
    case Nothing => n == m
  }

  lemma {:induction false} StepFollows(cfg: AgentConfig, dg: Digest, m: Machine, i: nat, e: Event)
    requires i < |m.tasks|
    ensures Follows(dg, m, i, EffectOf(cfg, m, i, e), TaskStep(cfg, dg, m, i, e))
  {
  }

  /** On a shaped task, stages stop faithfully and moves keep the shape. */
  ghost predicate Proper(t: Task, f: Effect) {
    match f
    case Staged(stage, _, next) =>
      && !t.phase.Done?
      && (stage.Stop? ==> Faithful(stage) && stage.decision.symbol == Upper(t.symbol))
      && (stage.Continue? ==> !next.Done? && Shaped(t.(phase := next)))
    case Moved(next) => !t.phase.Done? && !next.Done? && Shaped(t.(phase := next))
    case _ => true
  }

  lemma {:induction false} EffectIsProper(cfg: AgentConfig, m: Machine, i: nat, e: Event)
    requires i < |m.tasks| && Shaped(m.tasks[i])
    ensures Proper(m.tasks[i], EffectOf(cfg, m, i, e))
  {
    var t := m.tasks[i];
    match (e, t.phase)
    case (Analyse(_, market, signal, now, ts), Analysing(d)) =>
      ProposeIsFaithful(cfg, m.desk.account, d, market, signal, now);
    case (ReadVerdict(_, ts), Gated(d)) => SettleIsFaithful(d, ShouldExecute(cfg, t.execute));
    case (BrokerReplies(_, reply, ts), Submitting(d)) => ConcludeIsFaithful(d, reply);
    case _ =>
  }

  /** Only a torn-down task leaves a line without a record. */
  lemma {:induction false} LossIsTorn(cfg: AgentConfig, m: Machine, i: nat, e: Event)
    requires i < |m.tasks|
    requires !e.Begin? && !e.Close? && !e.Kill? && !e.Resume? && i == e.i
    ensures TornBy(m, e) == if EffectOf(cfg, m, i, e).Lost? then DoneOf(m.tasks[i]) else multiset{}
  {
  }

  lemma {:induction false} EffectIsTraced(
    dg: Digest, m: Machine, authors: seq<AgentDecision>, torn: multiset<AgentDecision>, i: nat, f: Effect, n: Machine)
    returns (more: seq<AgentDecision>)
    requires Traced(dg, m, authors, torn) && i < |m.tasks| && Proper(m.tasks[i], f) && Follows(dg, m, i, f, n)
    ensures Traced(dg, n, more, torn + if f.Lost? then DoneOf(m.tasks[i]) else multiset{})
  {
    assert torn + multiset{} == torn;
    more := authors;
    match f
    case Staged(stage, ts, next) => more := StageIsTraced(dg, m, authors, torn, i, stage, ts, next);
    case Moved(next) => MoveIsTraced(dg, m, authors, torn, n, i, m.tasks[i].(phase := next));
    case Booked => RecordIsTraced(dg, m, authors, torn, i);
    case Lost => LossIsTraced(dg, m, authors, torn, i);
    case Nothing =>
  }

  lemma {:induction false} TaskStepIsTraced(
    cfg: AgentConfig, dg: Digest, m: Machine, authors: seq<AgentDecision>, torn: multiset<AgentDecision>,
    i: nat, ev: Event)
    returns (more: seq<AgentDecision>)
    requires Traced(dg, m, authors, torn)
    requires !ev.Begin? && !ev.Close? && !ev.Kill? && !ev.Resume? && i == ev.i < |m.tasks|
    ensures Traced(dg, TaskStep(cfg, dg, m, i, ev), more, torn + TornBy(m, ev))
  {
    assert Shaped(m.tasks[i]);
    EffectIsProper(cfg, m, i, ev);
    StepFollows(cfg, dg, m, i, ev);
    LossIsTorn(cfg, m, i, ev);
    more := EffectIsTraced(dg, m, authors, torn, i, EffectOf(cfg, m, i, ev), TaskStep(cfg, dg, m, i, ev));
  }

  lemma {:induction false} StepIsTraced(
    cfg: AgentConfig, dg: Digest, m: Machine, authors: seq<AgentDecision>, torn: multiset<AgentDecision>, ev: Event)
    returns (more: seq<AgentDecision>)
    requires Traced(dg, m, authors, torn)
    ensures Traced(dg, Step(cfg, dg, m, ev), more, torn + TornBy(m, ev))
  {
    more := authors;
    if ev.Begin? {
      var t := Task(ev.symbol, ev.execute, Waiting);
      assert (m.tasks + [t])[..|m.tasks|] == m.tasks;
    } else if !ev.Close? && !ev.Kill? && !ev.Resume? && ev.i < |m.tasks| {
      more := TaskStepIsTraced(cfg, dg, m, authors, torn, ev.i, ev);
    }
  }

  lemma {:induction false} RunIsTraced(
    cfg: AgentConfig, dg: Digest, m: Machine, authors: seq<AgentDecision>, torn: multiset<AgentDecision>,
    events: seq<Event>)
    returns (more: seq<AgentDecision>)
    requires Traced(dg, m, authors, torn)
    ensures Traced(dg, Run(cfg, dg, m, events), more, torn + Torn(cfg, dg, m, events))
    decreases |events|
  {
    if events == [] {
      more := authors;
      assert torn + Torn(cfg, dg, m, events) == torn;
    } else {
      var next := torn + TornBy(m, events[0]);
      more := StepIsTraced(cfg, dg, m, authors, torn, events[0]);
      more := RunIsTraced(cfg, dg, Step(cfg, dg, m, events[0]), more, next, events[1..]);
      assert torn + Torn(cfg, dg, m, events) == next + Torn(cfg, dg, Step(cfg, dg, m, events[0]), events[1..]);
    }
  }

  /** However decisions interleave and whichever are torn down, the journal verifies, and its lines
      can be assigned one to one to the decisions recorded, about to be recorded, or torn down
      after their line was written, so that each line tells its own decision's story. */
  lemma {:induction false} ConcurrentAuditIsComplete(cfg: AgentConfig, dg: Digest, events: seq<Event>)
    returns (authors: seq<AgentDecision>)
    ensures var end := Run(cfg, dg, IDLE, events);
            && Verifies(dg, end.desk.journal) && Numbered(end.desk.journal)
            && Authored(end.desk.journal, authors)
            && multiset(authors) == multiset(end.desk.log) + Finished(end.tasks) + Torn(cfg, dg, IDLE, events)
            && AllShaped(end.tasks)
  {
    assert Traced(dg, IDLE, [], multiset{});
    authors := RunIsTraced(cfg, dg, IDLE, [], multiset{}, events);
    assert multiset{} + Torn(cfg, dg, IDLE, events) == Torn(cfg, dg, IDLE, events);
  }

  /** The lines are exactly the decisions recorded or about to be. */
  ghost predicate Balanced(m: Machine) {
    exists authors :: Authored(m.desk.journal, authors) && multiset(authors) == multiset(m.desk.log) + Finished(m.tasks)
  }

  lemma {:induction false} BalancedLength(m: Machine)
    requires Balanced(m)
    ensures |m.desk.journal| == |m.desk.log| + |Finished(m.tasks)|
  {
    var authors :| Authored(m.desk.journal, authors) && multiset(authors) == multiset(m.desk.log) + Finished(m.tasks);
    assert |multiset(authors)| == |authors|;
  }

  /** The trail balances exactly when no decision was torn down after its line was written. */
  lemma {:induction false} TrailBalancesExactly(cfg: AgentConfig, dg: Digest, events: seq<Event>)
    ensures Balanced(Run(cfg, dg, IDLE, events)) <==> Torn(cfg, dg, IDLE, events) == multiset{}
  {
    var end := Run(cfg, dg, IDLE, events);
    var torn := Torn(cfg, dg, IDLE, events);
    var all := ConcurrentAuditIsComplete(cfg, dg, events);
    assert |multiset(all)| == |end.desk.journal|;
    if Balanced(end) {
      BalancedLength(end);
      assert |torn| == 0;
    } else {
      assert torn == multiset{} ==> multiset(all) == multiset(end.desk.log) + Finished(end.tasks);
    }
  }
}
