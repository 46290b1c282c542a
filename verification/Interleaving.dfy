/** Concurrent decisions on one desk. Every `decide` in flight shares the agent's account object,
    and others run whenever one awaits: an event below is the code between two awaits
    (services/trading/desk.py, services/trading/agent.py). */
module Interleaving {
  import opened Basics
  import opened TradingSchemas
  import opened Journal
  import opened Agent
  import opened Book
  import opened Desk

  /** Where a decision in flight is suspended. */
  datatype Phase =
    | Waiting                        // for the account getter
    | Analysing(d: AgentDecision)    // for market data and the model
    | Proposed(d: AgentDecision)     // announcing the sized strategy
    | Gated(d: AgentDecision)        // announcing the gates' result
    | Submitting(d: AgentDecision)   // for the broker
    | Done(d: AgentDecision)         // announcing the outcome, already journalled

  datatype Task = Task(symbol: string, execute: Option<bool>, phase: Phase)

  datatype Machine = Machine(desk: DeskState, tasks: seq<Task>)

  datatype Event =
    | Begin(symbol: string, execute: Option<bool>)
    | GetAccount(i: nat, base: Option<AccountSnapshot>, decisionId: string)
    | Analyse(i: nat, market: Market, signal: Option<Signal>, now: int, ts: string)
    | RunGates(i: nat)
    | ReadVerdict(i: nat, ts: string)
    | BrokerReplies(i: nat, reply: Reply, ts: string)
    | Record(i: nat)
    | Abandon(i: nat)
    | Close(decisionId: string)
    | Kill
    | Resume

  function Without(tasks: seq<Task>, i: nat): seq<Task>
    requires i < |tasks|
  {
    tasks[..i] + tasks[i + 1..]
  }

  function MoveTo(m: Machine, i: nat, phase: Phase): Machine
    requires i < |m.tasks|
  {
    m.(tasks := m.tasks[i := m.tasks[i].(phase := phase)])
  }

  /** A stage that stops writes its journal line at once; the decision is recorded later. */
  function AfterStage(dg: Digest, m: Machine, i: nat, stage: Stage, ts: string, next: Phase): Machine
    requires i < |m.tasks|
  {
    if stage.Continue? then MoveTo(m, i, next)
    else MoveTo(m.(desk := Journalled(dg, m.desk, m.tasks[i].symbol, stage.kind, stage.payload, ts)), i,
                Done(stage.decision))
  }

  function TaskStep(cfg: AgentConfig, dg: Digest, m: Machine, i: nat, e: Event): Machine
    requires i < |m.tasks|
  {
    var t := m.tasks[i];
    match (e, t.phase)
    case (GetAccount(_, base, id), Waiting) =>
      if base.None? then m.(tasks := Without(m.tasks, i))
      else MoveTo(m.(desk := m.desk.(account := SnapshotOf(m.desk.book, base.value))), i,
                  Analysing(Fresh(id, t.symbol)))
    case (Analyse(_, market, signal, now, ts), Analysing(d)) =>
      var stage := Propose(cfg, m.desk.account, d, market, signal, now);
      AfterStage(dg, m, i, stage, ts, Proposed(stage.decision))
    case (RunGates(_), Proposed(d)) =>
      if d.strategy.None? then m else MoveTo(m, i, Gated(Judge(cfg, m.desk.account, d)))
    case (ReadVerdict(_, ts), Gated(d)) =>
      if d.signal.None? || d.strategy.None? || d.risk.None? then m else
        AfterStage(dg, m, i, Settle(d, ShouldExecute(cfg, t.execute)), ts, Submitting(d))
    case (BrokerReplies(_, reply, ts), Submitting(d)) =>
      if d.strategy.None? then m else AfterStage(dg, m, i, Conclude(d, reply), ts, Submitting(d))
    case (Record(_), Done(d)) => Machine(Recorded(m.desk, d), Without(m.tasks, i))
    case (Abandon(_), _) => m.(tasks := Without(m.tasks, i))
    case _ => m
  }

  /** One event; an event that is not enabled changes nothing. */
  function Step(cfg: AgentConfig, dg: Digest, m: Machine, e: Event): Machine {
    match e
    case Begin(symbol, execute) => if m.desk.kill then m else m.(tasks := m.tasks + [Task(symbol, execute, Waiting)])
    case Close(id) => m.(desk := m.desk.(book := Remove(m.desk.book, id)))
    case Kill => m.(desk := m.desk.(kill := true))
    case Resume => m.(desk := m.desk.(kill := false))
    case _ => if e.i < |m.tasks| then TaskStep(cfg, dg, m, e.i, e) else m
  }

  function Run(cfg: AgentConfig, dg: Digest, m: Machine, events: seq<Event>): Machine
    decreases |events|
  {
    if events == [] then m else Run(cfg, dg, Step(cfg, dg, m, events[0]), events[1..])
  }

  const IDLE := Machine(START, [])

  lemma {:induction false} RunConcat(cfg: AgentConfig, dg: Digest, m: Machine, a: seq<Event>, b: seq<Event>)
    ensures Run(cfg, dg, m, a + b) == Run(cfg, dg, Run(cfg, dg, m, a), b)
    decreases |a|
  {
    if a == [] {
      assert a + b == b;
    } else {
      assert (a + b)[1..] == a[1..] + b;
      RunConcat(cfg, dg, Step(cfg, dg, m, a[0]), a[1..], b);
    }
  }

  // ---- a decision alone on the desk -----------------------------------------

  /** The events of one undisturbed `decide`. */
  function EventsOf(call: DeskCall): seq<Event> {
    [Begin(call.symbol, call.execute), GetAccount(0, call.base, call.io.decisionId),
     Analyse(0, call.io.market, call.io.signal, call.io.now, call.io.ts), RunGates(0), ReadVerdict(0, call.io.ts),
     BrokerReplies(0, call.io.reply, call.io.ts), Record(0)]
  }
}
