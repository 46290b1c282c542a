/** What the kill switch stops when decisions are in flight. */
module KillSwitch {
  import opened Basics
  import opened Journal
  import opened Agent
  import opened Desk
  import opened Interleaving
  import A = InterleavedAudit

  // ---- at most what was in flight --------------------------------------------

  lemma {:induction false} KilledTaskStep(cfg: AgentConfig, dg: Digest, m: Machine, i: nat, e: Event)
    requires i < |m.tasks|
    ensures var n := TaskStep(cfg, dg, m, i, e);
            && n.desk.kill == m.desk.kill
            && |m.desk.log| <= |n.desk.log| && |n.desk.log| + |n.tasks| <= |m.desk.log| + |m.tasks|
            && m.desk.log <= n.desk.log
            && |n.desk.book| - |n.desk.log| <= |m.desk.book| - |m.desk.log|
  {
  }

  lemma {:induction false} KilledStep(cfg: AgentConfig, dg: Digest, m: Machine, e: Event)
    requires m.desk.kill && !e.Resume?
    ensures var n := Step(cfg, dg, m, e);
            && n.desk.kill
            && m.desk.log <= n.desk.log && |n.desk.log| + |n.tasks| <= |m.desk.log| + |m.tasks|
            && |n.desk.book| - |n.desk.log| <= |m.desk.book| - |m.desk.log|
  {
    match e
    case Begin(_, _) =>
    case Close(_) =>
    case Kill =>
    case Resume =>
    case _ => if e.i < |m.tasks| { KilledTaskStep(cfg, dg, m, e.i, e); }
  }

  /** The kill switch lets nothing new begin: until it is released, no more decisions are recorded,
      and no more positions added, than were in flight when it was pulled. */
  lemma {:induction false} KillDrains(cfg: AgentConfig, dg: Digest, m: Machine, events: seq<Event>)
    requires m.desk.kill && forall e :: e in events ==> !e.Resume?
    ensures var end := Run(cfg, dg, m, events);
            && end.desk.kill && m.desk.log <= end.desk.log
            && |end.desk.log| - |m.desk.log| <= |m.tasks| - |end.tasks|
            && |end.desk.book| - |m.desk.book| <= |end.desk.log| - |m.desk.log|
    decreases |events|
  {
    if events != [] {
      KilledStep(cfg, dg, m, events[0]);
      KillDrains(cfg, dg, Step(cfg, dg, m, events[0]), events[1..]);
    }
  }

  // ---- and as much as was in flight ------------------------------------------

  /** Awaits still ahead of a decision. */
  function Ahead(phase: Phase): nat {
    match phase
    case Waiting => 5
    case Analysing(_) => 4
    case Proposed(_) => 3
    case Gated(_) => 2
    case Submitting(_) => 1
    case Done(_) => 0
  }

  /** An event that takes the first decision closer to its end. */
  function Nudge(phase: Phase): Event {
    match phase
    case Waiting => GetAccount(0, Some(EMPTY_ACCOUNT), "")
    case Analysing(_) => Analyse(0, MarketFailed(""), None, 0, "")
    case Proposed(_) => RunGates(0)
    case Gated(_) => ReadVerdict(0, "")
    case Submitting(_) => BrokerReplies(0, Rejected(""), "")
    case Done(_) => Record(0)
  }

  lemma {:induction false} Nudged(cfg: AgentConfig, dg: Digest, m: Machine)
    requires m.tasks != [] && A.AllShaped(m.tasks)
    ensures var n := Step(cfg, dg, m, Nudge(m.tasks[0].phase));
            if m.tasks[0].phase.Done? then n.tasks == m.tasks[1..] && n.desk.log == m.desk.log + [m.tasks[0].phase.d]
            else && |n.tasks| == |m.tasks| && n.tasks[1..] == m.tasks[1..] && n.desk.log == m.desk.log
                 && Ahead(n.tasks[0].phase) < Ahead(m.tasks[0].phase)
  {
    assert A.Shaped(m.tasks[0]);
  }

  lemma {:induction false} NudgedIsShaped(cfg: AgentConfig, dg: Digest, m: Machine)
    requires m.tasks != [] && A.AllShaped(m.tasks)
    ensures A.AllShaped(Step(cfg, dg, m, Nudge(m.tasks[0].phase)).tasks)
  {
    var e := Nudge(m.tasks[0].phase);
    assert A.Shaped(m.tasks[0]);
    A.EffectIsProper(cfg, m, 0, e);
    A.StepFollows(cfg, dg, m, 0, e);
  }

  /** Every decision in flight can still be recorded, whether the desk is killed or not. */
  lemma {:induction false} Drain(cfg: AgentConfig, dg: Digest, m: Machine) returns (events: seq<Event>)
    requires A.AllShaped(m.tasks)
    ensures forall e :: e in events ==> !e.Resume?
    ensures var end := Run(cfg, dg, m, events);
            end.tasks == [] && |end.desk.log| == |m.desk.log| + |m.tasks|
    decreases |m.tasks|, if m.tasks == [] then 0 else Ahead(m.tasks[0].phase)
  {
    if m.tasks == [] {
      events := [];
    } else {
      Nudged(cfg, dg, m);
      NudgedIsShaped(cfg, dg, m);
      var e := Nudge(m.tasks[0].phase);
      var rest := Drain(cfg, dg, Step(cfg, dg, m, e));
      events := [e] + rest;
    }
  }

  /** The kill switch stops a desk exactly when nothing is in flight: in any reachable state with the
      switch pulled, the log stands still until it is released if and only if no decision is under
      way, and otherwise as many decisions can still be recorded as there are. */
  lemma {:induction false} KillStopsExactly(cfg: AgentConfig, dg: Digest, history: seq<Event>)
    requires Run(cfg, dg, IDLE, history).desk.kill
    ensures var m := Run(cfg, dg, IDLE, history);
            && (Quiet(cfg, dg, m) <==> m.tasks == [])
            && exists events :: NoResume(events) && |Run(cfg, dg, m, events).desk.log| == |m.desk.log| + |m.tasks|
  {
    var m := Run(cfg, dg, IDLE, history);
    var _ := A.ConcurrentAuditIsComplete(cfg, dg, history);
    var events := Drain(cfg, dg, m);
    assert NoResume(events);
    forall more | m.tasks == [] && NoResume(more) ensures Run(cfg, dg, m, more).desk.log == m.desk.log {
      KillDrains(cfg, dg, m, more);
    }
  }

  ghost predicate NoResume(events: seq<Event>) { forall e :: e in events ==> !e.Resume? }

  /** Nothing is recorded until the switch is released. */
  ghost predicate Quiet(cfg: AgentConfig, dg: Digest, m: Machine) {
    forall events :: NoResume(events) ==> Run(cfg, dg, m, events).desk.log == m.desk.log
  }
}
