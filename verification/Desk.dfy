/** The desk: kill switch, book, decision log, agent and journal (services/trading/desk.py). */
module Desk {
  import opened Basics
  import opened Risk
  import opened TradingSchemas
  import opened Journal
  import opened Agent
  import opened Book

  datatype DeskState = DeskState(
    kill: bool, book: seq<AgentDecision>, log: seq<AgentDecision>,
    account: AccountSnapshot, journal: seq<JournalEntry>)

  /** One call of `decide` with what the outside answers; no base account means the getter raised.
      `run_cycle` itself never passes an override of `execute`. */
  datatype DeskCall = DeskCall(symbol: string, execute: Option<bool>, base: Option<AccountSnapshot>, io: AgentIo)

  const EMPTY_ACCOUNT := AccountSnapshot(0.0, 0.0, 0.0, 0.0, 0, 0.0, map[])
  const START := DeskState(false, [], [], EMPTY_ACCOUNT, [])

  function Decimal(n: nat): string {
    (if n < 10 then [] else Decimal(n / 10)) + [('0' as int + n % 10) as char]
  }

  function KillDecision(s: DeskState, symbol: string): AgentDecision {
    Fresh("d-kill-" + Decimal(|s.log|), symbol).(reason := Some(KillEngaged))
  }

  function Journalled(dg: Digest, s: DeskState, symbol: string, kind: string, payload: Payload, ts: string): DeskState {
    s.(journal := s.journal + [NextEntry(dg, s.journal, kind, symbol, payload, ts)])
  }

  function Recorded(s: DeskState, d: AgentDecision): DeskState {
    s.(log := s.log + [d], book := if d.status.Executed? then Opened(s.book, d) else s.book)
  }

  /** `decide`: nothing happens while killed or when the account cannot be read. */
  function DecideState(cfg: AgentConfig, dg: Digest, s: DeskState, call: DeskCall): DeskState {
    if s.kill || call.base.None? then s else
      var account := SnapshotOf(s.book, call.base.value);
      var pass := Pass(cfg, account, call.symbol, call.execute, call.io);
      Recorded(Journalled(dg, s.(account := account), call.symbol, pass.kind, pass.payload, call.io.ts), pass.decision)
  }

  /** The decision handed back; none when the account getter raised. */
  function DecideResult(cfg: AgentConfig, s: DeskState, call: DeskCall): Option<AgentDecision> {
    if s.kill then Some(KillDecision(s, call.symbol))
    else if call.base.None? then None
    else Some(Pass(cfg, SnapshotOf(s.book, call.base.value), call.symbol, call.execute, call.io).decision)
  }

  /** `run_cycle`: one decision a symbol, stopping at the kill switch or at a raised error. */
  function CycleState(cfg: AgentConfig, dg: Digest, s: DeskState, calls: seq<DeskCall>): DeskState
    decreases |calls|
  {
    if calls == [] || s.kill || calls[0].base.None? then s
    else CycleState(cfg, dg, DecideState(cfg, dg, s, calls[0]), calls[1..])
  }

  lemma {:induction false} CycleStep(
    cfg: AgentConfig, dg: Digest, s: DeskState, calls: seq<DeskCall>, i: nat, after: DeskState)
    requires i < |calls| && !s.kill && after == DecideState(cfg, dg, s, calls[i])
    ensures CycleState(cfg, dg, s, calls[i..])
            == if calls[i].base.None? then after else CycleState(cfg, dg, after, calls[i + 1..])
  {
    assert calls[i..][1..] == calls[i + 1..];
  }

  class TradingDesk {
    const agent: TradingAgent
    const journal: TradingJournal
    var killSwitch: bool
    var open: seq<AgentDecision>
    var lastDecisions: seq<AgentDecision>

    ghost predicate Valid()
      reads this, agent, journal
    {
      agent.journal == journal && journal.Valid()
    }

    ghost function State(): DeskState
      reads this, agent, journal
    {
      DeskState(killSwitch, open, lastDecisions, agent.account, journal.entries)
    }

    constructor (cfg: AgentConfig, dg: Digest)
      ensures Valid() && fresh(agent) && fresh(journal)
      ensures State() == START && agent.cfg == cfg && journal.dg == dg
    {
      var j := new TradingJournal(dg, []);
      journal := j;
      agent := new TradingAgent(cfg, j, EMPTY_ACCOUNT);
      killSwitch, open, lastDecisions := false, [], [];
    }

    method TriggerKill()
      requires Valid()
      modifies this
      ensures Valid() && State() == old(State()).(kill := true)
    {
      killSwitch := true;
    }

    method Resume()
      requires Valid()
      modifies this
      ensures Valid() && State() == old(State()).(kill := false)
    {
      killSwitch := false;
    }

    method MarkClosed(decisionId: string)
      requires Valid()
      modifies this
      ensures Valid() && State() == old(State()).(book := Remove(old(open), decisionId))
    {
      var i := Find(open, decisionId);
      if i.Some? { open := open[..i.value] + open[i.value + 1..]; }
    }

    /** Sum the book into the account figures. */
    method Snapshot(base: AccountSnapshot) returns (account: AccountSnapshot)
      requires Valid()
      ensures account == SnapshotOf(open, base)
    {
      var committed := 0.0;
      for i := 0 to |open|
        invariant committed == Total(AllRisk, open[..i])
      {
        if open[i].strategy.Some? { committed := committed + OrZero(open[i].strategy.value.maxLoss); }
        assert open[..i + 1][..i] == open[..i];
      }
      assert open[..|open|] == open;
      var exposure: map<string, real> := map[];
      for i := 0 to |open|
        invariant exposure == Exposures(open[..i])
      {
        assert open[..i + 1][..i] == open[..i];
        if open[i].strategy.None? { continue; }
        exposure := exposure[open[i].symbol := Lookup(exposure, open[i].symbol)
                             + OrZero(open[i].strategy.value.maxLoss)];
      }
      account := AccountSnapshot(base.equity, base.cash, base.buyingPower, base.dailyPl, |open|, committed, exposure);
    }

    method Record(decision: AgentDecision)
      requires Valid()
      modifies this
      ensures Valid() && State() == Recorded(old(State()), decision)
    {
      lastDecisions := lastDecisions + [decision];
      if decision.status.Executed? {
        var i := Find(open, decision.decisionId);
        open := if i.Some? then open[i.value := decision] else open + [decision];
      }
    }

    method Decide(call: DeskCall) returns (decision: Option<AgentDecision>)
      requires Valid()
      modifies this, agent, journal
      ensures Valid()
      ensures decision == DecideResult(agent.cfg, old(State()), call)
      ensures State() == DecideState(agent.cfg, journal.dg, old(State()), call)
      ensures killSwitch == old(killSwitch)
      ensures !killSwitch && decision.Some? ==> lastDecisions == old(lastDecisions) + [decision.value]
    {
      if killSwitch {
        return Some(Fresh("d-kill-" + Decimal(|lastDecisions|), call.symbol).(reason := Some(KillEngaged)));
      }
      if call.base.None? { return None; }
      var account := Snapshot(call.base.value);
      agent.account := account;
      var d := agent.Decide(call.symbol, call.execute, call.io);
      Record(d);
      decision := Some(d);
    }

    /** The body of the cycle: what is left to do shrinks by one call. */
    method DecideNext(calls: seq<DeskCall>, i: nat) returns (d: Option<AgentDecision>)
      requires Valid() && i < |calls| && !killSwitch
      modifies this, agent, journal
      ensures Valid() && !killSwitch
      ensures d.None? <==> calls[i].base.None?
      ensures CycleState(agent.cfg, journal.dg, old(State()), calls[i..])
              == if d.None? then State() else CycleState(agent.cfg, journal.dg, State(), calls[i + 1..])
      ensures d.Some? ==> lastDecisions == old(lastDecisions) + [d.value]
    {
      ghost var before := State();
      d := Decide(calls[i]);
      CycleStep(agent.cfg, journal.dg, before, calls, i, State());
    }

    method RunCycle(calls: seq<DeskCall>) returns (results: Option<seq<AgentDecision>>)
      requires Valid()
      modifies this, agent, journal
      ensures Valid()
      ensures State() == CycleState(agent.cfg, journal.dg, old(State()), calls)
      ensures results.Some? ==> lastDecisions == old(lastDecisions) + results.value
      ensures !old(killSwitch) && results.Some? ==> |results.value| == |calls|
      ensures results.None? ==> exists i :: 0 <= i < |calls| && calls[i].base.None?
      ensures old(killSwitch) ==> results == Some([])
    {
      var decisions: seq<AgentDecision> := [];
      var i := 0;
      ghost var now := State();
      ghost var end := CycleState(agent.cfg, journal.dg, now, calls);
      assert calls[0..] == calls;
      while i < |calls|
        invariant 0 <= i <= |calls| && Valid() && killSwitch == old(killSwitch)
        invariant now == State() && CycleState(agent.cfg, journal.dg, now, calls[i..]) == end
        invariant lastDecisions == old(lastDecisions) + decisions && |decisions| == i
        invariant killSwitch ==> i == 0
      {
        if killSwitch { break; }
        var d := DecideNext(calls, i);
        now := State();
        if d.None? { return None; }
        assert old(lastDecisions) + (decisions + [d.value]) == old(lastDecisions) + decisions + [d.value];
        decisions := decisions + [d.value];
        i := i + 1;
      }
      results := Some(decisions);
    }
  }

  /** The number a decimal text stands for. */
  function Numeral(s: string): nat
    requires forall i :: 0 <= i < |s| ==> '0' <= s[i] <= '9'
  {
    if s == [] then 0 else 10 * Numeral(s[..|s| - 1]) + (s[|s| - 1] as int - '0' as int)
  }

  lemma {:induction false} DecimalIsRead(n: nat)
    ensures Decimal(n) != [] && forall i :: 0 <= i < |Decimal(n)| ==> '0' <= Decimal(n)[i] <= '9'
    ensures Numeral(Decimal(n)) == n
  {
    var front := if n < 10 then [] else Decimal(n / 10);
    if n >= 10 { DecimalIsRead(n / 10); }
    var digit := ('0' as int + n % 10) as char;
    assert Decimal(n) == front + [digit] && Decimal(n)[..|front|] == front;
    assert Numeral(front) == n / 10;
  }

  /** A killed desk answers with an abstention that says so, numbered by the log. */
  lemma {:induction false} KilledAnswer(cfg: AgentConfig, s: DeskState, call: DeskCall)
    requires s.kill
    ensures var d := DecideResult(cfg, s, call);
            && d.Some? && d.value.status.Abstained? && d.value.reason == Some(KillEngaged)
            && d.value.symbol == Upper(call.symbol) && d.value.orderId.None? && d.value.strategy.None?
            && d.value.decisionId[..7] == "d-kill-"
            && (forall i :: 7 <= i < |d.value.decisionId| ==> '0' <= d.value.decisionId[i] <= '9')
            && Numeral(d.value.decisionId[7..]) == |s.log|
  {
    DecimalIsRead(|s.log|);
    var id := DecideResult(cfg, s, call).value.decisionId;
    assert id == "d-kill-" + Decimal(|s.log|);
    assert id[7..] == Decimal(|s.log|);
  }
}
