/** Concrete inputs on which the code does not do what it says: one for each exact condition
    proved elsewhere. */
module Witnesses {
  import opened Basics
  import opened Options
  import opened Strategies
  import opened Picking
  import opened DefinedRisk
  import opened Journal
  import opened Agent
  import opened Desk
  import opened Interleaving
  import C = Condor
  import P = Pricing
  import N = News
  import Z = Sizing
  import T = Tightness
  import A = InterleavedAudit

  // ---- strategies ------------------------------------------------------------

  function Quote(symbol: string, strike: PosReal, price: real, delta: real): OptionQuote {
    OptionQuote(symbol, strike, Some(price), Some(price), None, Some(delta))
  }

  const PUT95 := Quote("P95", 95.0, 1.0, -0.15)
  const PUT100 := Quote("P100", 100.0, 2.0, -0.30)

  /** A call chain whose spread brings the given credit. */
  function Calls(credit: real): seq<OptionQuote> {
    [Quote("C105", 105.0, 1.0 + credit, 0.30), Quote("C110", 110.0, 1.0, 0.15)]
  }

  function PutSide(): OptionStrategy { Spread("bull_put_spread", "SPY", Put, 0, 0, PUT100, PUT95, 5.0, 1) }

  function CallSide(credit: real): OptionStrategy {
    Spread("bear_call_spread", "SPY", Call, 0, 0, Calls(credit)[0], Calls(credit)[1], 5.0, 1)
  }

  lemma {:induction false} PutSideIsBuilt()
    ensures BullPutSpread("SPY", 0, 0, [PUT95, PUT100], 0.30, 1, 1) == Some(PutSide())
    ensures IsVertical(PutSide(), Put, 1) && PutSide().netCredit == Some(1.0)
    ensures C.Short(PutSide()) == 100.0 && SpreadWidth(PutSide(), Put) == 5.0
  {
    assert DeltaMiss(PUT100, 0.30) == 0.0 && DeltaMiss(PUT95, 0.30) == 0.0225;
    PutPairOfTwo(PUT95, PUT100, 0.30);
    SpreadIsVertical("bull_put_spread", "SPY", Put, 0, 0, PUT100, PUT95, 1);
  }

  lemma {:induction false} CallSideIsBuilt(credit: real)
    requires credit >= 0.0
    ensures BearCallSpread("SPY", 0, 0, Calls(credit), 0.30, 1, 1) == Some(CallSide(credit))
    ensures IsVertical(CallSide(credit), Call, 1) && CallSide(credit).netCredit == Some(credit)
    ensures C.Short(CallSide(credit)) == 105.0 && SpreadWidth(CallSide(credit), Call) == 5.0
  {
    var calls := Calls(credit);
    assert DeltaMiss(calls[0], 0.30) == 0.0 && DeltaMiss(calls[1], 0.30) == 0.0225;
    CallPairOfTwo(calls[0], calls[1], 0.30);
    SpreadIsVertical("bear_call_spread", "SPY", Call, 0, 0, calls[0], calls[1], 1);
  }

  /** The condor over a put side with credit 1 and a call side with the given credit, at a price
      between the long strikes. */
  lemma {:induction false} CondorAt(credit: real, spot: real) returns (condor: OptionStrategy)
    requires credit >= 0.0 && 95.0 <= spot <= 105.0
    ensures IronCondor("SPY", 0, 0, Calls(credit), [PUT95, PUT100], 0.30, 1, 1) == Some(condor)
    ensures condor.breakEven == [98.0, 105.0]
    ensures ExpiryPnl(condor, spot) == 100.0 * (1.0 + credit - if spot < 100.0 then 100.0 - spot else 0.0)
  {
    PutSideIsBuilt();
    CallSideIsBuilt(credit);
    var put, call := PutSide(), CallSide(credit);
    condor := Combine(put, call, "SPY", 0, 0);
    C.ReportedPoints(put, call, "SPY", 0, 0, 1);
    C.CondorPerShare(put, call, "SPY", 0, 0, 1, spot);
    C.UnitPayoffIsDepth(put, Put, 1, spot);
    C.UnitPayoffIsDepth(call, Call, 1, spot);
  }

  /** With a put credit of 1 and a call credit of 2, both reported break-even points of the condor are
      points of profit: $100 at 98 and $300 at 105. */
  lemma {:induction false} CondorPointsAreWrong()
    ensures var condor := IronCondor("SPY", 0, 0, Calls(2.0), [PUT95, PUT100], 0.30, 1, 1);
            && condor.Some? && condor.value.breakEven == [98.0, 105.0]
            && ExpiryPnl(condor.value, 98.0) == 100.0 && ExpiryPnl(condor.value, 105.0) == 300.0
  {
    var _ := CondorAt(2.0, 98.0);
    var _ := CondorAt(2.0, 105.0);
  }

  /** With equal credits of 1 the lower point is right and the upper one is not. */
  lemma {:induction false} CondorLowerPointCanBeRight()
    ensures var condor := IronCondor("SPY", 0, 0, Calls(1.0), [PUT95, PUT100], 0.30, 1, 1);
            && condor.Some? && condor.value.breakEven == [98.0, 105.0]
            && ExpiryPnl(condor.value, 98.0) == 0.0 && ExpiryPnl(condor.value, 105.0) == 200.0
  {
    var _ := CondorAt(1.0, 98.0);
    var _ := CondorAt(1.0, 105.0);
  }

  /** A long put dearer than the short one: the $100 paid is reported as no credit, and at the long
      strike $600 are lost where $500 are reported. */
  lemma {:induction false} DebitIsHidden()
    ensures var low, high := Quote("P95", 95.0, 2.0, -0.15), Quote("P100", 100.0, 1.0, -0.30);
            var s := BullPutSpread("SPY", 0, 0, [low, high], 0.30, 1, 1);
            && s.Some? && s.value.netCredit == Some(0.0) && s.value.maxLoss == Some(500.0)
            && MidPnl(s.value, 95.0) == -600.0
  {
    var low, high := Quote("P95", 95.0, 2.0, -0.15), Quote("P100", 100.0, 1.0, -0.30);
    assert DeltaMiss(high, 0.30) == 0.0 && DeltaMiss(low, 0.30) == 0.0225;
    PutPairOfTwo(low, high, 0.30);
    SpreadIsVertical("bull_put_spread", "SPY", Put, 0, 0, high, low, 1);
    var s := Spread("bull_put_spread", "SPY", Put, 0, 0, high, low, 5.0, 1);
    MidGap(s, Put, 1, 95.0);
    VerticalAttains(s, Put, 1);
  }

  /** Two contracts of a spread bringing 1 a share report a credit of 2. */
  lemma {:induction false} CreditIsDoubled()
    ensures var one := BullPutSpread("SPY", 0, 0, [PUT95, PUT100], 0.30, 1, 1);
            var two := BullPutSpread("SPY", 0, 0, [PUT95, PUT100], 0.30, 1, 2);
            && one.Some? && two.Some? && two.value.netCredit == Some(1.0)
            && ScaleStrategy(one.value, 2).netCredit == Some(2.0)
  {
    PutSideIsBuilt();
  }

  // ---- sizing, prices, news --------------------------------------------------

  /** With half a dollar of equity, two contracts losing a cent each are sized where the gate
      accepts one. */
  lemma {:induction false} SizedPastTheGate()
    ensures var cfg := AgentConfig(T.BudgetOf(1).(maxLossPerTradePct := 0.02), 0.55, true, 10);
            && SizeFor(cfg, 0.5, Some(0.01)) == 2 && !Z.SizingAgrees(cfg, 0.5, 0.01)
  {
  }

  /** At the money with d1 = 0 the code's put-call parity is off. */
  lemma {:induction false} ParityIsOff(m: P.Maths)
    requires m.Lawful() && m.log(1.0) == 0.0
    ensures P.D1(m, 1.0, 1.0, 1.0, -0.5, 1.0) == 0.0
    ensures P.BlackScholes(m, 1.0, 1.0, 1.0, -0.5, 1.0, Call).value
            - P.BlackScholes(m, 1.0, 1.0, 1.0, -0.5, 1.0, Put).value
            != 1.0 - m.exp(0.5)
  {
    P.PutCallParity(m, 1.0, 1.0, 1.0, -0.5, 1.0);
  }

  /** Two providers' items on one date and id come out in the order they came in. */
  lemma {:induction false} RivalsKeepTheirOrder()
    ensures var a := N.NewsItem(Some("a"), "7", 0, "");
            var b := N.NewsItem(Some("b"), "7", 0, "");
            N.Selection([a, b]) == [a, b] && N.Selection([b, a]) == [b, a]
  {
    var a := N.NewsItem(Some("a"), "7", 0, "");
    var b := N.NewsItem(Some("b"), "7", 0, "");
    TiedPair(a, b);
    TiedPair(b, a);
  }

  lemma {:induction false} TiedPair(a: N.NewsItem, b: N.NewsItem)
    requires N.RankLe(a, b) && N.Key(a) != N.Key(b)
    ensures N.Selection([a, b]) == [a, b]
  {
    var two := [a, b];
    assert two[0..] == two && two[1..] == [b] && two[2..] == [] && [b][1..] == [];
    assert N.Ranked([b]) == [b] && N.Ranked(two) == two;
    N.UniqueStep(two, 0, {});
    N.UniqueStep(two, 1, {} + {N.Key(a)});
  }

  // ---- the desk --------------------------------------------------------------

  /** One decision has read the account of an empty desk. */
  lemma {:induction false} OneStarted(dg: Digest) returns (m: Machine)
    ensures m == Run(T.ConfigOf(1), dg, IDLE, T.Starts(0, 1))
    ensures m.tasks == [T.Started(T.Id(0))] && T.Fits(1, m.desk.account)
    ensures m.desk == START.(account := m.desk.account)
  {
    T.StartAll(1, dg, IDLE, 0, 1, 1);
    T.RoomForOneMore(1, []);
    m := Run(T.ConfigOf(1), dg, IDLE, T.Starts(0, 1));
  }

  /** A decision begins, the desk is killed, and the order still goes out: an execution is journalled
      and a position opened on a killed desk. */
  lemma {:induction false} KilledDeskExecutes(dg: Digest) returns (before: seq<Event>, after: seq<Event>)
    ensures forall e :: e in after ==> !e.Resume?
    ensures var killed := Run(T.ConfigOf(1), dg, IDLE, before);
            var end := Run(T.ConfigOf(1), dg, killed, after);
            && killed.desk.kill && killed.desk.journal == [] && killed.desk.book == []
            && end.desk.kill && |end.desk.journal| == 1 && end.desk.journal[0].kind == "execution"
            && |end.desk.book| == 1 && end.desk.book[0].status.Executed?
  {
    var started := OneStarted(dg);
    before, after := T.Starts(0, 1) + [Kill], T.FIVE;
    RunConcat(T.ConfigOf(1), dg, IDLE, T.Starts(0, 1), [Kill]);
    var killed := started.(desk := started.desk.(kill := true));
    assert Run(T.ConfigOf(1), dg, started, [Kill]) == killed;
    var _ := T.FinishFirst(1, dg, killed, T.Id(0), 1);
  }

  /** An order is filled and journalled, then its decision is torn down: the trail holds an
      execution that no log and no book knows of. */
  lemma {:induction false} ExecutionIsTorn(dg: Digest) returns (events: seq<Event>)
    ensures var end := Run(T.ConfigOf(1), dg, IDLE, events);
            && |end.desk.journal| == 1 && end.desk.journal[0].kind == "execution"
            && end.desk.log == [] && end.desk.book == [] && end.tasks == []
            && !A.Balanced(end)
  {
    var m := OneStarted(dg);
    var rest := [T.FIVE[0], T.FIVE[1], T.FIVE[2], T.FIVE[3], Abandon(0)];
    events := T.Starts(0, 1) + rest;
    RunConcat(T.ConfigOf(1), dg, IDLE, T.Starts(0, 1), rest);
    var end := FilledAndTorn(dg, m, rest);
    if A.Balanced(end) { A.BalancedLength(end); }
  }

  lemma {:induction false} Abandoned(cfg: AgentConfig, dg: Digest, m: Machine)
    requires |m.tasks| == 1
    ensures Step(cfg, dg, m, Abandon(0)) == m.(tasks := [])
  {
  }

  lemma {:induction false} FilledAndTorn(dg: Digest, m: Machine, e: seq<Event>) returns (end: Machine)
    requires m.tasks == [T.Started(T.Id(0))] && T.Fits(1, m.desk.account) && m.desk.journal == []
    requires |e| == 5 && e[..4] == T.FIVE[..4] && e[4] == Abandon(0)
    ensures end == Run(T.ConfigOf(1), dg, m, e) && end.tasks == []
    ensures end.desk == m.desk.(journal := [T.FilledLine(dg, [])])
  {
    var a, b, c, d := T.FillFirst(1, dg, m, T.Id(0));
    end := d.(tasks := []);
    Abandoned(T.ConfigOf(1), dg, d);
    assert forall i :: 0 <= i < 4 ==> e[i] == e[..4][i] == T.FIVE[..4][i] == T.FIVE[i];
    RunsFive(T.ConfigOf(1), dg, e, m, a, b, c, d, end);
  }

  lemma {:induction false} RunsFive(
    cfg: AgentConfig, dg: Digest, e: seq<Event>,
    m: Machine, a: Machine, b: Machine, c: Machine, d: Machine, end: Machine)
    requires |e| == 5 && Step(cfg, dg, m, e[0]) == a && Step(cfg, dg, a, e[1]) == b && Step(cfg, dg, b, e[2]) == c
    requires Step(cfg, dg, c, e[3]) == d && Step(cfg, dg, d, e[4]) == end
    ensures Run(cfg, dg, m, e) == end
  {
    assert e[1..][1..] == e[2..] && e[2..][1..] == e[3..] && e[3..][1..] == e[4..] && e[4..][1..] == [];
    assert Run(cfg, dg, m, e) == Run(cfg, dg, a, e[1..]);
    assert Run(cfg, dg, a, e[1..]) == Run(cfg, dg, b, e[2..]);
    assert Run(cfg, dg, b, e[2..]) == Run(cfg, dg, c, e[3..]);
    assert Run(cfg, dg, c, e[3..]) == Run(cfg, dg, d, e[4..]);
  }
}
