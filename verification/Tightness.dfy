/** The concurrency bound is met: whatever number of per-trade caps the limits hold, and for every
    `k`, there is a run with `k` decisions in flight that reaches it, so from two decisions on the
    sequential limits really are exceeded. */
module Tightness {
  import opened Basics
  import opened Options
  import opened Picking
  import opened Strategies
  import opened Risk
  import opened TradingSchemas
  import opened Journal
  import opened Agent
  import opened Book
  import opened Interleaving
  import S = InterleavedSafety

  // One put spread on SPY losing at most $400 a contract, under a cap of $400 a trade.
  const LOW := OptionQuote("SPY95", 95.0, Some(1.0), Some(1.0), None, Some(-0.15))
  const HIGH := OptionQuote("SPY100", 100.0, Some(2.0), Some(2.0), None, Some(-0.30))
  const CHAIN := OptionChain(30 * 86400, [], [LOW, HIGH])
  const MARKET := MarketReady(Some(104.0), None, Some(CHAIN))
  const SIGNAL := Signal("SPY", Bullish, 0.9, "uptrend")
  const EQUITY := 100000.0
  const BASE := AccountSnapshot(EQUITY, EQUITY, 0.0, 0.0, 0, 0.0, map[])

  /** Limits of `n` caps in total and in one symbol, and of `n` positions. */
  function BudgetOf(n: Pos): RiskBudget {
    RiskBudget(0.004, 0.004 * n as real, 0.004 * n as real, 0.2, 0.95, 7, 45, 0.6, 0.03, n)
  }

  function ConfigOf(n: Pos): AgentConfig { AgentConfig(BudgetOf(n), 0.55, true, 10) }

  /** Distinct ids: as many marks as the number says. */
  function Id(n: nat): string { seq(n, _ => 'x') }

  lemma {:induction false} PairIsPicked()
    ensures PutPair(CHAIN.puts, SHORT_DELTA, 1) == Some((HIGH, LOW))
  {
    assert DeltaMiss(HIGH, SHORT_DELTA) == 0.0 && DeltaMiss(LOW, SHORT_DELTA) == 0.0225;
    PutPairOfTwo(LOW, HIGH, SHORT_DELTA);
  }

  /** The one-contract strategy of the witness. */
  function Witness(): OptionStrategy {
    Spread("bull_put_spread", "SPY", Put, CHAIN.expiration, 0, HIGH, LOW, 5.0, 1)
  }

  lemma {:induction false} WitnessFigures()
    ensures BuildStrategy("bullish", "SPY", CHAIN.expiration, 0, [], CHAIN.puts, SHORT_DELTA, 1, 1) == Some(Witness())
    ensures Witness().maxLoss == Some(400.0) && Witness().daysToExpiration == Some(30) && Witness().underlying == "SPY"
  {
    PairIsPicked();
  }

  /** The witness decision at each point of its pass, for an account `a`. */
  function Start(id: string): AgentDecision { Fresh(id, "SPY") }

  function Sized(id: string): AgentDecision {
    Start(id).(signal := Some(SIGNAL), marketPrice := Some(104.0), strategy := Some(Witness()))
  }

  function Approved(n: Pos, a: AccountSnapshot, id: string): AgentDecision { Judge(ConfigOf(n), a, Sized(id)) }

  function Filled(n: Pos, a: AccountSnapshot, id: string): AgentDecision {
    Approved(n, a, id).(status := Executed, orderId := Some("o"))
  }

  /** An account with room for one more trade under the limits. */
  ghost predicate Fits(n: Pos, a: AccountSnapshot) {
    && a.equity == EQUITY && a.cash == EQUITY && a.dailyPl == 0.0 && a.openPositions < n
    && a.definedRiskCommitted <= 400.0 * (n - 1) as real
    && Lookup(a.exposureByUnderlying, "SPY") <= 400.0 * (n - 1) as real
  }

  lemma {:induction false} ProposesWitness(n: Pos, a: AccountSnapshot, id: string)
    requires Fits(n, a)
    ensures Propose(ConfigOf(n), a, Start(id), MARKET, Some(SIGNAL), 0) == Continue(Sized(id))
  {
    WitnessFigures();
    assert Upper("SPY") == "SPY";
    assert SizeFor(ConfigOf(n), EQUITY, Some(400.0)) == 1;
  }

  lemma {:induction false} GatesPassWitness(n: Pos, a: AccountSnapshot, id: string)
    requires Fits(n, a)
    ensures Approved(n, a, id).risk.value.Passed()
  {
    WitnessFigures();
    PassedMeansHardGates(Witness(), PortfolioOf(a), BudgetOf(n), None);
    assert GateEquity(a.equity) == EQUITY && Share(0.004, EQUITY) == 400.0 && Share(0.03, EQUITY) == 3000.0;
    assert Share(0.004 * n as real, EQUITY) == 400.0 * n as real;
    forall g: Gate | IsHard(g) ensures Holds(g, Witness(), PortfolioOf(a), BudgetOf(n), None) {}
  }

  // ---- one task --------------------------------------------------------------

  const FIVE: seq<Event> := [
    Analyse(0, MARKET, Some(SIGNAL), 0, "t"), RunGates(0), ReadVerdict(0, "t"),
    BrokerReplies(0, Accepted("o", "filled"), "t"), Record(0)]

  function Started(id: string): Task { Task("SPY", None, Analysing(Start(id))) }

  lemma {:induction false} RunsOn(
    cfg: AgentConfig, dg: Digest, m: Machine, e: seq<Event>, i: nat, after: Machine, k: nat)
    requires i < |e| && Step(cfg, dg, m, e[i]) == after
    requires |m.tasks| <= k && S.AtMostInFlight(cfg, dg, after, e[i + 1..], k)
    ensures Run(cfg, dg, m, e[i..]) == Run(cfg, dg, after, e[i + 1..])
    ensures S.AtMostInFlight(cfg, dg, m, e[i..], k)
  {
    assert e[i..][1..] == e[i + 1..];
  }

  /** The first task moved to another phase. */
  function First(m: Machine, phase: Phase): Machine
    requires m.tasks != []
  {
    MoveTo(m, 0, phase)
  }

  lemma {:induction false} FirstProposes(n: Pos, dg: Digest, m: Machine, id: string)
    requires m.tasks != [] && m.tasks[0] == Started(id) && Fits(n, m.desk.account)
    ensures Step(ConfigOf(n), dg, m, FIVE[0]) == First(m, Proposed(Sized(id)))
  {
    ProposesWitness(n, m.desk.account, id);
  }

  lemma {:induction false} FirstIsGated(n: Pos, dg: Digest, m: Machine, id: string)
    requires m.tasks != [] && m.tasks[0].phase == Proposed(Sized(id))
    ensures Step(ConfigOf(n), dg, m, FIVE[1]) == First(m, Gated(Approved(n, m.desk.account, id)))
  {
  }

  lemma {:induction false} FirstSubmits(n: Pos, dg: Digest, m: Machine, a: AccountSnapshot, id: string)
    requires m.tasks != [] && m.tasks[0].phase == Gated(Approved(n, a, id)) && m.tasks[0].execute.None? && Fits(n, a)
    ensures Step(ConfigOf(n), dg, m, FIVE[2]) == First(m, Submitting(Approved(n, a, id)))
  {
    GatesPassWitness(n, a, id);
  }

  /** The line the filled order leaves. */
  function FilledLine(dg: Digest, journal: seq<JournalEntry>): JournalEntry {
    NextEntry(dg, journal, "execution", "SPY", ExecutionPayload("o", "filled", Witness()), "t")
  }

  lemma {:induction false} FirstIsFilled(n: Pos, dg: Digest, m: Machine, a: AccountSnapshot, id: string)
    requires m.tasks != [] && m.tasks[0].phase == Submitting(Approved(n, a, id)) && m.tasks[0].symbol == "SPY"
    ensures var line := FilledLine(dg, m.desk.journal);
            Step(ConfigOf(n), dg, m, FIVE[3])
            == First(m.(desk := m.desk.(journal := m.desk.journal + [line])), Done(Filled(n, a, id)))
  {
  }

  lemma {:induction false} FirstIsRecorded(n: Pos, dg: Digest, m: Machine, a: AccountSnapshot, id: string)
    requires m.tasks != [] && m.tasks[0].phase == Done(Filled(n, a, id)) && Find(m.desk.book, id).None?
    ensures var d := Filled(n, a, id);
            Step(ConfigOf(n), dg, m, FIVE[4])
            == Machine(m.desk.(log := m.desk.log + [d], book := m.desk.book + [d]), m.tasks[1..])
  {
  }

  lemma {:induction false} RunFive(
    cfg: AgentConfig, dg: Digest, m: Machine, a: Machine, b: Machine, c: Machine, d: Machine, end: Machine, k: nat)
    requires Step(cfg, dg, m, FIVE[0]) == a && Step(cfg, dg, a, FIVE[1]) == b && Step(cfg, dg, b, FIVE[2]) == c
    requires Step(cfg, dg, c, FIVE[3]) == d && Step(cfg, dg, d, FIVE[4]) == end
    requires |m.tasks| <= k && |a.tasks| <= k && |b.tasks| <= k && |c.tasks| <= k && |d.tasks| <= k && |end.tasks| <= k
    ensures Run(cfg, dg, m, FIVE) == end && S.AtMostInFlight(cfg, dg, m, FIVE, k)
  {
    assert FIVE[5..] == [] && FIVE[0..] == FIVE;
    RunsOn(cfg, dg, d, FIVE, 4, end, k);
    RunsOn(cfg, dg, c, FIVE, 3, d, k);
    RunsOn(cfg, dg, b, FIVE, 2, c, k);
    RunsOn(cfg, dg, a, FIVE, 1, b, k);
    RunsOn(cfg, dg, m, FIVE, 0, a, k);
  }

  /** Four events fill the order of the first task, which leaves its line. */
  lemma {:induction false} FillFirst(n: Pos, dg: Digest, m: Machine, id: string)
    returns (a: Machine, b: Machine, c: Machine, d: Machine)
    requires m.tasks != [] && m.tasks[0] == Started(id) && Fits(n, m.desk.account)
    ensures Step(ConfigOf(n), dg, m, FIVE[0]) == a && Step(ConfigOf(n), dg, a, FIVE[1]) == b
    ensures Step(ConfigOf(n), dg, b, FIVE[2]) == c && Step(ConfigOf(n), dg, c, FIVE[3]) == d
    ensures |a.tasks| == |b.tasks| == |c.tasks| == |m.tasks|
    ensures d.tasks == m.tasks[0 := m.tasks[0].(phase := Done(Filled(n, m.desk.account, id)))]
    ensures var line := FilledLine(dg, m.desk.journal);
            d.desk == m.desk.(journal := m.desk.journal + [line])
  {
    var account := m.desk.account;
    FirstProposes(n, dg, m, id);
    a := First(m, Proposed(Sized(id)));
    FirstIsGated(n, dg, a, id);
    b := First(a, Gated(Approved(n, account, id)));
    FirstSubmits(n, dg, b, account, id);
    c := First(b, Submitting(Approved(n, account, id)));
    FirstIsFilled(n, dg, c, account, id);
    d := Step(ConfigOf(n), dg, c, FIVE[3]);
  }

  /** Five events take the first task into the book. */
  lemma {:induction false} FinishFirst(n: Pos, dg: Digest, m: Machine, id: string, k: nat) returns (end: Machine)
    requires m.tasks != [] && m.tasks[0] == Started(id) && Fits(n, m.desk.account) && |m.tasks| <= k
    requires Find(m.desk.book, id).None?
    ensures end == Run(ConfigOf(n), dg, m, FIVE) && S.AtMostInFlight(ConfigOf(n), dg, m, FIVE, k)
    ensures var filled, line := Filled(n, m.desk.account, id), FilledLine(dg, m.desk.journal);
            end == Machine(m.desk.(log := m.desk.log + [filled], book := m.desk.book + [filled],
                                   journal := m.desk.journal + [line]), m.tasks[1..])
  {
    var a, b, c, d := FillFirst(n, dg, m, id);
    FirstIsRecorded(n, dg, d, m.desk.account, id);
    end := Step(ConfigOf(n), dg, d, FIVE[4]);
    RunFive(ConfigOf(n), dg, m, a, b, c, d, end, k);
  }

  // ---- many tasks ------------------------------------------------------------

  function Repeat(n: nat): seq<Event> { if n == 0 then [] else FIVE + Repeat(n - 1) }

  lemma {:induction false} InFlightConcat(
    cfg: AgentConfig, dg: Digest, m: Machine, a: seq<Event>, b: seq<Event>, k: nat)
    requires S.AtMostInFlight(cfg, dg, m, a, k) && S.AtMostInFlight(cfg, dg, Run(cfg, dg, m, a), b, k)
    ensures S.AtMostInFlight(cfg, dg, m, a + b, k)
    decreases |a|
  {
    if a == [] {
      assert a + b == b;
    } else {
      assert (a + b)[1..] == a[1..] + b;
      InFlightConcat(cfg, dg, Step(cfg, dg, m, a[0]), a[1..], b, k);
    }
  }

  /** A book of witness positions under consecutive ids. */
  ghost predicate AllFilled(book: seq<AgentDecision>) {
    forall j :: 0 <= j < |book| ==>
      book[j].decisionId == Id(j) && book[j].symbol == "SPY" && book[j].strategy == Some(Witness())
  }

  /** Every task carries the next free id, and the account they share has room. */
  ghost predicate Ready(n: Pos, m: Machine) {
    && AllFilled(m.desk.book) && (m.tasks != [] ==> Fits(n, m.desk.account))
    && forall j :: 0 <= j < |m.tasks| ==> m.tasks[j] == Started(Id(|m.desk.book| + j))
  }

  lemma {:induction false} NextIdIsFree(book: seq<AgentDecision>)
    requires AllFilled(book)
    ensures Find(book, Id(|book|)).None?
  {
    forall j | 0 <= j < |book| ensures book[j].decisionId != Id(|book|) {
      assert |book[j].decisionId| == j && |Id(|book|)| == |book|;
    }
  }

  lemma {:induction false} ReadyAfterOne(n: Pos, m: Machine, after: Machine)
    requires Ready(n, m) && m.tasks != [] && after.tasks == m.tasks[1..] && after.desk.account == m.desk.account
    requires after.desk.book == m.desk.book + [Filled(n, m.desk.account, Id(|m.desk.book|))]
    ensures Ready(n, after)
  {
    assert Upper("SPY") == "SPY";
    forall j | 0 <= j < |after.tasks| ensures after.tasks[j] == Started(Id(|after.desk.book| + j)) {
      assert after.tasks[j] == m.tasks[j + 1];
    }
  }

  lemma {:induction false} RepeatSplits(cfg: AgentConfig, dg: Digest, m: Machine, n: Pos, after: Machine, k: nat)
    requires Run(cfg, dg, m, FIVE) == after && S.AtMostInFlight(cfg, dg, m, FIVE, k)
    requires S.AtMostInFlight(cfg, dg, after, Repeat(n - 1), k)
    ensures Run(cfg, dg, m, Repeat(n)) == Run(cfg, dg, after, Repeat(n - 1))
    ensures S.AtMostInFlight(cfg, dg, m, Repeat(n), k)
  {
    RunConcat(cfg, dg, m, FIVE, Repeat(n - 1));
    InFlightConcat(cfg, dg, m, FIVE, Repeat(n - 1), k);
  }

  lemma {:induction false} FinishNext(n: Pos, dg: Digest, m: Machine, k: nat) returns (after: Machine)
    requires Ready(n, m) && 0 < |m.tasks| <= k
    ensures after == Run(ConfigOf(n), dg, m, FIVE) && S.AtMostInFlight(ConfigOf(n), dg, m, FIVE, k)
    ensures Ready(n, after) && |after.tasks| == |m.tasks| - 1 && |after.desk.book| == |m.desk.book| + 1
    ensures after.desk.kill == m.desk.kill
  {
    NextIdIsFree(m.desk.book);
    assert m.tasks[0] == Started(Id(|m.desk.book| + 0));
    after := FinishFirst(n, dg, m, Id(|m.desk.book|), k);
    ReadyAfterOne(n, m, after);
  }

  /** All waiting decisions enter the book one after the other. */
  lemma {:induction false} FinishAll(n: Pos, dg: Digest, m: Machine, k: nat) returns (end: Machine)
    requires Ready(n, m) && |m.tasks| <= k
    ensures end == Run(ConfigOf(n), dg, m, Repeat(|m.tasks|))
    ensures S.AtMostInFlight(ConfigOf(n), dg, m, Repeat(|m.tasks|), k)
    ensures AllFilled(end.desk.book) && |end.desk.book| == |m.desk.book| + |m.tasks| && end.tasks == []
    ensures end.desk.kill == m.desk.kill
    decreases |m.tasks|
  {
    if m.tasks == [] {
      end := m;
    } else {
      var after := FinishNext(n, dg, m, k);
      end := FinishAll(n, dg, after, k);
      RepeatSplits(ConfigOf(n), dg, m, |m.tasks|, after, k);
    }
  }

  /** `n` decisions begin and read the account, over a book of `b` positions. */
  function Starts(b: nat, n: nat): seq<Event> {
    if n == 0 then [] else Starts(b, n - 1) + [Begin("SPY", None), GetAccount(n - 1, Some(BASE), Id(b + n - 1))]
  }

  lemma {:induction false} FilledWeight(ms: Measure, d: AgentDecision)
    requires ms == AllRisk || ms == SymbolRisk("SPY") || ms == Positions
    requires d.symbol == "SPY" && d.strategy == Some(Witness())
    ensures Weigh(ms, d) == if ms.Positions? then 1.0 else 400.0
  {
    WitnessFigures();
  }

  lemma {:induction false} FilledTotal(ms: Measure, book: seq<AgentDecision>)
    requires AllFilled(book)
    requires ms == AllRisk || ms == SymbolRisk("SPY") || ms == Positions
    ensures Total(ms, book) == if ms.Positions? then |book| as real else 400.0 * |book| as real
  {
    if book != [] {
      FilledWeight(ms, book[|book| - 1]);
      FilledTotal(ms, book[..|book| - 1]);
    }
  }

  lemma {:induction false} RoomForOneMore(n: Pos, book: seq<AgentDecision>)
    requires AllFilled(book) && |book| < n
    ensures Fits(n, SnapshotOf(book, BASE))
  {
    FilledTotal(AllRisk, book);
    FilledTotal(SymbolRisk("SPY"), book);
    ExposureIsSymbolRisk(book, "SPY");
  }

  /** A desk at rest with `b` witness positions. */
  ghost predicate AtRest(m: Machine, b: nat) {
    m.tasks == [] && !m.desk.kill && AllFilled(m.desk.book) && |m.desk.book| == b
  }

  lemma {:induction false} StartOne(n: Pos, dg: Digest, m: Machine, b: nat, i: nat, k: nat)
    requires |m.tasks| == i < k && !m.desk.kill && AllFilled(m.desk.book) && |m.desk.book| == b
    ensures var two := [Begin("SPY", None), GetAccount(i, Some(BASE), Id(b + i))];
            var end := Run(ConfigOf(n), dg, m, two);
            && end.tasks == m.tasks + [Started(Id(b + i))] && !end.desk.kill
            && end.desk == m.desk.(account := SnapshotOf(m.desk.book, BASE))
            && S.AtMostInFlight(ConfigOf(n), dg, m, two, k)
  {
    var two := [Begin("SPY", None), GetAccount(i, Some(BASE), Id(b + i))];
    var x := Step(ConfigOf(n), dg, m, two[0]);
    var y := Step(ConfigOf(n), dg, x, two[1]);
    assert y.tasks == m.tasks + [Started(Id(b + i))];
    assert two[2..] == [] && two[0..] == two;
    RunsOn(ConfigOf(n), dg, x, two, 1, y, k);
    RunsOn(ConfigOf(n), dg, m, two, 0, x, k);
  }

  /** The tasks just started, over an unchanged book. */
  ghost predicate JustStarted(m: Machine, b: nat, i: nat, end: Machine) {
    && |end.tasks| == i && (forall j :: 0 <= j < i ==> end.tasks[j] == Started(Id(b + j)))
    && end.desk == m.desk.(account := if i == 0 then m.desk.account else SnapshotOf(m.desk.book, BASE))
  }

  lemma {:induction false} StartMore(n: Pos, dg: Digest, m: Machine, before: Machine, b: nat, i: nat, k: nat)
    requires AtRest(m, b) && i < k && JustStarted(m, b, i, before)
    ensures var two := [Begin("SPY", None), GetAccount(i, Some(BASE), Id(b + i))];
            && JustStarted(m, b, i + 1, Run(ConfigOf(n), dg, before, two))
            && S.AtMostInFlight(ConfigOf(n), dg, before, two, k)
  {
    StartOne(n, dg, before, b, i, k);
  }

  lemma {:induction false} StartAll(n: Pos, dg: Digest, m: Machine, b: nat, i: nat, k: nat)
    requires AtRest(m, b) && i <= k
    ensures JustStarted(m, b, i, Run(ConfigOf(n), dg, m, Starts(b, i)))
    ensures S.AtMostInFlight(ConfigOf(n), dg, m, Starts(b, i), k) && S.EquityAtMost(Starts(b, i), EQUITY)
  {
    if i > 0 {
      StartAll(n, dg, m, b, i - 1, k);
      var before := Run(ConfigOf(n), dg, m, Starts(b, i - 1));
      var two := [Begin("SPY", None), GetAccount(i - 1, Some(BASE), Id(b + i - 1))];
      assert Starts(b, i) == Starts(b, i - 1) + two;
      StartMore(n, dg, m, before, b, i - 1, k);
      RunConcat(ConfigOf(n), dg, m, Starts(b, i - 1), two);
      InFlightConcat(ConfigOf(n), dg, m, Starts(b, i - 1), two, k);
    }
  }

  lemma {:induction false} RepeatReadsNoEquity(n: nat)
    ensures S.EquityAtMost(Repeat(n), EQUITY)
  {
    if n > 0 { RepeatReadsNoEquity(n - 1); }
  }

  /** `i` decisions at once, on a desk with `b` positions. */
  function Batch(b: nat, i: nat): seq<Event> { Starts(b, i) + Repeat(i) }

  lemma {:induction false} BatchFills(n: Pos, dg: Digest, m: Machine, b: nat, i: nat, k: nat)
    requires AtRest(m, b) && b < n && i <= k
    ensures AtRest(Run(ConfigOf(n), dg, m, Batch(b, i)), b + i)
    ensures S.AtMostInFlight(ConfigOf(n), dg, m, Batch(b, i), k) && S.EquityAtMost(Batch(b, i), EQUITY)
  {
    StartAll(n, dg, m, b, i, k);
    var started := Run(ConfigOf(n), dg, m, Starts(b, i));
    RoomForOneMore(n, m.desk.book);
    var end := FinishAll(n, dg, started, k);
    RunConcat(ConfigOf(n), dg, m, Starts(b, i), Repeat(i));
    InFlightConcat(ConfigOf(n), dg, m, Starts(b, i), Repeat(i), k);
    RepeatReadsNoEquity(i);
  }

  /** One decision after the other until `b` positions are open. */
  function OneByOne(b: nat): seq<Event> { if b == 0 then [] else OneByOne(b - 1) + Batch(b - 1, 1) }

  lemma {:induction false} OneByOneFills(n: Pos, dg: Digest, b: nat, k: Pos)
    requires b <= n
    ensures AtRest(Run(ConfigOf(n), dg, IDLE, OneByOne(b)), b)
    ensures S.AtMostInFlight(ConfigOf(n), dg, IDLE, OneByOne(b), k) && S.EquityAtMost(OneByOne(b), EQUITY)
  {
    if b > 0 {
      OneByOneFills(n, dg, b - 1, k);
      BatchFills(n, dg, Run(ConfigOf(n), dg, IDLE, OneByOne(b - 1)), b - 1, 1, k);
      RunConcat(ConfigOf(n), dg, IDLE, OneByOne(b - 1), Batch(b - 1, 1));
      InFlightConcat(ConfigOf(n), dg, IDLE, OneByOne(b - 1), Batch(b - 1, 1), k);
    }
  }

  /** The concurrent bound, written out for these budgets. */
  lemma {:induction false} BoundOf(n: Pos, k: Pos, ms: Measure)
    requires ms == AllRisk || ms == SymbolRisk("SPY") || ms == Positions
    ensures S.Limit(BudgetOf(n), EQUITY, ms) + S.Caps(k - 1, S.Cap(BudgetOf(n), EQUITY, ms))
            == (n + k - 1) as real * if ms.Positions? then 1.0 else 400.0
  {
    assert Share(0.004 * n as real, EQUITY) == 400.0 * n as real;
  }

  ghost predicate MeetsBound(n: Pos, k: Pos, ms: Measure, book: seq<AgentDecision>) {
    Total(ms, book) == S.Limit(BudgetOf(n), EQUITY, ms) + S.Caps(k - 1, S.Cap(BudgetOf(n), EQUITY, ms))
  }

  /** For every `n` and `k`, one run with at most `k` decisions in flight, under limits of `n` caps,
      meets the concurrent bound exactly in total risk, in one symbol's risk and in open positions. */
  lemma {:induction false} ConcurrentBoundIsMet(dg: Digest, n: Pos, k: Pos) returns (events: seq<Event>)
    ensures S.Sane(BudgetOf(n)) && S.EquityAtMost(events, EQUITY)
    ensures S.AtMostInFlight(ConfigOf(n), dg, IDLE, events, k)
    ensures var book := Run(ConfigOf(n), dg, IDLE, events).desk.book;
            && MeetsBound(n, k, AllRisk, book) && MeetsBound(n, k, SymbolRisk("SPY"), book)
            && MeetsBound(n, k, Positions, book)
  {
    events := OneByOne(n - 1) + Batch(n - 1, k);
    OneByOneFills(n, dg, n - 1, k);
    var rested := Run(ConfigOf(n), dg, IDLE, OneByOne(n - 1));
    BatchFills(n, dg, rested, n - 1, k, k);
    RunConcat(ConfigOf(n), dg, IDLE, OneByOne(n - 1), Batch(n - 1, k));
    InFlightConcat(ConfigOf(n), dg, IDLE, OneByOne(n - 1), Batch(n - 1, k), k);
    var book := Run(ConfigOf(n), dg, IDLE, events).desk.book;
    forall ms | ms == AllRisk || ms == SymbolRisk("SPY") || ms == Positions ensures MeetsBound(n, k, ms, book) {
      FilledTotal(ms, book);
      BoundOf(n, k, ms);
    }
  }
}
