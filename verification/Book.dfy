/** The book of open decisions and the account snapshot derived from it
    (`_open` and `_account_snapshot` in services/trading/desk.py). */
module Book {
  import opened Basics
  import opened Risk
  import opened TradingSchemas
  import opened Agent

  function LossOf(d: AgentDecision): real { if d.strategy.None? then 0.0 else OrZero(d.strategy.value.maxLoss) }

  /** What a book can be measured by: dollars at risk, dollars at risk in one symbol, number of positions. */
  datatype Measure = AllRisk | SymbolRisk(symbol: string) | Positions

  function Weigh(m: Measure, d: AgentDecision): real {
    match m
    case AllRisk => LossOf(d)
    case SymbolRisk(symbol) => if d.strategy.Some? && d.symbol == symbol then LossOf(d) else 0.0
    case Positions => 1.0
  }

  function Total(m: Measure, book: seq<AgentDecision>): real {
    if book == [] then 0.0 else Total(m, book[..|book| - 1]) + Weigh(m, book[|book| - 1])
  }

  function Exposures(book: seq<AgentDecision>): map<string, real> {
    if book == [] then map[] else
      var before, d := Exposures(book[..|book| - 1]), book[|book| - 1];
      if d.strategy.None? then before else before[d.symbol := Lookup(before, d.symbol) + LossOf(d)]
  }

  /** The account as risk decisions see it: live equity and cash, risk figures from the book. */
  function SnapshotOf(book: seq<AgentDecision>, base: AccountSnapshot): AccountSnapshot {
    AccountSnapshot(base.equity, base.cash, base.buyingPower, base.dailyPl,
                    |book|, Total(AllRisk, book), Exposures(book))
  }

  /** The figure of a snapshot that a measure talks about. */
  function Seen(m: Measure, a: AccountSnapshot): real {
    match m
    case AllRisk => a.definedRiskCommitted
    case SymbolRisk(symbol) => Lookup(a.exposureByUnderlying, symbol)
    case Positions => a.openPositions as real
  }

  function Find(book: seq<AgentDecision>, id: string): (i: Option<nat>)
    ensures i.Some? ==> i.value < |book| && book[i.value].decisionId == id
    ensures i.None? ==> forall d :: d in book ==> d.decisionId != id
  {
    if book == [] then None
    else if book[0].decisionId == id then Some(0)
    else var i := Find(book[1..], id);
      if i.None? then None else Some(i.value + 1)
  }

  /** Assignment into the insertion-ordered dictionary of open decisions. */
  function Opened(book: seq<AgentDecision>, d: AgentDecision): seq<AgentDecision> {
    var i := Find(book, d.decisionId);
    if i.Some? then book[i.value := d] else book + [d]
  }

  /** Removal by id; an unknown id changes nothing. */
  function Remove(book: seq<AgentDecision>, id: string): seq<AgentDecision> {
    var i := Find(book, id);
    if i.Some? then book[..i.value] + book[i.value + 1..] else book
  }

  lemma {:induction false} TotalPush(m: Measure, book: seq<AgentDecision>, d: AgentDecision)
    ensures Total(m, book + [d]) == Total(m, book) + Weigh(m, d)
  {
    assert (book + [d])[..|book|] == book;
  }

  lemma {:induction false} TotalConcat(m: Measure, a: seq<AgentDecision>, b: seq<AgentDecision>)
    ensures Total(m, a + b) == Total(m, a) + Total(m, b)
  {
    if b == [] {
      assert a + b == a;
    } else {
      assert (a + b)[..|a + b| - 1] == a + b[..|b| - 1];
      TotalConcat(m, a, b[..|b| - 1]);
    }
  }

  lemma {:induction false} TotalSplit(m: Measure, book: seq<AgentDecision>, i: nat)
    requires i < |book|
    ensures Total(m, book) == Total(m, book[..i]) + Weigh(m, book[i]) + Total(m, book[i + 1..])
  {
    assert book == book[..i] + [book[i]] + book[i + 1..];
    TotalConcat(m, book[..i] + [book[i]], book[i + 1..]);
    TotalPush(m, book[..i], book[i]);
  }

  /** Closing a decision lowers every total by exactly what it weighed; an unknown id changes none. */
  lemma {:induction false} CloseLowersTotals(m: Measure, book: seq<AgentDecision>, id: string)
    ensures var i := Find(book, id);
            Total(m, Remove(book, id)) == Total(m, book) - (if i.Some? then Weigh(m, book[i.value]) else 0.0)
  {
    var i := Find(book, id);
    if i.Some? {
      TotalSplit(m, book, i.value);
      TotalConcat(m, book[..i.value], book[i.value + 1..]);
    }
  }

  /** Opening a decision raises every total by what it weighs, less what it replaces under the same id. */
  lemma {:induction false} OpenRaisesTotals(m: Measure, book: seq<AgentDecision>, d: AgentDecision)
    ensures var i := Find(book, d.decisionId);
            Total(m, Opened(book, d)) == Total(m, book) + Weigh(m, d)
              - (if i.Some? then Weigh(m, book[i.value]) else 0.0)
  {
    var i := Find(book, d.decisionId);
    if i.Some? {
      var after := book[i.value := d];
      TotalSplit(m, book, i.value);
      TotalSplit(m, after, i.value);
      assert after[..i.value] == book[..i.value] && after[i.value + 1..] == book[i.value + 1..];
    } else {
      TotalPush(m, book, d);
    }
  }

  lemma {:induction false} TotalPositions(book: seq<AgentDecision>)
    ensures Total(Positions, book) == |book| as real
  {
    if book != [] { TotalPositions(book[..|book| - 1]); }
  }

  lemma {:induction false} ExposureIsSymbolRisk(book: seq<AgentDecision>, symbol: string)
    ensures Lookup(Exposures(book), symbol) == Total(SymbolRisk(symbol), book)
  {
    if book != [] { ExposureIsSymbolRisk(book[..|book| - 1], symbol); }
  }

  /** A snapshot shows each measure's true total. */
  lemma {:induction false} SnapshotIsExact(m: Measure, book: seq<AgentDecision>, base: AccountSnapshot)
    ensures Seen(m, SnapshotOf(book, base)) == Total(m, book)
  {
    match m
    case AllRisk =>
    case SymbolRisk(symbol) => ExposureIsSymbolRisk(book, symbol);
    case Positions => TotalPositions(book);
  }

  /** Sum of a dictionary's values over the given keys. */
  ghost function SumOver(exposure: map<string, real>, keys: seq<string>): real {
    if keys == [] then 0.0 else SumOver(exposure, keys[..|keys| - 1]) + Lookup(exposure, keys[|keys| - 1])
  }

  /** The dictionary's keys in insertion order. */
  ghost function Symbols(book: seq<AgentDecision>): seq<string> {
    if book == [] then [] else
      var before, d := Symbols(book[..|book| - 1]), book[|book| - 1];
      if d.strategy.None? || d.symbol in before then before else before + [d.symbol]
  }

  lemma {:induction false} SumOverUpdate(exposure: map<string, real>, keys: seq<string>, k: string, v: real)
    requires forall i, j :: 0 <= i < j < |keys| ==> keys[i] != keys[j]
    ensures SumOver(exposure[k := v], keys)
            == SumOver(exposure, keys) + (if k in keys then v - Lookup(exposure, k) else 0.0)
  {
    if keys != [] {
      SumOverUpdate(exposure, keys[..|keys| - 1], k, v);
      assert keys == keys[..|keys| - 1] + [keys[|keys| - 1]];
    }
  }

  lemma {:induction false} SymbolsAreKeys(book: seq<AgentDecision>)
    ensures forall k :: k in Symbols(book) <==> k in Exposures(book)
    ensures forall i, j :: 0 <= i < j < |Symbols(book)| ==> Symbols(book)[i] != Symbols(book)[j]
  {
    if book != [] { SymbolsAreKeys(book[..|book| - 1]); }
  }

  lemma {:induction false} SumOverPush(exposure: map<string, real>, keys: seq<string>, k: string)
    ensures SumOver(exposure, keys + [k]) == SumOver(exposure, keys) + Lookup(exposure, k)
  {
    assert (keys + [k])[..|keys|] == keys;
  }

  /** One more open decision raises the sum of exposures by its loss. */
  lemma {:induction false} ExposureStep(exposure: map<string, real>, keys: seq<string>, k: string, loss: real)
    requires forall i, j :: 0 <= i < j < |keys| ==> keys[i] != keys[j]
    requires k in keys <==> k in exposure
    ensures SumOver(exposure[k := Lookup(exposure, k) + loss], if k in keys then keys else keys + [k])
            == SumOver(exposure, keys) + loss
  {
    var more := exposure[k := Lookup(exposure, k) + loss];
    SumOverUpdate(exposure, keys, k, Lookup(exposure, k) + loss);
    if k !in keys { SumOverPush(more, keys, k); }
  }

  /** Exposure conservation: the per-symbol exposures of any book add up to the risk committed. */
  lemma {:induction false} ExposuresSumToCommitted(book: seq<AgentDecision>)
    ensures SumOver(Exposures(book), Symbols(book)) == Total(AllRisk, book)
  {
    if book != [] {
      var before, d := book[..|book| - 1], book[|book| - 1];
      ExposuresSumToCommitted(before);
      SymbolsAreKeys(before);
      ExposureStep(Exposures(before), Symbols(before), d.symbol, LossOf(d));
    }
  }
}
