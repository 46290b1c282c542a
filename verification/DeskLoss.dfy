/** From risk figures to money: what the whole book can lose at expiry. */
module DeskLoss {
  import opened Basics
  import opened Risk
  import opened TradingSchemas
  import opened Journal
  import opened Agent
  import opened Book
  import opened Desk
  import D = DefinedRisk
  import I = Interleaving
  import S = InterleavedSafety
  import R = DeskRuns

  /** Profit or loss of a book when every underlying ends at the given price. */
  ghost function BookPnl(book: seq<AgentDecision>, price: string -> real): real {
    if book == [] then 0.0 else
      var d := book[|book| - 1];
      BookPnl(book[..|book| - 1], price)
        + if d.strategy.None? then 0.0 else D.ExpiryPnl(d.strategy.value, price(d.symbol))
  }

  ghost predicate AllHonest(book: seq<AgentDecision>) {
    forall d :: d in book ==> d.strategy.Some? && D.Honest(d.strategy.value)
  }

  lemma {:induction false} PnlAboveCommitted(book: seq<AgentDecision>, price: string -> real)
    requires AllHonest(book)
    ensures BookPnl(book, price) >= -Total(AllRisk, book)
  {
    if book != [] {
      var d := book[|book| - 1];
      PnlAboveCommitted(book[..|book| - 1], price);
      assert d in book && D.RiskIsDefined(d.strategy.value, price(d.symbol));
    }
  }

  /** Wherever every underlying ends, a desk with at most `k` decisions in flight and no equity
      reading above `e` loses no more than its total budget plus `k - 1` per-trade caps. */
  lemma {:induction false} ConcurrentLossIsBounded(
    cfg: AgentConfig, dg: Digest, e: real, k: Pos, events: seq<I.Event>, price: string -> real)
    requires S.Sane(cfg.budget) && e >= 0.000001
    requires S.AtMostInFlight(cfg, dg, I.IDLE, events, k) && S.EquityAtMost(events, e)
    ensures BookPnl(I.Run(cfg, dg, I.IDLE, events).desk.book, price)
            >= -(Share(cfg.budget.maxTotalDefinedRiskPct, e) + S.Caps(k - 1, Share(cfg.budget.maxLossPerTradePct, e)))
  {
    S.ConcurrentRiskIsBounded(cfg, dg, e, k, AllRisk, events);
    S.EveryRunIsOk(cfg, dg, e, k, events);
    PnlAboveCommitted(I.Run(cfg, dg, I.IDLE, events).desk.book, price);
  }

  /** In every sequential history the open book loses no more than its total budget at the
      equity the latest execution saw. */
  lemma {:induction false} SequentialLossIsBounded(cfg: AgentConfig, dg: Digest, ops: seq<R.Op>, price: string -> real)
    ensures var latest := R.HistoryOf(cfg, dg, START, ops, R.NOTHING).latest;
            var pnl := BookPnl(R.RunOps(cfg, dg, START, ops).book, price);
            if latest.None? then pnl == 0.0
            else pnl >= -Share(cfg.budget.maxTotalDefinedRiskPct, GateEquity(latest.value))
  {
    R.SequentialRiskIsBounded(cfg, dg, ops);
    PnlAboveCommitted(R.RunOps(cfg, dg, START, ops).book, price);
  }
}
