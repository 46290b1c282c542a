/** Position sizing against the per-trade gate (services/trading/agent.py, services/risk/engine.py). */
module Sizing {
  import opened Basics
  import opened Options
  import opened Strategies
  import opened Risk
  import opened Agent

  /** Loss of a position of `q` contracts, each losing `loss`. */
  ghost function Scaled(loss: real, q: Pos): real { loss * q as real }

  lemma {:induction false} QuotientFits(limit: real, loss: real, k: Pos)
    requires loss > 0.0
    ensures Scaled(loss, k) <= limit <==> k <= (limit / loss).Floor
  {
    var x := limit / loss;
    assert x * loss == limit;
    ProductSign(k as real - x, loss);
    assert (k as real - x) * loss == Scaled(loss, k) - limit;
  }

  /** The sizes in 1..maxContracts that fit the sizing limit are exactly 1..q for the chosen q,
      or none of them when a single contract is over it. */
  lemma {:induction false} SizeIsLargest(cfg: AgentConfig, equity: real, loss: real, k: Pos)
    requires loss > 0.0 && k <= cfg.maxContracts
    ensures var q := SizeFor(cfg, equity, Some(loss));
            var limit := Share(cfg.budget.maxLossPerTradePct, Max(equity, 1.0));
            && q <= cfg.maxContracts
            && (Scaled(loss, k) <= limit <==> loss <= limit && k <= q)
  {
    var limit := Share(cfg.budget.maxLossPerTradePct, Max(equity, 1.0));
    QuotientFits(limit, loss, k);
    QuotientFits(limit, loss, 1);
    ProductSign(limit / loss, loss);
    assert limit / loss * loss == limit;
  }

  /** After sizing, the per-trade gate fails exactly when it fails for a single contract. */
  ghost predicate SizingAgrees(cfg: AgentConfig, equity: real, loss: real) {
    Scaled(loss, SizeFor(cfg, equity, Some(loss))) <= Share(cfg.budget.maxLossPerTradePct, GateEquity(equity))
    <==> loss <= Share(cfg.budget.maxLossPerTradePct, GateEquity(equity))
  }

  lemma {:induction false} SizeIsOneOverLimit(cfg: AgentConfig, equity: real, loss: real)
    requires loss > 0.0 && (loss > Share(cfg.budget.maxLossPerTradePct, Max(equity, 1.0)) || cfg.maxContracts < 2)
    ensures SizeFor(cfg, equity, Some(loss)) == 1
  {
    if cfg.maxContracts >= 1 { SizeIsLargest(cfg, equity, loss, 1); }
    if cfg.maxContracts >= 2 {
      var limit := Share(cfg.budget.maxLossPerTradePct, Max(equity, 1.0));
      QuotientFits(limit, loss, 1);
    }
  }

  lemma {:induction false} AgreesAbove(cfg: AgentConfig, equity: real, loss: real)
    requires loss > 0.0 && (equity >= 1.0 || cfg.budget.maxLossPerTradePct <= 0.0 || cfg.maxContracts < 2)
    ensures SizingAgrees(cfg, equity, loss)
  {
    var pct, q := cfg.budget.maxLossPerTradePct, SizeFor(cfg, equity, Some(loss));
    if pct <= 0.0 { ScaleLe(pct, 0.0, Max(equity, 1.0)); }
    if loss > Share(pct, Max(equity, 1.0)) || cfg.maxContracts < 2 {
      SizeIsOneOverLimit(cfg, equity, loss);
    } else {
      SizeIsLargest(cfg, equity, loss, q);
    }
  }

  /** A loss that fits the gate once, fits the sizing limit twice, and breaks the gate twice. */
  lemma {:induction false} TwiceDisagrees(cfg: AgentConfig, equity: real, loss: real)
    requires cfg.maxContracts >= 2 && loss > 0.0
    requires loss <= Share(cfg.budget.maxLossPerTradePct, GateEquity(equity)) < 2.0 * loss
    requires 2.0 * loss <= Share(cfg.budget.maxLossPerTradePct, Max(equity, 1.0))
    ensures !SizingAgrees(cfg, equity, loss)
  {
    SizeIsLargest(cfg, equity, loss, 2);
    assert Scaled(loss, 2) == 2.0 * loss;
    var q := SizeFor(cfg, equity, Some(loss));
    assert q >= 2;
    ScaleLe(2.0, q as real, loss);
    assert Scaled(loss, q) >= 2.0 * loss;
  }

  /** Halving a fraction of equity compares as halving the equity. */
  lemma {:induction false} ShareOrder(pct: real, x: real, y: real, k: real)
    requires pct > 0.0
    ensures k * Share(pct, x) < Share(pct, y) <==> k * x < y
    ensures k * Share(pct, x) <= Share(pct, y) <==> k * x <= y
  {
    ProductSign(y - k * x, pct);
    assert Share(pct, y) - k * Share(pct, x) == (y - k * x) * pct;
  }

  lemma {:induction false} DisagreesBelow(cfg: AgentConfig, equity: real) returns (loss: real)
    requires equity < 1.0 && cfg.budget.maxLossPerTradePct > 0.0 && cfg.maxContracts >= 2
    ensures loss > 0.0 && !SizingAgrees(cfg, equity, loss)
  {
    var pct, gate := cfg.budget.maxLossPerTradePct, GateEquity(equity);
    ProductSign(gate, pct);
    ShareOrder(pct, gate, 1.0, 1.0);
    ShareOrder(pct, gate, 1.0, 2.0);
    loss := if 2.0 * gate <= 1.0 then Share(pct, gate) else Share(pct, 1.0) / 2.0;
    TwiceDisagrees(cfg, equity, loss);
  }

  /** Sizing and gate agree for every loss exactly from an equity of one dollar up (or when the
      budget or the cap leaves nothing to size): below it they divide different equities. */
  lemma {:induction false} SizingMeetsGate(cfg: AgentConfig, equity: real)
    ensures (forall loss: real :: loss > 0.0 ==> SizingAgrees(cfg, equity, loss))
            <==> equity >= 1.0 || cfg.budget.maxLossPerTradePct <= 0.0 || cfg.maxContracts < 2
  {
    if equity >= 1.0 || cfg.budget.maxLossPerTradePct <= 0.0 || cfg.maxContracts < 2 {
      forall loss: real | loss > 0.0 ensures SizingAgrees(cfg, equity, loss) { AgreesAbove(cfg, equity, loss); }
    } else {
      var loss := DisagreesBelow(cfg, equity);
    }
  }

  lemma {:induction false} ScaledLoss(s: OptionStrategy, q: Pos)
    requires s.maxLoss.Some?
    ensures ScaleStrategy(s, q).maxLoss.Some? && ScaleStrategy(s, q).maxLoss.value == Scaled(s.maxLoss.value, q)
  {
  }

  /** Accepted sizes of a strategy are downward closed. */
  lemma {:induction false} AcceptedSizesAreDownwardClosed(
    s: OptionStrategy, q: Pos, fewer: Pos, p: PortfolioState, b: RiskBudget, ivRank: Option<real>)
    requires fewer <= q && s.maxLoss.Some?
    requires Evaluation(ScaleStrategy(s, q), p, b, ivRank).Passed()
    ensures Evaluation(ScaleStrategy(s, fewer), p, b, ivRank).Passed()
  {
    var loss := s.maxLoss.value;
    ScaledLoss(s, q);
    ScaledLoss(s, fewer);
    PassedMeansHardGates(ScaleStrategy(s, q), p, b, ivRank);
    assert Holds(DefinedRiskGate, ScaleStrategy(s, q), p, b, ivRank);
    ProductSign(loss, q as real);
    ScaleLe(fewer as real, q as real, loss);
    ScaleLe(0.0, loss, fewer as real);
    AcceptanceIsMonotone(ScaleStrategy(s, q), p, ScaleStrategy(s, fewer), p, b, ivRank, ivRank);
  }

  /** Without a positive loss to divide by, one contract is traded. */
  lemma {:induction false} OtherwiseOneContract(cfg: AgentConfig, equity: real, maxLoss: Option<real>)
    requires maxLoss.None? || maxLoss.value == 0.0 || (maxLoss.value < 0.0 && cfg.budget.maxLossPerTradePct >= 0.0)
    ensures SizeFor(cfg, equity, maxLoss) == 1
  {
    var limit := Share(cfg.budget.maxLossPerTradePct, Max(equity, 1.0));
    if maxLoss.Some? && maxLoss.value < 0.0 {
      ScaleLe(0.0, cfg.budget.maxLossPerTradePct, Max(equity, 1.0));
      var x := limit / maxLoss.value;
      assert x * maxLoss.value == limit;
      ProductSign(x, -maxLoss.value);
      assert x <= 0.0;
    }
  }
}
