/** Iron condors at expiry: the true worst loss, what the reported one keeps in reserve,
    and the reported break-even points (services/options/strategies.py). */
module Condor {
  import opened Basics
  import opened Options
  import opened Strategies
  import opened DefinedRisk

  /** A put side and a call side of one size. Nothing keeps their strikes apart. */
  ghost predicate Sides(put: OptionStrategy, call: OptionStrategy, q: Pos) {
    IsVertical(put, Put, q) && IsVertical(call, Call, q)
  }

  ghost function Short(s: OptionStrategy): PosReal
    requires |s.legs| >= 2
  {
    s.legs[0].contract.strike
  }

  ghost function Long(s: OptionStrategy): PosReal
    requires |s.legs| >= 2
  {
    s.legs[1].contract.strike
  }

  /** How much of a spread is lost when the underlying is that deep beyond the short strike. */
  ghost function Depth(beyond: real, width: real): real { Max(0.0, Min(beyond, width)) }

  /** Part of the two widths that is never lost together: what remains of one side
      where the other is fully lost. */
  ghost function Slack(put: OptionStrategy, call: OptionStrategy): real
    requires |put.legs| >= 2 && |call.legs| >= 2
  {
    Min(SpreadWidth(call, Call) - Depth(Long(put) - Short(call), SpreadWidth(call, Call)),
        SpreadWidth(put, Put) - Depth(Short(put) - Long(call), SpreadWidth(put, Put)))
  }

  ghost function Credits(put: OptionStrategy, call: OptionStrategy): real {
    OrZero(put.netCredit) + OrZero(call.netCredit)
  }

  /** The true worst loss per share. */
  ghost function CondorWorst(put: OptionStrategy, call: OptionStrategy): real
    requires |put.legs| >= 2 && |call.legs| >= 2
  {
    SpreadWidth(put, Put) + SpreadWidth(call, Call) - Slack(put, call) - Credits(put, call)
  }

  /** The terminal price of the worst loss: one of the two long strikes. */
  ghost function CondorWorstPrice(put: OptionStrategy, call: OptionStrategy): PosReal
    requires |put.legs| >= 2 && |call.legs| >= 2
  {
    if Slack(put, call) == SpreadWidth(call, Call) - Depth(Long(put) - Short(call), SpreadWidth(call, Call))
    then Long(put) else Long(call)
  }

  /** Expiry result per share. */
  ghost function PerShare(put: OptionStrategy, call: OptionStrategy, spot: real): real
    requires |put.legs| >= 2 && |call.legs| >= 2
  {
    Credits(put, call) + UnitPayoff(put, Put, spot) + UnitPayoff(call, Call, spot)
  }

  lemma {:induction false} CondorPerShare(
    put: OptionStrategy, call: OptionStrategy, u: string, e: int, now: int, q: Pos, spot: real)
    requires Sides(put, call, q)
    ensures ExpiryPnl(Combine(put, call, u, e, now), spot) == Dollars(PerShare(put, call, spot), q)
  {
    CondorPnl(put, call, u, e, now, q, spot);
    VerticalPayoff(put, Put, q, spot);
    VerticalPayoff(call, Call, q, spot);
    var a, b := put.netCredit.value, call.netCredit.value;
    var x, y := UnitPayoff(put, Put, spot), UnitPayoff(call, Call, spot);
    DollarsSum(a, b, q);
    DollarsSum(a + b, x, q);
    DollarsSum(a + b + x, y, q);
  }

  /** Each side's loss per share is its depth beyond the short strike. */
  lemma {:induction false} UnitPayoffIsDepth(s: OptionStrategy, kind: OptionType, q: Pos, spot: real)
    requires IsVertical(s, kind, q)
    ensures UnitPayoff(s, kind, spot)
            == -Depth(if kind.Put? then Short(s) - spot else spot - Short(s), SpreadWidth(s, kind))
  {
  }

  lemma {:induction false} PerShareFloor(put: OptionStrategy, call: OptionStrategy, q: Pos, spot: real)
    requires Sides(put, call, q)
    ensures PerShare(put, call, spot) >= -CondorWorst(put, call)
    ensures spot == CondorWorstPrice(put, call) ==> PerShare(put, call, spot) == -CondorWorst(put, call)
  {
    UnitPayoffIsDepth(put, Put, q, spot);
    UnitPayoffIsDepth(call, Call, q, spot);
  }

  /** No terminal price loses more than the worst case. */
  lemma {:induction false} CondorFloor(
    put: OptionStrategy, call: OptionStrategy, u: string, e: int, now: int, q: Pos, spot: real)
    requires Sides(put, call, q)
    ensures ExpiryPnl(Combine(put, call, u, e, now), spot) >= Dollars(-CondorWorst(put, call), q)
  {
    CondorPerShare(put, call, u, e, now, q, spot);
    PerShareFloor(put, call, q, spot);
    DollarsOrder(-CondorWorst(put, call), PerShare(put, call, spot), q);
  }

  /** The worst case happens, at one of the long strikes. */
  lemma {:induction false} CondorBottom(
    put: OptionStrategy, call: OptionStrategy, u: string, e: int, now: int, q: Pos)
    requires Sides(put, call, q)
    ensures ExpiryPnl(Combine(put, call, u, e, now), CondorWorstPrice(put, call)) == Dollars(-CondorWorst(put, call), q)
  {
    CondorPerShare(put, call, u, e, now, q, CondorWorstPrice(put, call));
    PerShareFloor(put, call, q, CondorWorstPrice(put, call));
  }

  /** The reported loss over-reserves by exactly the slack. */
  lemma {:induction false} CondorOverReserve(
    put: OptionStrategy, call: OptionStrategy, u: string, e: int, now: int, q: Pos)
    requires Sides(put, call, q)
    ensures -Combine(put, call, u, e, now).maxLoss.value
            == Dollars(-CondorWorst(put, call), q) - Dollars(Slack(put, call), q)
    ensures Slack(put, call) >= 0.0
    ensures Slack(put, call) == 0.0 <==>
              Long(put) >= Long(call) || SpreadWidth(put, Put) == 0.0 || SpreadWidth(call, Call) == 0.0
  {
    var a, b := put.netCredit.value, call.netCredit.value;
    var x, y := SpreadWidth(put, Put), SpreadWidth(call, Call);
    DollarsSum(a, b, q);
    DollarsSum(x, y, q);
    DollarsSum(a + b, x + y, q);
    DollarsSum(-CondorWorst(put, call), Slack(put, call), q);
    assert -CondorWorst(put, call) - Slack(put, call) == a + b - (x + y);
  }

  lemma {:induction false} CondorMidPnl(
    put: OptionStrategy, call: OptionStrategy, u: string, e: int, now: int, q: Pos, spot: real)
    requires Sides(put, call, q)
    ensures MidPnl(Combine(put, call, u, e, now), spot)
            == ExpiryPnl(Combine(put, call, u, e, now), spot) - Dollars(Debit(put) + Debit(call), q)
  {
    CondorPnl(put, call, u, e, now, q, spot);
    MidGap(put, Put, q, spot);
    MidGap(call, Call, q, spot);
    DollarsSum(Debit(put), Debit(call), q);
  }

  /** At mid prices the reported condor loss is a true bound exactly when the hidden debits
      fit inside the over-reserve. */
  lemma {:induction false} CondorLossAtMids(
    put: OptionStrategy, call: OptionStrategy, u: string, e: int, now: int, q: Pos)
    requires Sides(put, call, q)
    ensures (forall spot: real :: 0.0 <= spot ==>
               -Combine(put, call, u, e, now).maxLoss.value <= MidPnl(Combine(put, call, u, e, now), spot))
            <==> Debit(put) + Debit(call) <= Slack(put, call)
  {
    var condor := Combine(put, call, u, e, now);
    var worst: real := CondorWorstPrice(put, call);
    CondorOverReserve(put, call, u, e, now, q);
    DollarsOrder(Debit(put) + Debit(call), Slack(put, call), q);
    CondorMidPnl(put, call, u, e, now, q, worst);
    CondorBottom(put, call, u, e, now, q);
    if Debit(put) + Debit(call) <= Slack(put, call) {
      forall spot: real | 0.0 <= spot ensures -condor.maxLoss.value <= MidPnl(condor, spot) {
        CondorMidPnl(put, call, u, e, now, q, spot);
        CondorFloor(put, call, u, e, now, q, spot);
      }
    } else {
      assert 0.0 <= worst && MidPnl(condor, worst) < -condor.maxLoss.value;
    }
  }

  /** While the short strikes do not cross only one side can be lost, and the slack is the narrower width. */
  lemma {:induction false} UncrossedSlack(put: OptionStrategy, call: OptionStrategy, q: Pos)
    requires Sides(put, call, q) && Short(put) <= Short(call)
    ensures Slack(put, call) == Min(SpreadWidth(put, Put), SpreadWidth(call, Call))
    ensures CondorWorst(put, call) == Max(SpreadWidth(put, Put), SpreadWidth(call, Call)) - Credits(put, call)
  {
  }

  // ---- the reported break-even points ----------------------------------------

  /** What the two reported points are: the lower lies two put credits below the short put,
      the upper is the short call. */
  lemma {:induction false} ReportedPoints(
    put: OptionStrategy, call: OptionStrategy, u: string, e: int, now: int, q: Pos)
    requires Sides(put, call, q)
    ensures Combine(put, call, u, e, now).breakEven
            == [Short(put) - 2.0 * put.netCredit.value, Short(call) as real]
  {
  }

  lemma {:induction false} ZeroPerShare(
    put: OptionStrategy, call: OptionStrategy, u: string, e: int, now: int, q: Pos, spot: real)
    requires Sides(put, call, q)
    ensures ExpiryPnl(Combine(put, call, u, e, now), spot) == 0.0 <==> PerShare(put, call, spot) == 0.0
  {
    CondorPerShare(put, call, u, e, now, q, spot);
    DollarsSum(0.0, 0.0, q);
    DollarsOrder(PerShare(put, call, spot), 0.0, q);
    DollarsOrder(0.0, PerShare(put, call, spot), q);
  }

  /** Profit is zero at the lower point exactly when the credits equal what is lost there: twice the
      put credit, or the put width if less, and whatever of the call side lies in the money. */
  lemma {:induction false} LowerBreakEven(
    put: OptionStrategy, call: OptionStrategy, u: string, e: int, now: int, q: Pos)
    requires Sides(put, call, q)
    ensures var condor := Combine(put, call, u, e, now);
            ExpiryPnl(condor, condor.breakEven[0]) == 0.0
            <==> Credits(put, call) == Min(2.0 * put.netCredit.value, SpreadWidth(put, Put))
                                       + Depth(condor.breakEven[0] - Short(call), SpreadWidth(call, Call))
    ensures Short(put) <= Short(call) ==>
              var condor := Combine(put, call, u, e, now);
              (ExpiryPnl(condor, condor.breakEven[0]) == 0.0
               <==> Credits(put, call) == Min(2.0 * put.netCredit.value, SpreadWidth(put, Put)))
  {
    var point := Combine(put, call, u, e, now).breakEven[0];
    ReportedPoints(put, call, u, e, now, q);
    ZeroPerShare(put, call, u, e, now, q, point);
    UnitPayoffIsDepth(put, Put, q, point);
    UnitPayoffIsDepth(call, Call, q, point);
  }

  /** Profit is zero at the upper point exactly when the credits equal what of the put side lies in
      the money there; for uncrossed strikes, only when there is no credit at all. */
  lemma {:induction false} UpperBreakEven(
    put: OptionStrategy, call: OptionStrategy, u: string, e: int, now: int, q: Pos)
    requires Sides(put, call, q)
    ensures var condor := Combine(put, call, u, e, now);
            ExpiryPnl(condor, condor.breakEven[1]) == 0.0
            <==> Credits(put, call) == Depth(Short(put) - Short(call), SpreadWidth(put, Put))
    ensures Short(put) <= Short(call) ==>
              var condor := Combine(put, call, u, e, now);
              (ExpiryPnl(condor, condor.breakEven[1]) == 0.0 <==> Credits(put, call) == 0.0)
  {
    var point := Combine(put, call, u, e, now).breakEven[1];
    ReportedPoints(put, call, u, e, now, q);
    ZeroPerShare(put, call, u, e, now, q, point);
    UnitPayoffIsDepth(put, Put, q, point);
    UnitPayoffIsDepth(call, Call, q, point);
  }
}
