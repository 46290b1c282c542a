/** Deterministic strategy construction and resizing
    (services/options/strategies.py, scale_strategy in services/trading/agent.py). */
module Strategies {
  import opened Basics
  import opened Options
  import opened StableSort

  /** A per-share amount over `quantity` contracts of 100 shares. */
  function Dollars(perShare: real, quantity: Pos): real { perShare * 100.0 * quantity as real }

  /** Dollars preserve order and sums. */
  lemma {:induction false} DollarsOrder(a: real, b: real, q: Pos)
    ensures Dollars(a, q) <= Dollars(b, q) <==> a <= b
    ensures Dollars(a, q) == Dollars(b, q) <==> a == b
  {
    var lot := 100.0 * q as real;
    assert Dollars(b, q) - Dollars(a, q) == (b - a) * lot;
    if a < b { assert (b - a) * lot > 0.0; } else if a > b { assert (a - b) * lot > 0.0; }
  }

  lemma {:induction false} DollarsSum(a: real, b: real, q: Pos)
    ensures Dollars(a, q) + Dollars(b, q) == Dollars(a + b, q)
    ensures Dollars(a, q) - Dollars(b, q) == Dollars(a - b, q)
    ensures Dollars(0.0, q) == 0.0
  {
  }

  lemma {:induction false} DollarsScale(a: real, q: Pos)
    ensures Dollars(a, 1) * q as real == Dollars(a, q)
  {
  }

  function Mid(q: OptionQuote): Option<real> {
    if q.bid.Some? && q.ask.Some? then Some((q.bid.value + q.ask.value) / 2.0) else q.last
  }

  predicate StrikeLe(a: OptionQuote, b: OptionQuote) { a.strike <= b.strike }

  function SortByStrike(quotes: seq<OptionQuote>): seq<OptionQuote> { Sort(quotes, StrikeLe) }

  /** Sorted quotes are the given ones, in order of their strikes. */
  lemma {:induction false} StrikesAscend(quotes: seq<OptionQuote>, i: nat, j: nat)
    requires i <= j < |quotes|
    ensures SortByStrike(quotes)[i] in quotes && SortByStrike(quotes)[j] in quotes
    ensures SortByStrike(quotes)[i].strike <= SortByStrike(quotes)[j].strike
  {
    SortSorts(quotes, StrikeLe);
    SortMembers(quotes, StrikeLe);
    if i < j { assert StrikeLe(SortByStrike(quotes)[i], SortByStrike(quotes)[j]); }
  }

  function Usable(quotes: seq<OptionQuote>): (r: seq<OptionQuote>)
    ensures forall q :: q in r <==> q in quotes && q.delta.Some?
  {
    if quotes == [] then []
    else if quotes[0].delta.Some? then [quotes[0]] + Usable(quotes[1..])
    else Usable(quotes[1..])
  }

  /** Squared distance of |delta| from the target. */
  function DeltaMiss(q: OptionQuote, target: real): real {
    var d := Abs(OrZero(q.delta)) - target;
    d * d
  }

  function DeltaLe(target: real): (OptionQuote, OptionQuote) -> bool {
    (a, b) => DeltaMiss(a, target) <= DeltaMiss(b, target)
  }

  function PickByDelta(quotes: seq<OptionQuote>, target: real): (r: Option<OptionQuote>)
    ensures r.Some? ==> r.value in quotes && r.value.delta.Some?
  {
    var usable := Usable(quotes);
    if usable == [] then None else
      assert TotalPreorder(DeltaLe(target));
      SortMembers(usable, DeltaLe(target));
      assert Sort(usable, DeltaLe(target))[0] in usable;
      Some(Sort(usable, DeltaLe(target))[0])
  }

  /** Position of the first quote equal to `q`. */
  function IndexOf(quotes: seq<OptionQuote>, q: OptionQuote): (i: nat)
    requires q in quotes
    ensures i < |quotes| && quotes[i] == q
    ensures forall j :: 0 <= j < i ==> quotes[j] != q
  {
    if quotes[0] == q then 0 else 1 + IndexOf(quotes[1..], q)
  }

  function ContractOf(q: OptionQuote, underlying: string, kind: OptionType, expiration: int): OptionContract {
    OptionContract(q.symbol, underlying, kind, q.strike, expiration)
  }

  function Leg(
    q: OptionQuote, underlying: string, kind: OptionType, expiration: int, side: OptionSide, quantity: Pos): OptionLeg
  {
    OptionLeg(ContractOf(q, underlying, kind, expiration), side, quantity, OrZero(Mid(q)), q.delta)
  }

  function DaysTo(expiration: int, now: int): int {
    var days := (expiration - now) / 86400;
    if days < 0 then 0 else days
  }

  /** A short leg against a long leg of the same kind; `width` is the distance between the strikes. */
  function Spread(
    name: string, underlying: string, kind: OptionType, expiration: int, now: int,
    short: OptionQuote, long: OptionQuote, width: real, quantity: Pos): OptionStrategy
    requires short.delta.Some?
  {
    var netCredit := Max(OrZero(Mid(short)) - OrZero(Mid(long)), 0.0);
    var winChance := 1.0 - (if kind.Put? then short.delta.value else Abs(short.delta.value));
    OptionStrategy(
      name, underlying,
      [Leg(short, underlying, kind, expiration, SellToOpen, quantity),
       Leg(long, underlying, kind, expiration, BuyToOpen, quantity)],
      Some(netCredit),
      Some(Dollars(width, quantity) - Dollars(netCredit, quantity)),
      Some(Dollars(netCredit, quantity)),
      [if kind.Put? then short.strike - netCredit else short.strike + netCredit],
      Some(Max(0.0, Min(1.0, winChance))),
      Some(DaysTo(expiration, now)))
  }

  /** The put nearest the target delta, and the one `width` strikes lower: never a higher strike. */
  function PutPair(puts: seq<OptionQuote>, shortDelta: real, width: nat): (r: Option<(OptionQuote, OptionQuote)>)
    ensures r.Some? ==> r.value.0 in puts && r.value.1 in puts && r.value.0.delta.Some?
    ensures r.Some? ==> r.value.1.strike <= r.value.0.strike
  {
    var ordered := SortByStrike(puts);
    var short := PickByDelta(ordered, shortDelta);
    if short.None? then None else
      var longIdx := IndexOf(ordered, short.value) - width;
      if longIdx < 0 then None else
        StrikesAscend(puts, longIdx, longIdx + width);
        Some((short.value, ordered[longIdx]))
  }

  /** The call nearest the target delta, and the one `width` strikes higher: never a lower strike. */
  function CallPair(calls: seq<OptionQuote>, shortDelta: real, width: nat): (r: Option<(OptionQuote, OptionQuote)>)
    ensures r.Some? ==> r.value.0 in calls && r.value.1 in calls && r.value.0.delta.Some?
    ensures r.Some? ==> r.value.0.strike <= r.value.1.strike
  {
    var ordered := SortByStrike(calls);
    var short := PickByDelta(ordered, shortDelta);
    if short.None? then None else
      var longIdx := IndexOf(ordered, short.value) + width;
      if longIdx >= |ordered| then None else
        StrikesAscend(calls, longIdx - width, longIdx);
        Some((short.value, ordered[longIdx]))
  }

  /** Sell a put spread below the market. */
  function BullPutSpread(
    underlying: string, expiration: int, now: int, puts: seq<OptionQuote>,
    shortDelta: real, width: nat, quantity: Pos): Option<OptionStrategy>
  {
    var pair := PutPair(puts, shortDelta, width);
    if pair.None? then None else
      var (short, long) := pair.value;
      Some(Spread("bull_put_spread", underlying, Put, expiration, now, short, long, short.strike - long.strike,
                  quantity))
  }

  /** Sell a call spread above the market. */
  function BearCallSpread(
    underlying: string, expiration: int, now: int, calls: seq<OptionQuote>,
    shortDelta: real, width: nat, quantity: Pos): Option<OptionStrategy>
  {
    var pair := CallPair(calls, shortDelta, width);
    if pair.None? then None else
      var (short, long) := pair.value;
      Some(Spread("bear_call_spread", underlying, Call, expiration, now, short, long, long.strike - short.strike,
                  quantity))
  }

  /** Both spreads at once. */
  function Combine(
    put: OptionStrategy, call: OptionStrategy, underlying: string, expiration: int, now: int): OptionStrategy
    requires put.breakEven != [] && call.breakEven != []
  {
    OptionStrategy(
      "iron_condor", underlying, put.legs + call.legs,
      Some(OrZero(put.netCredit) + OrZero(call.netCredit)),
      Some(OrZero(put.maxLoss) + OrZero(call.maxLoss)),
      Some(OrZero(put.maxProfit) + OrZero(call.maxProfit)),
      [put.breakEven[0] - OrZero(put.netCredit), call.breakEven[0] - OrZero(call.netCredit)],
      Some(BothWin(OrHalf(put.probabilityOfProfit), OrHalf(call.probabilityOfProfit))),
      Some(DaysTo(expiration, now)))
  }

  /** The idiom `x or 0.5`: absent and zero both give one half. */
  function OrHalf(x: Option<real>): real { if x.Some? && x.value != 0.0 then x.value else 0.5 }

  function BothWin(put: real, call: real): real { put * call }

  function IronCondor(
    underlying: string, expiration: int, now: int, calls: seq<OptionQuote>, puts: seq<OptionQuote>,
    shortDelta: real, width: nat, quantity: Pos): Option<OptionStrategy>
  {
    var put := BullPutSpread(underlying, expiration, now, puts, shortDelta, width, quantity);
    var call := BearCallSpread(underlying, expiration, now, calls, shortDelta, width, quantity);
    if put.None? || call.None? then None else Some(Combine(put.value, call.value, underlying, expiration, now))
  }

  function CashSecuredPut(
    underlying: string, expiration: int, now: int, puts: seq<OptionQuote>, shortDelta: real, quantity: Pos)
    : Option<OptionStrategy>
  {
    var short := PickByDelta(SortByStrike(puts), shortDelta);
    if short.None? then None else
      var premium := OrZero(Mid(short.value));
      Some(OptionStrategy(
        "cash_secured_put", underlying,
        [Leg(short.value, underlying, Put, expiration, SellToOpen, quantity)],
        Some(premium),
        Some(Dollars(short.value.strike, quantity) - Dollars(premium, quantity)),
        Some(Dollars(premium, quantity)),
        [short.value.strike - premium],
        Some(Max(0.0, Min(1.0, 1.0 - short.value.delta.value))),
        Some(DaysTo(expiration, now))))
  }

  function BuildStrategy(
    direction: string, underlying: string, expiration: int, now: int,
    calls: seq<OptionQuote>, puts: seq<OptionQuote>, shortDelta: real, width: nat, quantity: Pos)
    : (r: Option<OptionStrategy>)
    ensures r.Some? ==> r.value.underlying == underlying
  {
    if direction == "bullish" then BullPutSpread(underlying, expiration, now, puts, shortDelta, width, quantity)
    else if direction == "bearish" then BearCallSpread(underlying, expiration, now, calls, shortDelta, width, quantity)
    else IronCondor(underlying, expiration, now, calls, puts, shortDelta, width, quantity)
  }

  function Resize(legs: seq<OptionLeg>, quantity: Pos): (r: seq<OptionLeg>)
    ensures |r| == |legs|
  {
    if legs == [] then [] else [legs[0].(quantity := quantity)] + Resize(legs[1..], quantity)
  }

  /** Resize a one-contract strategy. */
  function ScaleStrategy(strategy: OptionStrategy, quantity: Pos): (r: OptionStrategy)
    ensures r.underlying == strategy.underlying
  {
    if quantity == 1 then strategy else
      strategy.(legs := Resize(strategy.legs, quantity),
                maxLoss := Some(OrZero(strategy.maxLoss) * quantity as real),
                maxProfit := Some(OrZero(strategy.maxProfit) * quantity as real),
                netCredit := Some(OrZero(strategy.netCredit) * quantity as real))
  }
}
