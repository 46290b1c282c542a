/** Which strike is picked for a target delta (_pick_by_delta in services/options/strategies.py). */
module Picking {
  import opened Basics
  import opened StableSort
  import opened Options
  import opened Strategies

  /** Distance of a quote's |delta| from the target. */
  function Distance(q: OptionQuote, target: real): real { Abs(Abs(OrZero(q.delta)) - target) }

  /** `i` is nearer the target than `j`, or as near and listed earlier. */
  ghost predicate Beats(quotes: seq<OptionQuote>, target: real, i: nat, j: nat)
    requires i < |quotes| && j < |quotes|
  {
    Distance(quotes[i], target) < Distance(quotes[j], target)
    || (Distance(quotes[i], target) == Distance(quotes[j], target) && i < j)
  }

  lemma {:induction false} MissIsDistance(a: OptionQuote, b: OptionQuote, target: real)
    ensures DeltaMiss(a, target) <= DeltaMiss(b, target) <==> Distance(a, target) <= Distance(b, target)
  {
    var x, y := Distance(a, target), Distance(b, target);
    assert DeltaMiss(a, target) == x * x && DeltaMiss(b, target) == y * y;
    SquareOrder(x, y);
  }

  lemma {:induction false} SquareOrder(x: real, y: real)
    requires x >= 0.0 && y >= 0.0
    ensures x * x <= y * y <==> x <= y
  {
    assert y * y - x * x == (y - x) * (y + x);
    if x + y > 0.0 { ProductSign(y - x, y + x); }
  }

  ghost predicate Among(q: OptionQuote, s: seq<OptionQuote>, n: nat) { exists b :: 0 <= b < n <= |s| && s[b] == q }

  /** Each usable quote of a longer chain, from the shorter one. */
  lemma {:induction false} AmongUsable(quotes: seq<OptionQuote>, j: nat, i: nat, k: nat)
    requires 0 < j < |quotes| && Among(quotes[j], Usable(quotes[1..]), i)
    requires k == if quotes[0].delta.Some? then i + 1 else i
    ensures Among(quotes[j], Usable(quotes), k)
  {
    var rest := Usable(quotes[1..]);
    var b :| 0 <= b < i <= |rest| && rest[b] == quotes[j];
    if quotes[0].delta.Some? { assert Usable(quotes)[b + 1] == quotes[j]; }
  }

  /** The i-th usable quote in the whole list: those usable before it come before it. */
  lemma {:induction false} UsableAt(quotes: seq<OptionQuote>, i: nat) returns (p: nat)
    requires i < |Usable(quotes)|
    ensures p < |quotes| && quotes[p] == Usable(quotes)[i]
    ensures forall j :: 0 <= j < p && quotes[j].delta.Some? ==> Among(quotes[j], Usable(quotes), i)
  {
    var skip := if quotes[0].delta.Some? then 1 else 0;
    if i < skip {
      p := 0;
    } else {
      var k := UsableAt(quotes[1..], i - skip);
      p := k + 1;
      forall j | 0 <= j < p && quotes[j].delta.Some? ensures Among(quotes[j], Usable(quotes), i) {
        if j == 0 {
          assert Usable(quotes)[0] == quotes[0];
        } else {
          assert quotes[j] == quotes[1..][j - 1];
          AmongUsable(quotes, j, i - skip, i);
        }
      }
    }
  }

  /** Nothing is picked only when no quote has a delta; otherwise the pick beats every other
      quote with a delta, on whichever side of the target it lies. */
  lemma {:induction false} PickIsNearest(quotes: seq<OptionQuote>, target: real) returns (p: nat)
    ensures PickByDelta(quotes, target).None? <==> forall q :: q in quotes ==> q.delta.None?
    ensures PickByDelta(quotes, target).Some? ==>
              && p < |quotes| && PickByDelta(quotes, target).value == quotes[p]
              && forall j :: 0 <= j < |quotes| && quotes[j].delta.Some? && j != p ==> Beats(quotes, target, p, j)
  {
    p := 0;
    var usable := Usable(quotes);
    if usable == [] {
      forall q | q in quotes ensures q.delta.None? { assert q !in usable; }
    } else {
      assert usable[0] in usable;
      assert TotalPreorder(DeltaLe(target));
      var i := SortHead(usable, DeltaLe(target));
      p := UsableAt(quotes, i);
      forall j | 0 <= j < |quotes| && quotes[j].delta.Some? && j != p ensures Beats(quotes, target, p, j) {
        assert quotes[j] in usable;
        var k :| 0 <= k < |usable| && usable[k] == quotes[j];
        MissIsDistance(usable[i], usable[k], target);
        if j < p {
          var b :| 0 <= b < i && usable[b] == quotes[j];
          MissIsDistance(usable[b], usable[i], target);
        }
      }
    }
  }

  /** The pick is not always at or below the target, as documented: it exceeds the target exactly
      when some quote above it beats every quote at or below it. */
  lemma {:induction false} PickExceedsTarget(quotes: seq<OptionQuote>, target: real)
    ensures var r := PickByDelta(quotes, target);
            r.Some? && Abs(r.value.delta.value) > target
            <==> exists i: nat :: i < |quotes| && Above(quotes[i], target)
                   && forall j: nat :: j < |quotes| && quotes[j].delta.Some? && !Above(quotes[j], target)
                        ==> Beats(quotes, target, i, j)
  {
    var r := PickByDelta(quotes, target);
    var p := PickIsNearest(quotes, target);
    if i: nat :| i < |quotes| && Above(quotes[i], target)
                   && forall j: nat :: j < |quotes| && quotes[j].delta.Some? && !Above(quotes[j], target)
                        ==> Beats(quotes, target, i, j)
    {
      assert quotes[i] in quotes;
      assert r.Some?;
      if !Above(quotes[p], target) { assert Beats(quotes, target, i, p); assert Beats(quotes, target, p, i); }
    }
  }

  ghost predicate Above(q: OptionQuote, target: real) { q.delta.Some? && Abs(q.delta.value) > target }

  /** For instance, 0.31 is preferred to 0.25 for a target of 0.30. */
  lemma {:induction false} PickCanExceedTarget()
    ensures var low := OptionQuote("L", 90.0, None, None, None, Some(-0.25));
            var high := OptionQuote("H", 95.0, None, None, None, Some(-0.31));
            PickByDelta([low, high], 0.30) == Some(high)
  {
    var low := OptionQuote("L", 90.0, None, None, None, Some(-0.25));
    var high := OptionQuote("H", 95.0, None, None, None, Some(-0.31));
    var quotes := [low, high];
    var p := PickIsNearest(quotes, 0.30);
    assert quotes[1] in quotes && Distance(quotes[1], 0.30) < Distance(quotes[0], 0.30);
  }

  // ---- the protecting strike -------------------------------------------------

  /** How many quotes lie strictly between two strikes. */
  function CountBetween(quotes: seq<OptionQuote>, lo: real, hi: real): (n: nat)
    ensures n <= |quotes|
  {
    if quotes == [] then 0
    else (if lo < quotes[0].strike < hi then 1 else 0) + CountBetween(quotes[1..], lo, hi)
  }

  ghost predicate DistinctStrikes(quotes: seq<OptionQuote>) {
    forall i, j :: 0 <= i < j < |quotes| ==> quotes[i].strike != quotes[j].strike
  }

  lemma {:induction false} CountInsert(x: OptionQuote, s: seq<OptionQuote>, lo: real, hi: real)
    ensures CountBetween(Insert(x, s, StrikeLe), lo, hi) == CountBetween([x] + s, lo, hi)
  {
    assert ([x] + s)[1..] == s;
    if s != [] && !StrikeLe(x, s[0]) {
      CountInsert(x, s[1..], lo, hi);
      assert ([x] + s[1..])[1..] == s[1..];
    }
  }

  lemma {:induction false} CountSort(s: seq<OptionQuote>, lo: real, hi: real)
    ensures CountBetween(SortByStrike(s), lo, hi) == CountBetween(s, lo, hi)
  {
    if s != [] {
      CountSort(s[1..], lo, hi);
      CountInsert(s[0], SortByStrike(s[1..]), lo, hi);
      assert ([s[0]] + SortByStrike(s[1..]))[1..] == SortByStrike(s[1..]);
    }
  }

  lemma {:induction false} CountConcat(a: seq<OptionQuote>, b: seq<OptionQuote>, lo: real, hi: real)
    ensures CountBetween(a + b, lo, hi) == CountBetween(a, lo, hi) + CountBetween(b, lo, hi)
  {
    if a == [] {
      assert a + b == b;
    } else {
      assert (a + b)[1..] == a[1..] + b;
      CountConcat(a[1..], b, lo, hi);
    }
  }

  lemma {:induction false} CountExtremes(s: seq<OptionQuote>, lo: real, hi: real)
    ensures (forall i :: 0 <= i < |s| ==> !(lo < s[i].strike < hi)) <==> CountBetween(s, lo, hi) == 0
    ensures (forall i :: 0 <= i < |s| ==> lo < s[i].strike < hi) <==> CountBetween(s, lo, hi) == |s|
  {
    if s != [] {
      CountExtremes(s[1..], lo, hi);
      assert forall i :: 0 < i < |s| ==> s[i] == s[1..][i - 1];
    }
  }

  ghost predicate Ascending(s: seq<OptionQuote>) { forall i, j :: 0 <= i < j < |s| ==> s[i].strike <= s[j].strike }

  lemma {:induction false} SortAscends(s: seq<OptionQuote>)
    ensures Ascending(SortByStrike(s)) && (forall q :: q in SortByStrike(s) <==> q in s)
    ensures DistinctStrikes(s) ==> DistinctStrikes(SortByStrike(s))
  {
    SortSorts(s, StrikeLe);
    SortMembers(s, StrikeLe);
    forall i, j | 0 <= i < j < |s| ensures SortByStrike(s)[i].strike <= SortByStrike(s)[j].strike {
      assert StrikeLe(SortByStrike(s)[i], SortByStrike(s)[j]);
    }
    if DistinctStrikes(s) { SortKeepsDistinct(s); }
  }

  lemma {:induction false} InsertKeepsDistinct(x: OptionQuote, s: seq<OptionQuote>)
    requires DistinctStrikes(s) && forall q :: q in s ==> q.strike != x.strike
    ensures DistinctStrikes(Insert(x, s, StrikeLe))
  {
    if s != [] && !StrikeLe(x, s[0]) {
      InsertKeepsDistinct(x, s[1..]);
      var rest := Insert(x, s[1..], StrikeLe);
      InsertKeeps(x, s[1..], StrikeLe);
      forall j | 0 <= j < |rest| ensures rest[j].strike != s[0].strike {
        assert rest[j] in multiset(rest);
        assert rest[j] == x || rest[j] in s[1..];
      }
    }
  }

  lemma {:induction false} SortKeepsDistinct(s: seq<OptionQuote>)
    requires DistinctStrikes(s)
    ensures DistinctStrikes(SortByStrike(s))
  {
    if s != [] {
      SortKeepsDistinct(s[1..]);
      SortMembers(s[1..], StrikeLe);
      InsertKeepsDistinct(s[0], SortByStrike(s[1..]));
    }
  }

  /** Between two positions of an ascending chain lie at most the quotes between the positions,
      and exactly those when no two strikes are equal; below a position, likewise. */
  lemma {:induction false} CountEnds(s: seq<OptionQuote>, i: nat, x: real)
    requires Ascending(s) && i < |s|
    ensures CountBetween(s[..i + 1], s[i].strike, x) == 0 && CountBetween(s[i..], x, s[i].strike) == 0
  {
    CountExtremes(s[..i + 1], s[i].strike, x);
    CountExtremes(s[i..], x, s[i].strike);
  }

  lemma {:induction false} CountMiddle(s: seq<OptionQuote>, i: nat, j: nat)
    requires Ascending(s) && i < j < |s| && DistinctStrikes(s)
    ensures CountBetween(s[i + 1..j], s[i].strike, s[j].strike) == j - i - 1
  {
    CountExtremes(s[i + 1..j], s[i].strike, s[j].strike);
  }

  lemma {:induction false} CountInside(s: seq<OptionQuote>, i: nat, j: nat)
    requires Ascending(s) && i < j < |s|
    ensures CountBetween(s, s[i].strike, s[j].strike) <= j - i - 1
    ensures DistinctStrikes(s) ==> CountBetween(s, s[i].strike, s[j].strike) == j - i - 1
  {
    var lo: real, hi: real := s[i].strike, s[j].strike;
    var a, b, c := s[..i + 1], s[i + 1..j], s[j..];
    assert s == (a + b) + c;
    CountConcat(a + b, c, lo, hi);
    CountConcat(a, b, lo, hi);
    CountEnds(s, i, hi);
    CountEnds(s, j, lo);
    if DistinctStrikes(s) { CountMiddle(s, i, j); }
  }

  lemma {:induction false} CountBelowPosition(s: seq<OptionQuote>, p: nat)
    requires Ascending(s) && p < |s|
    ensures CountBetween(s, 0.0, s[p].strike) <= p
    ensures DistinctStrikes(s) ==> CountBetween(s, 0.0, s[p].strike) == p
  {
    var hi: real := s[p].strike;
    assert s == s[..p] + s[p..];
    CountConcat(s[..p], s[p..], 0.0, hi);
    CountExtremes(s[..p], 0.0, hi);
    CountExtremes(s[p..], 0.0, hi);
  }

  lemma {:induction false} CountAbovePosition(s: seq<OptionQuote>, p: nat, hi: real)
    requires Ascending(s) && p < |s| && forall i :: 0 <= i < |s| ==> s[i].strike < hi
    ensures DistinctStrikes(s) ==> CountBetween(s, s[p].strike, hi) == |s| - p - 1
  {
    var lo: real := s[p].strike;
    assert s == s[..p + 1] + s[p + 1..];
    CountConcat(s[..p + 1], s[p + 1..], lo, hi);
    CountExtremes(s[..p + 1], lo, hi);
    CountExtremes(s[p + 1..], lo, hi);
  }

  ghost predicate NoDeltas(quotes: seq<OptionQuote>) { forall q :: q in quotes ==> q.delta.None? }

  /** The quote at that position has a delta and beats every other that has one. */
  ghost predicate IsPick(quotes: seq<OptionQuote>, target: real, p: nat) {
    && p < |quotes| && quotes[p].delta.Some?
    && forall j :: 0 <= j < |quotes| && quotes[j].delta.Some? && j != p ==> Beats(quotes, target, p, j)
  }

  lemma {:induction false} PickPosition(quotes: seq<OptionQuote>, target: real) returns (p: nat)
    ensures NoDeltas(quotes) ==> PickByDelta(SortByStrike(quotes), target).None?
    ensures !NoDeltas(quotes) ==>
              var ordered := SortByStrike(quotes);
              && IsPick(ordered, target, p)
              && PickByDelta(ordered, target) == Some(ordered[p]) && IndexOf(ordered, ordered[p]) == p
  {
    var ordered := SortByStrike(quotes);
    SortAscends(quotes);
    p := PickIsNearest(ordered, target);
    if !NoDeltas(quotes) {
      var i := IndexOf(ordered, ordered[p]);
      assert i != p ==> Beats(ordered, target, p, i);
    }
  }

  /** The pairs taken, by position in the chain ordered by strike: the pick, and the quote `width`
      positions down for puts and up for calls; none exactly when no quote has a delta or the chain
      ends before that. */
  lemma {:induction false} PairsByPosition(quotes: seq<OptionQuote>, target: real, width: nat) returns (p: nat)
    ensures NoDeltas(quotes) ==> PutPair(quotes, target, width).None? && CallPair(quotes, target, width).None?
    ensures !NoDeltas(quotes) ==>
              var ordered := SortByStrike(quotes);
              && IsPick(ordered, target, p) && PickByDelta(ordered, target) == Some(ordered[p])
              && PutPair(quotes, target, width) == (if p < width then None else Some((ordered[p], ordered[p - width])))
              && CallPair(quotes, target, width)
                 == (if p + width >= |ordered| then None else Some((ordered[p], ordered[p + width])))
  {
    p := PickPosition(quotes, target);
  }

  lemma {:induction false} CountInSorted(quotes: seq<OptionQuote>, i: nat, j: nat)
    requires i < j < |quotes|
    ensures var lo, hi := SortByStrike(quotes)[i].strike, SortByStrike(quotes)[j].strike;
            && CountBetween(quotes, lo, hi) <= j - i - 1
            && (DistinctStrikes(quotes) ==> CountBetween(quotes, lo, hi) == j - i - 1)
  {
    var ordered := SortByStrike(quotes);
    SortAscends(quotes);
    CountInside(ordered, i, j);
    CountSort(quotes, ordered[i].strike, ordered[j].strike);
  }

  /** The long put is the next strike down, `width` times: fewer than `width` strikes of the chain lie
      strictly between the two, and exactly `width - 1` when no two strikes are equal. */
  lemma {:induction false} PutsSkipFewerThanWidth(puts: seq<OptionQuote>, target: real, width: Pos)
    ensures var pair := PutPair(puts, target, width);
            pair.Some? ==>
              && CountBetween(puts, pair.value.1.strike, pair.value.0.strike) < width
              && (DistinctStrikes(puts) ==> CountBetween(puts, pair.value.1.strike, pair.value.0.strike) == width - 1)
  {
    var p := PairsByPosition(puts, target, width);
    if !NoDeltas(puts) && p >= width { CountInSorted(puts, p - width, p); }
  }

  /** The long call is the next strike up, `width` times. */
  lemma {:induction false} CallsSkipFewerThanWidth(calls: seq<OptionQuote>, target: real, width: Pos)
    ensures var pair := CallPair(calls, target, width);
            pair.Some? ==>
              && CountBetween(calls, pair.value.0.strike, pair.value.1.strike) < width
              && (DistinctStrikes(calls) ==> CountBetween(calls, pair.value.0.strike, pair.value.1.strike) == width - 1)
  {
    var p := PairsByPosition(calls, target, width);
    if !NoDeltas(calls) && p + width < |calls| { CountInSorted(calls, p, p + width); }
  }

  /** At the desk's width of one the long leg is the nearest strike beyond the short one, on either side. */
  lemma {:induction false} NeighboursProtect(puts: seq<OptionQuote>, calls: seq<OptionQuote>, target: real)
    ensures var pair := PutPair(puts, target, 1);
            pair.Some? ==> forall q :: q in puts && q.strike < pair.value.0.strike ==> q.strike <= pair.value.1.strike
    ensures var pair := CallPair(calls, target, 1);
            pair.Some? ==> forall q :: q in calls && q.strike > pair.value.0.strike ==> q.strike >= pair.value.1.strike
  {
    PutsSkipFewerThanWidth(puts, target, 1);
    CallsSkipFewerThanWidth(calls, target, 1);
    var put, call := PutPair(puts, target, 1), CallPair(calls, target, 1);
    if put.Some? { CountExtremes(puts, put.value.1.strike, put.value.0.strike); }
    if call.Some? { CountExtremes(calls, call.value.0.strike, call.value.1.strike); }
  }

  /** With distinct strikes, no pair is found exactly when no quote has a delta, or fewer than `width`
      strikes lie below the pick, for puts, or above it, for calls. */
  lemma {:induction false} PairsExist(quotes: seq<OptionQuote>, target: real, width: nat, top: real)
    requires DistinctStrikes(quotes) && forall q :: q in quotes ==> q.strike < top
    ensures var pick := PickByDelta(SortByStrike(quotes), target);
            && (PutPair(quotes, target, width).None?
                <==> pick.None? || CountBetween(quotes, 0.0, pick.value.strike) < width)
            && (CallPair(quotes, target, width).None?
                <==> pick.None? || CountBetween(quotes, pick.value.strike, top) < width)
            && (pick.None? <==> NoDeltas(quotes))
  {
    var p := PairsByPosition(quotes, target, width);
    var ordered := SortByStrike(quotes);
    SortAscends(quotes);
    var _ := PickPosition(quotes, target);
    if !NoDeltas(quotes) {
      CountBelowPosition(ordered, p);
      CountAbovePosition(ordered, p, top);
      CountSort(quotes, 0.0, ordered[p].strike);
      CountSort(quotes, ordered[p].strike, top);
    }
  }

  // ---- chains of two quotes --------------------------------------------------

  lemma {:induction false} PickOfTwo(low: OptionQuote, high: OptionQuote, target: real)
    requires low.delta.Some? && high.delta.Some? && low.strike <= high.strike
    ensures SortByStrike([low, high]) == [low, high]
    ensures PickByDelta([low, high], target)
            == Some(if DeltaMiss(low, target) <= DeltaMiss(high, target) then low else high)
  {
    var two := [low, high];
    var le := DeltaLe(target);
    assert two[1..] == [high] && [high][1..] == [] && [low][1..] == [];
    assert Sort([high], StrikeLe) == [high] && Sort([high], le) == [high];
    assert Usable([high]) == [high] && Usable(two) == two;
    assert Insert(low, [high], le) == if le(low, high) then [low, high] else [high] + Insert(low, [], le);
  }

  lemma {:induction false} PutPairOfTwo(low: OptionQuote, high: OptionQuote, target: real)
    requires low.delta.Some? && high.delta.Some? && low.strike < high.strike
    requires DeltaMiss(high, target) < DeltaMiss(low, target)
    ensures PutPair([low, high], target, 1) == Some((high, low))
  {
    PickOfTwo(low, high, target);
    assert [low, high][0] == low && [low, high][1] == high;
    assert IndexOf([low, high], high) == 1;
  }

  lemma {:induction false} CallPairOfTwo(low: OptionQuote, high: OptionQuote, target: real)
    requires low.delta.Some? && high.delta.Some? && low.strike < high.strike
    requires DeltaMiss(low, target) <= DeltaMiss(high, target)
    ensures CallPair([low, high], target, 1) == Some((low, high))
  {
    PickOfTwo(low, high, target);
    assert IndexOf([low, high], low) == 0;
  }
}
