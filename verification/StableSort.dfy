/** The stable sort behind `sorted` and `list.sort`, and what a caller may rely on. */
module StableSort {

  ghost predicate TotalPreorder<T(!new)>(le: (T, T) -> bool) {
    && (forall a, b :: le(a, b) || le(b, a))
    && (forall a, b, c :: le(a, b) && le(b, c) ==> le(a, c))
  }

  ghost predicate Ordered<T>(s: seq<T>, le: (T, T) -> bool) {
    forall i, j :: 0 <= i < j < |s| ==> le(s[i], s[j])
  }

  /** Place `x` before the first element it does not exceed. */
  function Insert<T>(x: T, s: seq<T>, le: (T, T) -> bool): (r: seq<T>)
    ensures |r| == |s| + 1
  {
    if s == [] || le(x, s[0]) then [x] + s else [s[0]] + Insert(x, s[1..], le)
  }

  function Sort<T>(s: seq<T>, le: (T, T) -> bool): (r: seq<T>)
    ensures |r| == |s|
  {
    if s == [] then [] else Insert(s[0], Sort(s[1..], le), le)
  }

  lemma {:induction false} InsertKeeps<T>(x: T, s: seq<T>, le: (T, T) -> bool)
    ensures multiset(Insert(x, s, le)) == multiset(s) + multiset{x}
  {
    if s == [] || le(x, s[0]) {
    } else {
      InsertKeeps(x, s[1..], le);
      assert s == [s[0]] + s[1..];
    }
  }

  lemma {:induction false} InsertOrdered<T(!new)>(x: T, s: seq<T>, le: (T, T) -> bool)
    requires TotalPreorder(le) && Ordered(s, le)
    ensures Ordered(Insert(x, s, le), le)
  {
    if s == [] || le(x, s[0]) {
    } else {
      InsertOrdered(x, s[1..], le);
      InsertKeeps(x, s[1..], le);
      var rest := Insert(x, s[1..], le);
      forall j | 0 <= j < |rest| ensures le(s[0], rest[j]) {
        assert rest[j] in multiset(rest);
        assert rest[j] == x || rest[j] in s[1..];
      }
    }
  }

  /** Sorting permutes its input into order. */
  lemma {:induction false} SortSorts<T(!new)>(s: seq<T>, le: (T, T) -> bool)
    requires TotalPreorder(le)
    ensures Ordered(Sort(s, le), le)
    ensures multiset(Sort(s, le)) == multiset(s)
  {
    if s != [] {
      SortSorts(s[1..], le);
      InsertOrdered(s[0], Sort(s[1..], le), le);
      InsertKeeps(s[0], Sort(s[1..], le), le);
      assert s == [s[0]] + s[1..];
    }
  }

  /** Membership survives sorting. */
  lemma {:induction false} SortMembers<T(!new)>(s: seq<T>, le: (T, T) -> bool)
    requires TotalPreorder(le)
    ensures forall x :: x in s <==> x in Sort(s, le)
  {
    SortSorts(s, le);
    forall x ensures x in s <==> x in Sort(s, le) {
      assert x in s <==> x in multiset(s);
      assert x in Sort(s, le) <==> x in multiset(Sort(s, le));
    }
  }

  /** Stability, as seen at the head: the first sorted element is the earliest of the least ones. */
  lemma {:induction false} SortHead<T(!new)>(s: seq<T>, le: (T, T) -> bool) returns (i: nat)
    requires s != [] && TotalPreorder(le)
    ensures i < |s| && Sort(s, le)[0] == s[i]
    ensures forall j :: 0 <= j < |s| ==> le(s[i], s[j])
    ensures forall j :: 0 <= j < i ==> !le(s[j], s[i])
  {
    if |s| == 1 {
      i := 0;
    } else {
      var k := SortHead(s[1..], le);
      if le(s[0], s[1..][k]) {
        i := 0;
        forall j | 0 <= j < |s| ensures le(s[0], s[j]) {
          if j > 0 { assert s[j] == s[1..][j - 1]; }
        }
      } else {
        i := k + 1;
        forall j | 0 <= j < |s| ensures le(s[i], s[j]) && (j < i ==> !le(s[j], s[i])) {
          if j > 0 { assert s[j] == s[1..][j - 1]; }
        }
      }
    }
  }

  // ---- stability -------------------------------------------------------------

  /** The elements tied with `x`, in order. */
  function Ties<T>(x: T, s: seq<T>, le: (T, T) -> bool): seq<T> {
    if s == [] then []
    else (if le(x, s[0]) && le(s[0], x) then [s[0]] else []) + Ties(x, s[1..], le)
  }

  /** Ties keep the order they had in `s`, none added and none lost. */
  ghost predicate Stable<T(!new)>(s: seq<T>, r: seq<T>, le: (T, T) -> bool) {
    forall x :: Ties(x, r, le) == Ties(x, s, le)
  }

  lemma {:induction false} InsertTies<T(!new)>(x: T, y: T, s: seq<T>, le: (T, T) -> bool)
    requires TotalPreorder(le)
    ensures Ties(x, Insert(y, s, le), le) == Ties(x, [y] + s, le)
  {
    assert ([y] + s)[1..] == s;
    if s != [] && !le(y, s[0]) {
      InsertTies(x, y, s[1..], le);
      assert ([y] + s[1..])[1..] == s[1..];
    }
  }

  /** The sort is stable. */
  lemma {:induction false} SortIsStable<T(!new)>(s: seq<T>, le: (T, T) -> bool)
    requires TotalPreorder(le)
    ensures Stable(s, Sort(s, le), le)
  {
    if s != [] {
      SortIsStable(s[1..], le);
      forall x ensures Ties(x, Sort(s, le), le) == Ties(x, s, le) {
        InsertTies(x, s[0], Sort(s[1..], le), le);
      }
    }
  }

  lemma {:induction false} TiesAreMembers<T(!new)>(x: T, s: seq<T>, le: (T, T) -> bool)
    ensures forall y :: y in Ties(x, s, le) <==> y in s && le(x, y) && le(y, x)
  {
    if s != [] { TiesAreMembers(x, s[1..], le); }
  }

  lemma {:induction false} TiesTail<T(!new)>(x: T, s: seq<T>, le: (T, T) -> bool)
    requires s != []
    ensures Ties(x, s[1..], le) == Ties(x, s, le)[if le(x, s[0]) && le(s[0], x) then 1 else 0..]
  {
  }

  lemma {:induction false} SameTiesSameMembers<T(!new)>(x: T, a: seq<T>, b: seq<T>, le: (T, T) -> bool)
    requires TotalPreorder(le) && Stable(a, b, le) && x in a
    ensures x in b
  {
    TiesAreMembers(x, a, le);
    TiesAreMembers(x, b, le);
    assert Ties(x, a, le) == Ties(x, b, le);
  }

  lemma {:induction false} SameTiesSameHead<T(!new)>(a: seq<T>, b: seq<T>, le: (T, T) -> bool)
    requires TotalPreorder(le) && Ordered(a, le) && Ordered(b, le) && Stable(a, b, le) && a != [] && b != []
    ensures a[0] == b[0]
  {
    SameTiesSameMembers(a[0], a, b, le);
    assert Stable(b, a, le);
    SameTiesSameMembers(b[0], b, a, le);
    assert le(a[0], b[0]) && le(b[0], a[0]);
    assert Ties(a[0], a, le)[0] == a[0] && Ties(a[0], b, le)[0] == b[0];
  }

  /** Ordered lists with the same ties in the same order are equal. */
  lemma {:induction false} SameTiesSameList<T(!new)>(a: seq<T>, b: seq<T>, le: (T, T) -> bool)
    requires TotalPreorder(le) && Ordered(a, le) && Ordered(b, le) && Stable(a, b, le)
    ensures a == b
    decreases |a|
  {
    if a == [] {
      assert Stable(b, a, le);
      if b != [] { SameTiesSameMembers(b[0], b, a, le); }
    } else {
      SameTiesSameMembers(a[0], a, b, le);
      SameTiesSameHead(a, b, le);
      forall x ensures Ties(x, b[1..], le) == Ties(x, a[1..], le) {
        TiesTail(x, a, le);
        TiesTail(x, b, le);
      }
      SameTiesSameList(a[1..], b[1..], le);
      assert a == [a[0]] + a[1..] && b == [b[0]] + b[1..];
    }
  }

  /** There is one stable sort: whatever orders a list and keeps its ties in order is `Sort`. */
  lemma {:induction false} StableSortIsUnique<T(!new)>(s: seq<T>, r: seq<T>, le: (T, T) -> bool)
    requires TotalPreorder(le)
    ensures r == Sort(s, le) <==> Ordered(r, le) && Stable(s, r, le)
  {
    SortIsStable(s, le);
    SortSorts(s, le);
    if Ordered(r, le) && Stable(s, r, le) {
      forall x ensures Ties(x, r, le) == Ties(x, Sort(s, le), le) {
        assert Ties(x, r, le) == Ties(x, s, le);
        assert Ties(x, Sort(s, le), le) == Ties(x, s, le);
      }
      SameTiesSameList(Sort(s, le), r, le);
    }
  }

  // ---- sorting twice ---------------------------------------------------------

  /** Order by `first`, and by `second` among its ties. */
  function Lex<T>(first: (T, T) -> bool, second: (T, T) -> bool): (T, T) -> bool {
    (a, b) => first(a, b) && (!first(b, a) || second(a, b))
  }

  lemma {:induction false} InsertsCommute<T(!new)>(x: T, y: T, s: seq<T>, le: (T, T) -> bool)
    requires TotalPreorder(le) && le(x, y) && !le(y, x)
    ensures Insert(x, Insert(y, s, le), le) == Insert(y, Insert(x, s, le), le)
  {
    if s != [] && !le(x, s[0]) {
      assert !le(y, s[0]);
      InsertsCommute(x, y, s[1..], le);
    }
  }

  ghost predicate Precedes<T>(x: T, s: seq<T>, le: (T, T) -> bool) { forall i :: 0 <= i < |s| ==> le(x, s[i]) }

  lemma {:induction false} PrecedesInsert<T(!new)>(x: T, y: T, s: seq<T>, le: (T, T) -> bool, under: (T, T) -> bool)
    requires Precedes(x, s, le) && le(x, y)
    ensures Precedes(x, Insert(y, s, under), le)
  {
    if s != [] && !under(y, s[0]) { PrecedesInsert(x, y, s[1..], le, under); }
  }

  lemma {:induction false} PrecedesSort<T(!new)>(x: T, s: seq<T>, le: (T, T) -> bool, under: (T, T) -> bool)
    requires Precedes(x, s, le)
    ensures Precedes(x, Sort(s, under), le)
  {
    if s != [] {
      PrecedesSort(x, s[1..], le, under);
      PrecedesInsert(x, s[0], Sort(s[1..], under), le, under);
    }
  }

  /** An element that precedes every other by the second order is inserted alike by either order. */
  lemma {:induction false} InsertAlike<T(!new)>(x: T, s: seq<T>, first: (T, T) -> bool, second: (T, T) -> bool)
    requires TotalPreorder(first) && Precedes(x, s, second)
    ensures Insert(x, s, first) == Insert(x, s, Lex(first, second))
  {
    if s != [] && !first(x, s[0]) { InsertAlike(x, s[1..], first, second); }
  }

  lemma {:induction false} LexIsPreorder<T(!new)>(first: (T, T) -> bool, second: (T, T) -> bool)
    requires TotalPreorder(first) && TotalPreorder(second)
    ensures TotalPreorder(Lex(first, second))
  {
  }

  lemma {:induction false} SortAfterInsert<T(!new)>(x: T, s: seq<T>, first: (T, T) -> bool, second: (T, T) -> bool)
    requires TotalPreorder(first) && TotalPreorder(second) && Ordered(s, second)
    ensures Sort(Insert(x, s, second), first) == Insert(x, Sort(s, first), Lex(first, second))
  {
    var lex := Lex(first, second);
    LexIsPreorder(first, second);
    if s == [] || second(x, s[0]) {
      assert Precedes(x, s, second);
      PrecedesSort(x, s, second, first);
      InsertAlike(x, Sort(s, first), first, second);
    } else {
      var y, rest := s[0], s[1..];
      var sorted := Sort(rest, first);
      SortAfterInsert(x, rest, first, second);
      assert Precedes(y, rest, second);
      PrecedesSort(y, rest, second, first);
      InsertAlike(y, sorted, first, second);
      PrecedesInsert(y, x, sorted, second, lex);
      InsertAlike(y, Insert(x, sorted, lex), first, second);
      if lex(x, y) { InsertsCommute(x, y, sorted, lex); } else { InsertsCommute(y, x, sorted, lex); }
    }
  }

  /** Sorting by the minor order and then stably by the major one is one lexicographic sort. */
  lemma {:induction false} TwoSortsAreOne<T(!new)>(s: seq<T>, first: (T, T) -> bool, second: (T, T) -> bool)
    requires TotalPreorder(first) && TotalPreorder(second)
    ensures Sort(Sort(s, second), first) == Sort(s, Lex(first, second))
  {
    if s != [] {
      TwoSortsAreOne(s[1..], first, second);
      SortSorts(s[1..], second);
      SortAfterInsert(s[0], Sort(s[1..], second), first, second);
    }
  }

  /** Where an element is inserted: after everything strictly before it, ahead of its ties. */
  lemma {:induction false} InsertPosition<T(!new)>(x: T, s: seq<T>, le: (T, T) -> bool) returns (p: nat)
    requires TotalPreorder(le) && Ordered(s, le)
    ensures p <= |s| && Insert(x, s, le) == s[..p] + [x] + s[p..]
    ensures forall i :: 0 <= i < |s| ==> (i < p <==> !le(x, s[i]))
  {
    if s == [] || le(x, s[0]) {
      p := 0;
    } else {
      var k := InsertPosition(x, s[1..], le);
      p := k + 1;
      assert s[..p] == [s[0]] + s[1..][..k] && s[p..] == s[1..][k..];
    }
  }

  lemma {:induction false} SortIsOrdered<T(!new)>(s: seq<T>, le: (T, T) -> bool)
    requires TotalPreorder(le)
    ensures Ordered(Sort(s, le), le)
  {
    SortSorts(s, le);
  }

  /** An element at the front of the input is sorted right after those strictly before it. */
  lemma {:induction false} SortFront<T(!new)>(x: T, s: seq<T>, le: (T, T) -> bool) returns (p: nat)
    requires TotalPreorder(le)
    ensures p <= |s| && Sort([x] + s, le) == Sort(s, le)[..p] + [x] + Sort(s, le)[p..]
    ensures forall i :: 0 <= i < |s| ==> (i < p <==> !le(x, Sort(s, le)[i]))
  {
    SortIsOrdered(s, le);
    var rest := ([x] + s)[1..];
    assert rest == s;
    p := InsertPosition(x, Sort(s, le), le);
  }
}
