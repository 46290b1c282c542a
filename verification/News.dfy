/** Which news items reach the research context (services/fundamentals/context.py). */
module News {
  import opened Basics
  import opened StableSort

  const MAX_NEWS: nat := 5

  /** `content` stands for the fields the selection does not look at. */
  datatype NewsItem = NewsItem(provider: Option<string>, articleId: string, publishedAt: int, content: string)

  type NewsKey = (Option<string>, string)

  function Key(n: NewsItem): NewsKey { (n.provider, n.articleId) }

  predicate IdLe(a: NewsItem, b: NewsItem) { TextLe(a.articleId, b.articleId) }

  predicate NewerLe(a: NewsItem, b: NewsItem) { a.publishedAt >= b.publishedAt }

  /** Newest first, by article id within one instant. */
  predicate RankLe(a: NewsItem, b: NewsItem) {
    a.publishedAt > b.publishedAt || (a.publishedAt == b.publishedAt && TextLe(a.articleId, b.articleId))
  }

  predicate Above(a: NewsItem, b: NewsItem) { RankLe(a, b) && !RankLe(b, a) }

  function Ranked(items: seq<NewsItem>): seq<NewsItem> { Sort(items, RankLe) }

  /** The first copy of each key not yet seen. */
  function Unique(items: seq<NewsItem>, seen: set<NewsKey>): seq<NewsItem> {
    if items == [] then []
    else if Key(items[0]) in seen then Unique(items[1..], seen)
    else [items[0]] + Unique(items[1..], seen + {Key(items[0])})
  }

  function Budget(items: seq<NewsItem>): seq<NewsItem> { if |items| <= MAX_NEWS then items else items[..MAX_NEWS] }

  function Selection(items: seq<NewsItem>): seq<NewsItem> { Budget(Unique(Ranked(items), {})) }

  lemma {:induction false} UniqueStep(s: seq<NewsItem>, i: nat, seen: set<NewsKey>)
    requires i < |s|
    ensures Unique(s[i..], seen) == if Key(s[i]) in seen then Unique(s[i + 1..], seen)
                                    else [s[i]] + Unique(s[i + 1..], seen + {Key(s[i])})
  {
    assert s[i..][1..] == s[i + 1..];
  }

  method SelectNews(items: seq<NewsItem>) returns (chosen: seq<NewsItem>)
    ensures chosen == Selection(items)
  {
    var ordered := Sort(items, IdLe);
    ordered := Sort(ordered, NewerLe);
    TwoSortsRank(items);
    var seen: set<NewsKey> := {};
    var unique: seq<NewsItem> := [];
    for i := 0 to |ordered|
      invariant Unique(ordered, {}) == unique + Unique(ordered[i..], seen)
    {
      var n := ordered[i];
      UniqueStep(ordered, i, seen);
      if Key(n) !in seen {
        seen := seen + {Key(n)};
        unique := unique + [n];
      }
    }
    chosen := Budget(unique);
  }

  // ---- two sorts, one ranking ------------------------------------------------

  lemma {:induction false} OrdersAreTotal()
    ensures TotalPreorder(IdLe) && TotalPreorder(NewerLe) && TotalPreorder(RankLe)
  {
    forall a: NewsItem, b: NewsItem ensures IdLe(a, b) || IdLe(b, a) { TextLeTotal(a.articleId, b.articleId); }
    forall a: NewsItem, b: NewsItem, c: NewsItem | IdLe(a, b) && IdLe(b, c) ensures IdLe(a, c) {
      TextLeTransitive(a.articleId, b.articleId, c.articleId);
    }
    LexIsPreorder(NewerLe, IdLe);
    assert forall a, b :: RankLe(a, b) == Lex(NewerLe, IdLe)(a, b);
  }

  lemma {:induction false} RankIsTotal()
    ensures TotalPreorder(RankLe)
  {
    OrdersAreTotal();
  }

  /** Sorting by id and then stably by date, newest first, is one sort by rank. */
  lemma {:induction false} TwoSortsRank(items: seq<NewsItem>)
    ensures Sort(Sort(items, IdLe), NewerLe) == Ranked(items)
  {
    OrdersAreTotal();
    TwoSortsAreOne(items, NewerLe, IdLe);
    SameOrderSameSort(items, Lex(NewerLe, IdLe), RankLe);
  }

  lemma {:induction false} SameOrderSameInsert(
    x: NewsItem, s: seq<NewsItem>, le: (NewsItem, NewsItem) -> bool, under: (NewsItem, NewsItem) -> bool)
    requires forall a, b :: le(a, b) == under(a, b)
    ensures Insert(x, s, le) == Insert(x, s, under)
  {
    if s != [] && !le(x, s[0]) { SameOrderSameInsert(x, s[1..], le, under); }
  }

  lemma {:induction false} SameOrderSameSort(
    s: seq<NewsItem>, le: (NewsItem, NewsItem) -> bool, under: (NewsItem, NewsItem) -> bool)
    requires forall a, b :: le(a, b) == under(a, b)
    ensures Sort(s, le) == Sort(s, under)
  {
    if s != [] {
      SameOrderSameSort(s[1..], le, under);
      SameOrderSameInsert(s[0], Sort(s[1..], le), le, under);
    }
  }

  // ---- what is selected ------------------------------------------------------

  ghost function Keys(items: seq<NewsItem>): set<NewsKey> { set n | n in items :: Key(n) }

  /** Either every key was seen, or the first fresh item leads and the rest follows. */
  lemma {:induction false} FirstFresh(s: seq<NewsItem>, seen: set<NewsKey>) returns (i: nat)
    ensures i <= |s| && forall j :: 0 <= j < i ==> Key(s[j]) in seen
    ensures i == |s| ==> Unique(s, seen) == []
    ensures i < |s| ==> Key(s[i]) !in seen && Unique(s, seen) == [s[i]] + Unique(s, seen + {Key(s[i])})
  {
    if s == [] {
      i := 0;
    } else if Key(s[0]) in seen {
      var k := FirstFresh(s[1..], seen);
      i := k + 1;
    } else {
      i := 0;
    }
  }

  /** The uniques are unseen members, distinct by key and in order. */
  lemma {:induction false} UniqueIsFresh(s: seq<NewsItem>, seen: set<NewsKey>)
    requires Ordered(s, RankLe)
    ensures var u := Unique(s, seen);
            && (forall n :: n in u ==> n in s && Key(n) !in seen)
            && (forall i, j :: 0 <= i < j < |u| ==> Key(u[i]) != Key(u[j]) && RankLe(u[i], u[j]))
    decreases s
  {
    if s != [] {
      if Key(s[0]) in seen {
        UniqueIsFresh(s[1..], seen);
      } else {
        UniqueIsFresh(s[1..], seen + {Key(s[0])});
        var u, v := Unique(s, seen), Unique(s[1..], seen + {Key(s[0])});
        forall j | 0 < j < |u| ensures Key(u[0]) != Key(u[j]) && RankLe(u[0], u[j]) {
          assert u[j] == v[j - 1] && v[j - 1] in v;
          var k :| 0 <= k < |s[1..]| && s[1..][k] == v[j - 1];
          assert s[1..][k] == s[k + 1];
        }
      }
    }
  }

  /** Each unseen key has its first copy among the uniques. */
  lemma {:induction false} UniqueCovers(s: seq<NewsItem>, seen: set<NewsKey>, n: NewsItem) returns (k: nat)
    requires TotalPreorder(RankLe) && Ordered(s, RankLe) && n in s && Key(n) !in seen
    ensures k < |Unique(s, seen)| && Key(Unique(s, seen)[k]) == Key(n) && RankLe(Unique(s, seen)[k], n)
    decreases s
  {
    if Key(s[0]) == Key(n) {
      k := 0;
    } else if Key(s[0]) in seen {
      k := UniqueCovers(s[1..], seen, n);
    } else {
      var i := UniqueCovers(s[1..], seen + {Key(s[0])}, n);
      k := i + 1;
    }
  }

  /** Each item has, among the uniques, a first copy that is no lower. */
  lemma {:induction false} FirstCopy(items: seq<NewsItem>, n: NewsItem) returns (k: nat)
    requires n in items
    ensures var u := Unique(Ranked(items), {});
            && (forall i, j :: 0 <= i < j < |u| ==> Key(u[i]) != Key(u[j]) && RankLe(u[i], u[j]))
            && k < |u| && Key(u[k]) == Key(n) && RankLe(u[k], n)
  {
    RankIsTotal();
    SortIsOrdered(items, RankLe);
    SortMembers(items, RankLe);
    UniqueIsFresh(Ranked(items), {});
    k := UniqueCovers(Ranked(items), {}, n);
  }

  /** A selected item is no lower than any copy of it; an item whose key is not selected ranks
      below a full budget. */
  lemma {:induction false} SelectionCovers(items: seq<NewsItem>, n: NewsItem)
    requires n in items
    ensures var out := Selection(items);
            && (forall i :: 0 <= i < |out| && Key(n) == Key(out[i]) ==> RankLe(out[i], n))
            && (Key(n) !in Keys(out) ==> |out| == MAX_NEWS && forall i :: 0 <= i < |out| ==> RankLe(out[i], n))
  {
    var k := FirstCopy(items, n);
    var u, out := Unique(Ranked(items), {}), Selection(items);
    forall i | 0 <= i < |out| ensures Key(out[i]) in Keys(out) && out[i] == u[i] {
      assert out[i] in out;
    }
    forall i | 0 <= i < |out| && (Key(n) == Key(out[i]) || Key(n) !in Keys(out)) ensures RankLe(out[i], n) {
      if i != k { RankTransitive(u[i], u[k], n); }
    }
  }

  lemma {:induction false} RankTransitive(a: NewsItem, b: NewsItem, c: NewsItem)
    requires RankLe(a, b) && RankLe(b, c)
    ensures RankLe(a, c)
  {
    RankIsTotal();
  }

  /** The selection in the terms of its users: at most the budget, in rank order, one item a key,
      and that item is no lower than any copy of it; whatever key is missing, it is because the
      budget is full of items ranked no lower. */
  lemma {:induction false} SelectionIsTheTop(items: seq<NewsItem>)
    ensures var out := Selection(items);
            && |out| <= MAX_NEWS && Ordered(out, RankLe)
            && (forall n :: n in out ==> n in items)
            && (forall i, j :: 0 <= i < j < |out| ==> Key(out[i]) != Key(out[j]))
            && (forall i, n :: 0 <= i < |out| && n in items && Key(n) == Key(out[i]) ==> RankLe(out[i], n))
            && (forall n :: n in items && Key(n) !in Keys(out) ==>
                  |out| == MAX_NEWS && forall i :: 0 <= i < |out| ==> RankLe(out[i], n))
  {
    RankIsTotal();
    SortSorts(items, RankLe);
    SortMembers(items, RankLe);
    UniqueIsFresh(Ranked(items), {});
    forall n | n in items
      ensures var out := Selection(items);
              && (forall i :: 0 <= i < |out| && Key(n) == Key(out[i]) ==> RankLe(out[i], n))
              && (Key(n) !in Keys(out) ==> |out| == MAX_NEWS && forall i :: 0 <= i < |out| ==> RankLe(out[i], n))
    {
      SelectionCovers(items, n);
    }
  }

  // ---- when the input order does not matter ----------------------------------

  ghost function KeysAbove(items: seq<NewsItem>, x: NewsItem): set<NewsKey> {
    set n | n in items && Above(n, x) :: Key(n)
  }

  /** Two distinct items on one date and id that could each be the copy kept. */
  ghost predicate Rivals(items: seq<NewsItem>, a: NewsItem, b: NewsItem) {
    && a in items && b in items && a != b && RankLe(a, b) && RankLe(b, a)
    && Key(a) !in KeysAbove(items, a) && Key(b) !in KeysAbove(items, b)
  }

  /** Rivals, if any, rank behind a full budget of other keys. */
  ghost predicate Settled(items: seq<NewsItem>) {
    forall a, b :: Rivals(items, a, b) ==> |KeysAbove(items, a)| >= MAX_NEWS
  }

  function Take(s: seq<NewsItem>, n: nat): seq<NewsItem> { if |s| <= n then s else s[..n] }

  /** With the keys above an item all seen, and fewer of them than the budget, a first fresh item has no rival. */
  lemma {:induction false} FirstFreshIsUnique(s: seq<NewsItem>, t: seq<NewsItem>, seen: set<NewsKey>, i: nat, j: nat)
    requires TotalPreorder(RankLe) && Ordered(s, RankLe) && Ordered(t, RankLe)
    requires (forall n :: n in s <==> n in t) && Settled(s) && |seen| < MAX_NEWS
    requires i < |s| && Key(s[i]) !in seen && forall k :: 0 <= k < i ==> Key(s[k]) in seen
    requires j < |t| && Key(t[j]) !in seen && forall k :: 0 <= k < j ==> Key(t[k]) in seen
    ensures s[i] == t[j]
  {
    var a, b := s[i], t[j];
    assert RankLe(a, b) by { assert b in s; var k :| 0 <= k < |s| && s[k] == b; assert k >= i; }
    assert RankLe(b, a) by { assert a in t; var k :| 0 <= k < |t| && t[k] == a; assert k >= j; }
    forall n | n in s && Above(n, a) ensures Key(n) in seen {
      var k :| 0 <= k < |s| && s[k] == n;
      assert k < i;
    }
    assert KeysAbove(s, a) <= seen && KeysAbove(s, b) <= seen;
    SubsetSize(KeysAbove(s, a), seen);
    assert !Rivals(s, a, b);
  }

  lemma {:induction false} TakeCons(x: NewsItem, s: seq<NewsItem>, n: nat)
    requires n > 0
    ensures Take([x] + s, n) == [x] + Take(s, n - 1)
  {
  }

  /** Either both lists hold a fresh item or neither does. */
  lemma {:induction false} FreshInBoth(s: seq<NewsItem>, t: seq<NewsItem>, seen: set<NewsKey>, i: nat)
    requires (forall x :: x in s <==> x in t) && i < |s| && Key(s[i]) !in seen
    ensures exists k :: 0 <= k < |t| && Key(t[k]) !in seen
  {
    assert s[i] in t;
    var k :| 0 <= k < |t| && t[k] == s[i];
  }

  lemma {:induction false} SameTop(s: seq<NewsItem>, t: seq<NewsItem>, seen: set<NewsKey>, n: nat)
    requires TotalPreorder(RankLe) && Ordered(s, RankLe) && Ordered(t, RankLe)
    requires (forall x :: x in s <==> x in t) && Settled(s) && |seen| + n == MAX_NEWS
    ensures Take(Unique(s, seen), n) == Take(Unique(t, seen), n)
    decreases n
  {
    if n == 0 {
      assert Take(Unique(s, seen), n) == [] && Take(Unique(t, seen), n) == [];
    } else {
      var i := FirstFresh(s, seen);
      var j := FirstFresh(t, seen);
      if i < |s| { FreshInBoth(s, t, seen, i); }
      if j < |t| { FreshInBoth(t, s, seen, j); }
      if i < |s| {
        FirstFreshIsUnique(s, t, seen, i, j);
        var more := seen + {Key(s[i])};
        SameTop(s, t, more, n - 1);
        TakeCons(s[i], Unique(s, more), n);
        TakeCons(s[i], Unique(t, more), n);
      }
    }
  }

  /** An item at the front of the input is ranked right after the items above it. */
  lemma {:induction false} RankedFront(x: NewsItem, w: seq<NewsItem>) returns (p: nat)
    ensures p <= |Ranked(w)| && Ranked([x] + w) == Ranked(w)[..p] + [x] + Ranked(w)[p..]
    ensures forall i :: 0 <= i < |Ranked(w)| ==> (i < p <==> !RankLe(x, Ranked(w)[i]))
  {
    RankIsTotal();
    p := SortFront(x, w, RankLe);
  }

  lemma {:induction false} PrefixIsAbove(x: NewsItem, w: seq<NewsItem>, p: nat)
    requires p <= |Ranked(w)| && forall i :: 0 <= i < |Ranked(w)| ==> (i < p <==> !RankLe(x, Ranked(w)[i]))
    ensures KeysAbove([x] + w, x) == Keys(Ranked(w)[..p])
  {
    RankIsTotal();
    SortMembers(w, RankLe);
    var z := Ranked(w);
    forall n | n in [x] + w && Above(n, x) ensures n in z[..p] {
      var k :| 0 <= k < |z| && z[k] == n;
      assert z[..p][k] == n;
    }
    forall n | n in z[..p] ensures n in [x] + w && Above(n, x) {
      var k :| 0 <= k < p && z[k] == n;
    }
  }

  /** The item at the head of its ties is kept, right after the keys above it. */
  lemma {:induction false} LeadIsKept(x: NewsItem, w: seq<NewsItem>)
    requires Key(x) !in KeysAbove([x] + w, x)
    ensures var u := Unique(Ranked([x] + w), {});
            var k := |KeysAbove([x] + w, x)|;
            k < |u| && u[k] == x
  {
    var p := RankedFront(x, w);
    PrefixIsAbove(x, w, p);
    var higher, rest := Ranked(w)[..p], Ranked(w)[p..];
    assert Ranked([x] + w) == higher + ([x] + rest);
    UniqueSplits(higher, [x] + rest, {});
    UniqueCounts(higher, {});
    assert Keys(higher) - {} == Keys(higher) && {} + Keys(higher) == Keys(higher);
  }

  lemma {:induction false} UniqueSplits(s: seq<NewsItem>, t: seq<NewsItem>, seen: set<NewsKey>)
    ensures Unique(s + t, seen) == Unique(s, seen) + Unique(t, seen + Keys(s))
    decreases s
  {
    if s == [] {
      assert s + t == t && seen + Keys(s) == seen;
    } else {
      assert (s + t)[1..] == s[1..] + t && (s + t)[0] == s[0];
      var rest := if Key(s[0]) in seen then seen else seen + {Key(s[0])};
      UniqueSplits(s[1..], t, rest);
      assert rest + Keys(s[1..]) == seen + Keys(s);
    }
  }

  lemma {:induction false} UniqueCounts(s: seq<NewsItem>, seen: set<NewsKey>)
    ensures |Unique(s, seen)| == |Keys(s) - seen|
    decreases s
  {
    if s == [] {
      assert Keys(s) - seen == {};
    } else if Key(s[0]) in seen {
      UniqueCounts(s[1..], seen);
      assert Keys(s) - seen == Keys(s[1..]) - seen;
    } else {
      var k := Key(s[0]);
      UniqueCounts(s[1..], seen + {k});
      assert Keys(s) - seen == (Keys(s[1..]) - (seen + {k})) + {k};
    }
  }

  lemma {:induction false} BringToFront(s: seq<NewsItem>, x: NewsItem) returns (w: seq<NewsItem>)
    requires x in s
    ensures multiset([x] + w) == multiset(s)
  {
    var i :| 0 <= i < |s| && s[i] == x;
    w := s[..i] + s[i + 1..];
    assert s == s[..i] + [x] + s[i + 1..];
  }

  lemma {:induction false} SameMembers(s: seq<NewsItem>, t: seq<NewsItem>)
    requires multiset(s) == multiset(t)
    ensures forall n :: n in s <==> n in t
  {
    forall n ensures n in s <==> n in t {
      assert n in s <==> n in multiset(s);
      assert n in t <==> n in multiset(t);
    }
  }

  /** A rival brought to the front of the input is selected at the rank of the tie. */
  lemma {:induction false} FrontIsSelected(items: seq<NewsItem>, x: NewsItem) returns (t: seq<NewsItem>)
    requires x in items && Key(x) !in KeysAbove(items, x) && |KeysAbove(items, x)| < MAX_NEWS
    ensures multiset(t) == multiset(items)
    ensures |KeysAbove(items, x)| < |Selection(t)| && Selection(t)[|KeysAbove(items, x)|] == x
  {
    var w := BringToFront(items, x);
    t := [x] + w;
    SameMembers(t, items);
    assert KeysAbove(t, x) == KeysAbove(items, x);
    LeadIsKept(x, w);
  }

  lemma {:induction false} SettledIsSafe(items: seq<NewsItem>, other: seq<NewsItem>)
    requires Settled(items) && multiset(other) == multiset(items)
    ensures Selection(other) == Selection(items)
  {
    RankIsTotal();
    SortSorts(items, RankLe);
    SortSorts(other, RankLe);
    var s, t := Ranked(items), Ranked(other);
    SameMembers(s, t);
    SameMembers(s, items);
    forall a, b | Rivals(s, a, b) ensures |KeysAbove(s, a)| >= MAX_NEWS {
      assert KeysAbove(s, a) == KeysAbove(items, a) && KeysAbove(s, b) == KeysAbove(items, b);
      assert Rivals(items, a, b);
    }
    SameTop(s, t, {}, MAX_NEWS);
  }

  lemma {:induction false} UnsettledIsUnsafe(items: seq<NewsItem>, a: NewsItem, b: NewsItem) returns (t: seq<NewsItem>)
    requires Rivals(items, a, b) && |KeysAbove(items, a)| < MAX_NEWS
    ensures multiset(t) == multiset(items) && Selection(t) != Selection(items)
  {
    RankIsTotal();
    assert KeysAbove(items, a) == KeysAbove(items, b);
    var first := FrontIsSelected(items, a);
    var second := FrontIsSelected(items, b);
    assert Selection(first) != Selection(second);
    t := if Selection(first) != Selection(items) then first else second;
  }

  /** The selection ignores the order of its input exactly when every pair of rivals ranks behind
      a full budget. */
  lemma {:induction false} OrderIndependence(items: seq<NewsItem>)
    ensures Settled(items) <==>
            forall other :: multiset(other) == multiset(items) ==> Selection(other) == Selection(items)
  {
    if Settled(items) {
      forall other | multiset(other) == multiset(items) ensures Selection(other) == Selection(items) {
        SettledIsSafe(items, other);
      }
    } else {
      var a, b :| Rivals(items, a, b) && |KeysAbove(items, a)| < MAX_NEWS;
      var t := UnsettledIsUnsafe(items, a, b);
    }
  }

  /** In particular, items that never share a date and an id are selected alike in any order. */
  lemma {:induction false} DistinctRanksAreSettled(items: seq<NewsItem>)
    requires forall a, b ::
               a in items && b in items && a.publishedAt == b.publishedAt && a.articleId == b.articleId ==> a == b
    ensures Settled(items)
  {
    forall a, b | Rivals(items, a, b) ensures |KeysAbove(items, a)| >= MAX_NEWS {
      TextLeAntisymmetric(a.articleId, b.articleId);
    }
  }

  lemma {:induction false} HasCopy(out: seq<NewsItem>, n: NewsItem)
    ensures Key(n) in Keys(out) ==>
              exists k :: 0 <= k < |out| && out[k].provider == n.provider && out[k].articleId == n.articleId
  {
    if Key(n) in Keys(out) {
      var x :| x in out && Key(x) == Key(n);
      var k :| 0 <= k < |out| && out[k] == x;
    }
  }

  /** The selection in the items' own fields: newest first and by article id within one instant; no provider's
      article twice; the newest copy of each; and five items when any article is missing, none of them
      older than it. */
  lemma {:induction false} SelectionInFields(items: seq<NewsItem>)
    ensures var out := Selection(items);
            && |out| <= 5 && (forall n :: n in out ==> n in items)
            && (forall i, j :: 0 <= i < j < |out| ==>
                  && (out[i].provider != out[j].provider || out[i].articleId != out[j].articleId)
                  && (out[i].publishedAt > out[j].publishedAt
                      || (out[i].publishedAt == out[j].publishedAt && TextLe(out[i].articleId, out[j].articleId))))
            && forall n :: n in items ==> Represented(items, n)
  {
    SelectionIsTheTop(items);
    forall n | n in items ensures Represented(items, n) { ItemIsRepresented(items, n); }
  }

  /** A selected copy is no older; and unless one is selected the budget is full of items no older. */
  ghost predicate Represented(items: seq<NewsItem>, n: NewsItem) {
    var out := Selection(items);
    && (forall i :: 0 <= i < |out| && n.provider == out[i].provider && n.articleId == out[i].articleId
          ==> out[i].publishedAt >= n.publishedAt)
    && ((forall k :: 0 <= k < |out| ==> out[k].provider != n.provider || out[k].articleId != n.articleId)
        ==> |out| == 5 && forall i :: 0 <= i < |out| ==> out[i].publishedAt >= n.publishedAt)
  }

  lemma {:induction false} ItemIsRepresented(items: seq<NewsItem>, n: NewsItem)
    requires n in items
    ensures Represented(items, n)
  {
    SelectionCovers(items, n);
    HasCopy(Selection(items), n);
  }
}
