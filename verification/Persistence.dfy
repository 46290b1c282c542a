/** Writing the journal to storage (sync_journal in apps/api/app/services/trading_service.py). */
module Persistence {
  import opened TradingSchemas
  import opened Journal

  /** A stored row: the entry without its timestamp. */
  datatype Row = Row(seqNo: int, kind: string, symbol: string, payload: Payload, prevHash: string, hash: string)

  function RowOf(e: JournalEntry): Row { Row(e.seqNo, e.kind, e.symbol, e.payload, e.prevHash, e.hash) }

  function RowsOf(entries: seq<JournalEntry>): seq<Row> {
    seq(|entries|, i requires 0 <= i < |entries| => RowOf(entries[i]))
  }

  /** Entries numbered after the last one stored, in order. */
  function After(entries: seq<JournalEntry>, last: int): seq<JournalEntry> {
    if entries == [] then []
    else (if entries[0].seqNo > last then [entries[0]] else []) + After(entries[1..], last)
  }

  /** The storage table and the number of the last entry written to it. */
  class JournalStore {
    var rows: seq<Row>
    var lastPersistedSeq: int

    /** A process starts over whatever rows are stored, with the mark before any entry. */
    constructor (stored: seq<Row>)
      ensures rows == stored && lastPersistedSeq == -1
    {
      rows, lastPersistedSeq := stored, -1;
    }

    /** Forgetting the desk moves the mark back and leaves the rows. */
    method ResetDesk()
      modifies this
      ensures rows == old(rows) && lastPersistedSeq == -1
    {
      lastPersistedSeq := -1;
    }

    /** Store what is not stored yet; without a desk there is nothing to store. */
    method SyncJournal(journal: TradingJournal?) returns (written: nat)
      modifies this
      ensures journal == null ==> written == 0 && rows == old(rows) && lastPersistedSeq == old(lastPersistedSeq)
      ensures journal != null ==>
                var s := Synced(StoreState(old(rows), old(lastPersistedSeq)), journal.entries);
                && StoreState(rows, lastPersistedSeq) == s
                && written == |rows| - |old(rows)|
    {
      if journal == null { return 0; }
      var unsaved := After(journal.entries, lastPersistedSeq);
      var i := 0;
      while i < |unsaved|
        invariant 0 <= i <= |unsaved| && rows == old(rows) + RowsOf(unsaved[..i])
        invariant lastPersistedSeq == old(lastPersistedSeq)
      {
        RowsStep(unsaved, i);
        rows := rows + [RowOf(unsaved[i])];
        i := i + 1;
      }
      assert unsaved[..|unsaved|] == unsaved;
      if unsaved != [] { lastPersistedSeq := unsaved[|unsaved| - 1].seqNo; }
      written := |unsaved|;
    }
  }

  datatype StoreState = StoreState(rows: seq<Row>, last: int)

  /** The store after one synchronization. */
  function Synced(s: StoreState, entries: seq<JournalEntry>): (r: StoreState)
    ensures |s.rows| <= |r.rows|
  {
    var unsaved := After(entries, s.last);
    StoreState(s.rows + RowsOf(unsaved), if unsaved == [] then s.last else unsaved[|unsaved| - 1].seqNo)
  }

  // ---- any interleaving of appending, synchronizing and starting over ---------

  /** `Restart` is a new process, or a desk forgotten and built again: an empty journal over the old rows. */
  datatype Action = Append(kind: string, symbol: string, payload: Payload, ts: string) | Sync | Restart

  datatype World = World(entries: seq<JournalEntry>, store: StoreState)

  const EMPTY: World := World([], StoreState([], -1))

  function Act(dg: Digest, w: World, a: Action): World {
    match a
    case Append(kind, symbol, payload, ts) =>
      w.(entries := w.entries + [NextEntry(dg, w.entries, kind, symbol, payload, ts)])
    case Sync => w.(store := Synced(w.store, w.entries))
    case Restart => World([], StoreState(w.store.rows, -1))
  }

  function ActAll(dg: Digest, w: World, actions: seq<Action>): World {
    if actions == [] then w else
      var n := |actions| - 1;
      Act(dg, ActAll(dg, w, actions[..n]), actions[n])
  }

  /** After the rows of earlier lives come the first entries of this one, each once and none skipped,
      and the mark is the last of them. */
  ghost predicate PrefixStored(w: World, earlier: seq<Row>) {
    var n := w.store.last + 1;
    && 0 <= n <= |w.entries|
    && w.store.rows == earlier + RowsOf(w.entries[..n])
  }

  lemma {:induction false} AfterIsSuffix(entries: seq<JournalEntry>, base: int, last: int)
    requires forall i :: 0 <= i < |entries| ==> entries[i].seqNo == base + i
    ensures After(entries, last) ==
            if last < base then entries else if last - base + 1 >= |entries| then [] else entries[last - base + 1..]
    decreases entries
  {
    if entries != [] {
      AfterIsSuffix(entries[1..], base + 1, last);
      if last < base { assert entries == [entries[0]] + entries[1..]; }
    }
  }

  lemma {:induction false} RowsStep(entries: seq<JournalEntry>, i: nat)
    requires i < |entries|
    ensures RowsOf(entries[..i + 1]) == RowsOf(entries[..i]) + [RowOf(entries[i])]
  {
  }

  lemma {:induction false} RowsAppend(a: seq<JournalEntry>, b: seq<JournalEntry>)
    ensures RowsOf(a + b) == RowsOf(a) + RowsOf(b)
  {
  }

  lemma {:induction false} UnsavedIsTheRest(w: World, earlier: seq<Row>)
    requires PrefixStored(w, earlier) && Numbered(w.entries)
    ensures After(w.entries, w.store.last) == w.entries[w.store.last + 1..]
  {
    AfterIsSuffix(w.entries, 0, w.store.last);
  }

  lemma {:induction false} SyncStoresAll(w: World, earlier: seq<Row>)
    requires PrefixStored(w, earlier) && Numbered(w.entries)
    ensures Synced(w.store, w.entries) == StoreState(earlier + RowsOf(w.entries), |w.entries| - 1)
  {
    var n := w.store.last + 1;
    UnsavedIsTheRest(w, earlier);
    var front, back := w.entries[..n], w.entries[n..];
    RowsAppend(front, back);
    assert w.entries == front + back;
    assert earlier + RowsOf(front) + RowsOf(back) == earlier + (RowsOf(front) + RowsOf(back));
  }

  lemma {:induction false} AllIsAPrefix(entries: seq<JournalEntry>, earlier: seq<Row>)
    ensures PrefixStored(World(entries, StoreState(earlier + RowsOf(entries), |entries| - 1)), earlier)
  {
    assert entries[..|entries|] == entries;
  }

  /** One action on a followed journal; a restart turns all rows into those of earlier lives. */
  lemma {:induction false} ActFollows(dg: Digest, w: World, a: Action, earlier: seq<Row>)
    requires Verifies(dg, w.entries) && Numbered(w.entries) && PrefixStored(w, earlier)
    ensures var after := Act(dg, w, a);
            && Verifies(dg, after.entries) && Numbered(after.entries)
            && PrefixStored(after, if a.Restart? then w.store.rows else earlier)
            && (a.Sync? ==> after.store.rows == earlier + RowsOf(w.entries))
  {
    match a
    case Append(kind, symbol, payload, ts) =>
      AppendKeepsVerdict(dg, w.entries, kind, symbol, payload, ts);
      var n := w.store.last + 1;
      assert Act(dg, w, a).entries[..n] == w.entries[..n];
    case Sync =>
      SyncStoresAll(w, earlier);
      AllIsAPrefix(w.entries, earlier);
    case Restart =>
      assert w.store.rows + RowsOf([]) == w.store.rows;
  }

  ghost predicate Followed(dg: Digest, w: World, earlier: seq<Row>, lives: Lives) {
    Verifies(dg, w.entries) && Numbered(w.entries) && PrefixStored(w, earlier) && Tally(w, earlier, lives)
  }

  lemma {:induction false} StepIsFollowed(dg: Digest, w: World, a: Action, earlier: seq<Row>, lives: Lives)
    requires Followed(dg, w, earlier, lives)
    ensures Followed(dg, Act(dg, w, a), if a.Restart? then w.store.rows else earlier, Lived(lives, a))
  {
    ActFollows(dg, w, a, earlier);
    ActTallies(dg, w, a, earlier, lives);
  }

  lemma {:induction false} HistoryIsFollowed(dg: Digest, actions: seq<Action>) returns (earlier: seq<Row>)
    ensures Followed(dg, ActAll(dg, EMPTY, actions), earlier, LivesOf(actions))
    decreases actions
  {
    earlier := [];
    if actions != [] {
      var n := |actions| - 1;
      earlier := HistoryIsFollowed(dg, actions[..n]);
      var w := ActAll(dg, EMPTY, actions[..n]);
      StepIsFollowed(dg, w, actions[n], earlier, LivesOf(actions[..n]));
      if actions[n].Restart? { earlier := w.store.rows; }
    }
  }

  lemma {:induction false} OneLife(actions: seq<Action>)
    requires forall a :: a in actions ==> !a.Restart?
    ensures LivesOf(actions).writers == 0
    decreases actions
  {
    if actions != [] { OneLife(actions[..|actions| - 1]); }
  }

  /** At every moment of every history the journal verifies and its numbers are its positions, and the
      rows are those of earlier lives, none without a restart, followed by a gap-free, duplicate-free
      prefix of the journal. */
  lemma {:induction false} StorageFollowsJournal(dg: Digest, actions: seq<Action>) returns (earlier: seq<Row>)
    ensures var w := ActAll(dg, EMPTY, actions);
            Verifies(dg, w.entries) && Numbered(w.entries) && PrefixStored(w, earlier)
    ensures (forall a :: a in actions ==> !a.Restart?) ==> earlier == []
  {
    earlier := HistoryIsFollowed(dg, actions);
    if forall a :: a in actions ==> !a.Restart? { OneLife(actions); }
  }

  /** Right after a synchronization the prefix is the whole journal. */
  lemma {:induction false} SyncedStorageIsComplete(dg: Digest, actions: seq<Action>) returns (earlier: seq<Row>)
    ensures var w := ActAll(dg, EMPTY, actions + [Sync]);
            w.store.rows == earlier + RowsOf(w.entries) && w.entries == ActAll(dg, EMPTY, actions).entries
    ensures (forall a :: a in actions ==> !a.Restart?) ==> earlier == []
  {
    earlier := StorageFollowsJournal(dg, actions);
    assert (actions + [Sync])[..|actions|] == actions;
    SyncStoresAll(ActAll(dg, EMPTY, actions), earlier);
  }

  lemma {:induction false} NothingUnsaved(rows: seq<Row>, entries: seq<JournalEntry>)
    requires Numbered(entries)
    ensures Synced(StoreState(rows, |entries| - 1), entries) == StoreState(rows, |entries| - 1)
  {
    AfterIsSuffix(entries, 0, |entries| - 1);
    assert rows + RowsOf([]) == rows;
  }

  /** Rows once stored are never changed, and a second synchronization writes nothing. */
  lemma {:induction false} SyncIsIdempotent(dg: Digest, actions: seq<Action>)
    ensures var w := ActAll(dg, EMPTY, actions);
            var once := Synced(w.store, w.entries);
            && once.rows[..|w.store.rows|] == w.store.rows && Synced(once, w.entries) == once
  {
    var earlier := StorageFollowsJournal(dg, actions);
    var w := ActAll(dg, EMPTY, actions);
    SyncStoresAll(w, earlier);
    NothingUnsaved(earlier + RowsOf(w.entries), w.entries);
  }

  // ---- when two rows carry one number ----------------------------------------

  /** Earlier lives that stored something, and whether this one has appended and stored anything. */
  datatype Lives = Lives(writers: nat, appended: bool, wrote: bool) {
    function All(): nat { writers + if wrote then 1 else 0 }
  }

  function LivesOf(actions: seq<Action>): Lives {
    if actions == [] then Lives(0, false, false) else
      var n := |actions| - 1;
      Lived(LivesOf(actions[..n]), actions[n])
  }

  function Lived(was: Lives, a: Action): Lives {
    match a
    case Append(_, _, _, _) => was.(appended := true)
    case Sync => was.(wrote := was.wrote || was.appended)
    case Restart => Lives(was.All(), false, false)
  }

  ghost predicate Counted(rows: seq<Row>) { forall i :: 0 <= i < |rows| ==> rows[i].seqNo == i }

  ghost predicate DistinctNumbers(rows: seq<Row>) {
    forall i, j :: 0 <= i < j < |rows| ==> rows[i].seqNo != rows[j].seqNo
  }

  /** What the number of lives that wrote says about the rows: each begins at zero. */
  ghost predicate RowsTally(rows: seq<Row>, writers: nat) {
    && (writers == 0 <==> rows == [])
    && (writers > 0 ==> rows[0].seqNo == 0)
    && (writers == 1 ==> Counted(rows))
    && (writers > 1 ==> exists j :: 0 < j < |rows| && rows[j].seqNo == 0)
  }

  ghost predicate Tally(w: World, earlier: seq<Row>, lives: Lives) {
    && (lives.appended <==> w.entries != [])
    && (lives.wrote <==> w.store.last >= 0)
    && RowsTally(earlier, lives.writers)
  }

  /** The rows of one more life. */
  lemma {:induction false} RowsTallyMore(earlier: seq<Row>, writers: nat, rows: seq<Row>)
    requires RowsTally(earlier, writers) && Counted(rows)
    ensures RowsTally(earlier + rows, writers + if rows == [] then 0 else 1)
  {
    var all := earlier + rows;
    if rows == [] {
      assert all == earlier;
    } else if earlier != [] {
      assert all[0] == earlier[0] && all[|earlier|] == rows[0];
    }
  }

  lemma {:induction false} WorldTallies(w: World, earlier: seq<Row>, lives: Lives)
    requires PrefixStored(w, earlier) && Numbered(w.entries) && Tally(w, earlier, lives)
    ensures RowsTally(w.store.rows, lives.All())
  {
    RowsTallyMore(earlier, lives.writers, RowsOf(w.entries[..w.store.last + 1]));
  }

  lemma {:induction false} ActTallies(dg: Digest, w: World, a: Action, earlier: seq<Row>, was: Lives)
    requires PrefixStored(w, earlier) && Numbered(w.entries) && Tally(w, earlier, was)
    ensures Tally(Act(dg, w, a), if a.Restart? then w.store.rows else earlier, Lived(was, a))
  {
    if a.Sync? { SyncStoresAll(w, earlier); }
    if a.Restart? { WorldTallies(w, earlier, was); }
  }

  /** Stored numbers stay distinct exactly as long as no more than one life has stored anything. */
  lemma {:induction false} NumbersAreDistinctExactly(dg: Digest, actions: seq<Action>)
    ensures DistinctNumbers(ActAll(dg, EMPTY, actions).store.rows) <==> LivesOf(actions).All() <= 1
  {
    var earlier := HistoryIsFollowed(dg, actions);
    var w := ActAll(dg, EMPTY, actions);
    WorldTallies(w, earlier, LivesOf(actions));
    if LivesOf(actions).All() > 1 {
      var j :| 0 < j < |w.store.rows| && w.store.rows[j].seqNo == 0;
      assert w.store.rows[0].seqNo == w.store.rows[j].seqNo;
    }
  }

  /** A row holds everything of its entry but the time. */
  lemma {:induction false} RowsLackOnlyTime(entries: seq<JournalEntry>, i: nat)
    requires i < |entries|
    ensures |RowsOf(entries)| == |entries|
    ensures var row := RowsOf(entries)[i];
            JournalEntry(row.seqNo, entries[i].timestamp, row.kind, row.symbol, row.payload, row.prevHash, row.hash)
            == entries[i]
  {
  }
}
