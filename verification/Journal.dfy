/** The hash-chained audit journal (services/trading/journal.py). */
module Journal {
  import opened TradingSchemas

  datatype Body = Body(seqNo: int, kind: string, symbol: string, payload: Payload, ts: string)

  datatype JournalEntry = JournalEntry(
    seqNo: int, timestamp: string, kind: string, symbol: string, payload: Payload, prevHash: string, hash: string)

  /** SHA-256 in hexadecimal and canonical JSON, both left abstract. */
  datatype Digest = Digest(sha: string -> string, canonical: Body -> string) {
    ghost predicate FixedLength() { forall x :: |sha(x)| == 64 }
  }

  const GENESIS_HASH: string := "0000000000000000000000000000000000000000000000000000000000000000"

  function BodyOf(e: JournalEntry): Body { Body(e.seqNo, e.kind, e.symbol, e.payload, e.timestamp) }

  function HashOf(dg: Digest, prevHash: string, body: Body): string { dg.sha(prevHash + dg.canonical(body)) }

  /** The hash the next entry must commit to. */
  function Head(entries: seq<JournalEntry>): string {
    if entries == [] then GENESIS_HASH else entries[|entries| - 1].hash
  }

  function NextEntry(
    dg: Digest, entries: seq<JournalEntry>, kind: string, symbol: string, payload: Payload, ts: string): JournalEntry
  {
    JournalEntry(|entries|, ts, kind, symbol, payload, Head(entries),
                 HashOf(dg, Head(entries), Body(|entries|, kind, symbol, payload, ts)))
  }

  /** Entry `i` commits to the one before it and to its own content. */
  ghost predicate Linked(dg: Digest, entries: seq<JournalEntry>, i: nat)
    requires i < |entries|
  {
    && entries[i].prevHash == Head(entries[..i])
    && entries[i].hash == HashOf(dg, Head(entries[..i]), BodyOf(entries[i]))
  }

  ghost predicate Verifies(dg: Digest, entries: seq<JournalEntry>) {
    forall i: nat :: i < |entries| ==> Linked(dg, entries, i)
  }

  /** Sequence numbers count from zero without gaps. */
  ghost predicate Numbered(entries: seq<JournalEntry>) {
    forall i :: 0 <= i < |entries| ==> entries[i].seqNo == i
  }

  class TradingJournal {
    const dg: Digest
    var entries: seq<JournalEntry>
    var prevHash: string

    ghost predicate Valid()
      reads this
    {
      prevHash == Head(entries)
    }

    constructor (dg: Digest, initial: seq<JournalEntry>)
      ensures Valid() && entries == initial && this.dg == dg
    {
      this.dg := dg;
      entries := initial;
      prevHash := if |initial| > 0 then initial[|initial| - 1].hash else GENESIS_HASH;
    }

    method Append(kind: string, symbol: string, payload: Payload, ts: string) returns (entry: JournalEntry)
      requires Valid()
      modifies this
      ensures Valid()
      ensures entry == NextEntry(dg, old(entries), kind, symbol, payload, ts)
      ensures entries == old(entries) + [entry]
      ensures Verifies(dg, entries) <==> old(Verifies(dg, entries))
      ensures old(Numbered(entries)) ==> Numbered(entries)
    {
      var seqNo := |entries|;
      var digest := HashOf(dg, prevHash, Body(seqNo, kind, symbol, payload, ts));
      entry := JournalEntry(seqNo, ts, kind, symbol, payload, prevHash, digest);
      AppendKeepsVerdict(dg, entries, kind, symbol, payload, ts);
      entries := entries + [entry];
      prevHash := digest;
    }

    /** Recompute the chain from genesis. */
    method Verify() returns (ok: bool)
      ensures ok <==> Verifies(dg, entries)
    {
      var prev := GENESIS_HASH;
      var i := 0;
      while i < |entries|
        invariant 0 <= i <= |entries| && prev == Head(entries[..i])
        invariant forall j: nat :: j < i ==> Linked(dg, entries, j)
      {
        if entries[i].prevHash != prev {
          assert !Linked(dg, entries, i);
          return false;
        }
        if HashOf(dg, prev, BodyOf(entries[i])) != entries[i].hash {
          assert !Linked(dg, entries, i);
          return false;
        }
        prev := entries[i].hash;
        i := i + 1;
      }
      return true;
    }
  }

  lemma {:induction false} LinkedInPrefix(dg: Digest, entries: seq<JournalEntry>, n: nat, i: nat)
    requires i < n <= |entries|
    ensures Linked(dg, entries[..n], i) <==> Linked(dg, entries, i)
  {
    assert entries[..n][..i] == entries[..i];
  }

  /** Appending never changes whether a journal verifies. */
  lemma {:induction false} AppendKeepsVerdict(
    dg: Digest, entries: seq<JournalEntry>, kind: string, symbol: string, payload: Payload, ts: string)
    ensures Verifies(dg, entries + [NextEntry(dg, entries, kind, symbol, payload, ts)]) <==> Verifies(dg, entries)
  {
    var longer := entries + [NextEntry(dg, entries, kind, symbol, payload, ts)];
    assert longer[..|entries|] == entries;
    assert Linked(dg, longer, |entries|);
    forall i: nat | i < |entries| ensures Linked(dg, longer, i) <==> Linked(dg, entries, i) {
      LinkedInPrefix(dg, longer, |entries|, i);
    }
  }

  lemma {:induction false} PrefixVerifies(dg: Digest, entries: seq<JournalEntry>, n: nat)
    requires Verifies(dg, entries) && n <= |entries|
    ensures Verifies(dg, entries[..n])
  {
    forall i: nat | i < n ensures Linked(dg, entries[..n], i) { LinkedInPrefix(dg, entries, n, i); }
  }

  /** An edit of one entry, its hashes included, goes unnoticed exactly when the entry still points
      at its predecessor, carries its own digest, and either is the newest or kept the old digest. */
  lemma {:induction false} EditIsCaught(dg: Digest, entries: seq<JournalEntry>, i: nat, edited: JournalEntry)
    requires Verifies(dg, entries) && i < |entries|
    ensures Verifies(dg, entries[i := edited]) <==>
              && edited.prevHash == entries[i].prevHash
              && edited.hash == HashOf(dg, edited.prevHash, BodyOf(edited))
              && (i == |entries| - 1 || edited.hash == entries[i].hash)
  {
    var forged := entries[i := edited];
    assert forged[..i] == entries[..i];
    assert Linked(dg, entries, i);
    if i + 1 < |entries| {
      assert Linked(dg, entries, i + 1);
      assert Head(forged[..i + 1]) == edited.hash && Head(entries[..i + 1]) == entries[i].hash;
    }
    if edited.prevHash == entries[i].prevHash && edited.hash == HashOf(dg, edited.prevHash, BodyOf(edited))
       && (i == |entries| - 1 || edited.hash == entries[i].hash)
    {
      forall j: nat | j < |forged| ensures Linked(dg, forged, j) {
        if j != i { OthersStayLinked(dg, entries, i, edited, j); }
      }
    } else if Linked(dg, forged, i) {
      assert !Linked(dg, forged, i + 1);
    }
  }

  /** Only the edited entry and the one after it can tell. */
  lemma {:induction false} OthersStayLinked(
    dg: Digest, entries: seq<JournalEntry>, i: nat, edited: JournalEntry, j: nat)
    requires Verifies(dg, entries) && i < |entries| && j < |entries| && j != i
    requires j == i + 1 ==> edited.hash == entries[i].hash
    ensures Linked(dg, entries[i := edited], j)
  {
    assert Linked(dg, entries, j);
    assert Head(entries[i := edited][..j]) == Head(entries[..j]);
  }

  /** So the newest entry can say anything, once its digest is computed afresh. */
  lemma {:induction false} NewestIsForgeable(
    dg: Digest, entries: seq<JournalEntry>, kind: string, symbol: string, payload: Payload, ts: string)
    requires Verifies(dg, entries) && entries != []
    ensures var n := |entries| - 1;
            Verifies(dg, entries[n := NextEntry(dg, entries[..n], kind, symbol, payload, ts)])
  {
    var n := |entries| - 1;
    assert Linked(dg, entries, n);
    EditIsCaught(dg, entries, n, NextEntry(dg, entries[..n], kind, symbol, payload, ts));
  }

  /** A chain over any contents can be computed afresh: `Verify` alone cannot tell a rewritten
      journal from the original, only the head hash can. */
  function Rechain(dg: Digest, bodies: seq<Body>): (entries: seq<JournalEntry>)
    ensures |entries| == |bodies|
  {
    if bodies == [] then [] else
      var n := |bodies| - 1;
      var before := Rechain(dg, bodies[..n]);
      var b := bodies[n];
      before + [JournalEntry(b.seqNo, b.ts, b.kind, b.symbol, b.payload, Head(before), HashOf(dg, Head(before), b))]
  }

  lemma {:induction false} RewriteVerifies(dg: Digest, bodies: seq<Body>)
    ensures Verifies(dg, Rechain(dg, bodies))
    ensures forall i :: 0 <= i < |bodies| ==> BodyOf(Rechain(dg, bodies)[i]) == bodies[i]
  {
    if bodies != [] {
      var n := |bodies| - 1;
      RewriteVerifies(dg, bodies[..n]);
      var all := Rechain(dg, bodies);
      assert all[..n] == Rechain(dg, bodies[..n]);
      forall i: nat | i < |all| ensures Linked(dg, all, i) {
        if i < n { LinkedInPrefix(dg, all, n, i); }
      }
    }
  }

  /** What a backward comparison of two journals with one head hash can find. */
  datatype Evidence = SameHistory | Collision(x: string, y: string) | GenesisPreimage(x: string)

  /** The text hashed for the last entry. */
  function LastInput(dg: Digest, entries: seq<JournalEntry>): string
    requires entries != []
  {
    var last := entries[|entries| - 1];
    last.prevHash + dg.canonical(BodyOf(last))
  }

  function Compare(dg: Digest, a: seq<JournalEntry>, b: seq<JournalEntry>): Evidence
  {
    if a == [] && b == [] then SameHistory
    else if a == [] then GenesisPreimage(LastInput(dg, b))
    else if b == [] then GenesisPreimage(LastInput(dg, a))
    else if LastInput(dg, a) != LastInput(dg, b) then Collision(LastInput(dg, a), LastInput(dg, b))
    else Compare(dg, a[..|a| - 1], b[..|b| - 1])
  }

  /** Equal entry by entry, up to canonical form. */
  ghost predicate SameUpToCanonical(dg: Digest, a: seq<JournalEntry>, b: seq<JournalEntry>) {
    |a| == |b| && forall i :: 0 <= i < |a| ==>
      && a[i].prevHash == b[i].prevHash && a[i].hash == b[i].hash
      && dg.canonical(BodyOf(a[i])) == dg.canonical(BodyOf(b[i]))
  }

  ghost predicate Convincing(dg: Digest, evidence: Evidence, a: seq<JournalEntry>, b: seq<JournalEntry>) {
    match evidence
    case SameHistory => SameUpToCanonical(dg, a, b)
    case Collision(x, y) => x != y && dg.sha(x) == dg.sha(y)
    case GenesisPreimage(x) => dg.sha(x) == GENESIS_HASH
  }

  lemma {:induction false} LastLink(dg: Digest, a: seq<JournalEntry>)
    requires dg.FixedLength() && Verifies(dg, a) && a != []
    ensures Head(a) == dg.sha(LastInput(dg, a))
    ensures a[|a| - 1].prevHash == Head(a[..|a| - 1]) && |a[|a| - 1].prevHash| == 64
    ensures Verifies(dg, a[..|a| - 1])
  {
    assert Linked(dg, a, |a| - 1);
    if |a| > 1 { assert Linked(dg, a, |a| - 2); }
    PrefixVerifies(dg, a, |a| - 1);
  }

  lemma {:induction false} SplitAt64(p: string, x: string, q: string, y: string)
    requires |p| == |q| && p + x == q + y
    ensures p == q && x == y
  {
    assert (p + x)[..|p|] == p && (q + y)[..|q|] == q;
    assert (p + x)[|p|..] == x && (q + y)[|q|..] == y;
  }

  /** Tamper evidence: two verifying journals with one head hash tell the same history, or the
      backward walk hands over a hash collision or a preimage of the genesis hash. */
  lemma {:induction false} TamperEvidence(dg: Digest, a: seq<JournalEntry>, b: seq<JournalEntry>)
    requires dg.FixedLength() && Verifies(dg, a) && Verifies(dg, b) && Head(a) == Head(b)
    ensures Convincing(dg, Compare(dg, a, b), a, b)
  {
    if a != [] { LastLink(dg, a); }
    if b != [] { LastLink(dg, b); }
    if a != [] && b != [] && LastInput(dg, a) == LastInput(dg, b) {
      var m, n := |a| - 1, |b| - 1;
      SplitAt64(a[m].prevHash, dg.canonical(BodyOf(a[m])), b[n].prevHash, dg.canonical(BodyOf(b[n])));
      TamperEvidence(dg, a[..m], b[..n]);
      assert a == a[..m] + [a[m]] && b == b[..n] + [b[n]];
    }
  }

  // ---- in the entries' own fields ----------------------------------------------

  /** The entry repeats its predecessor's hash, the first one the genesis hash, and its own hash is the
      digest of that and of all its other fields. */
  ghost predicate Sealed(dg: Digest, entries: seq<JournalEntry>, i: nat)
    requires i < |entries|
  {
    var e := entries[i];
    && e.prevHash == (if i == 0 then GENESIS_HASH else entries[i - 1].hash)
    && e.hash == dg.sha(e.prevHash + dg.canonical(Body(e.seqNo, e.kind, e.symbol, e.payload, e.timestamp)))
  }

  /** A journal verifies exactly when every entry is sealed. */
  lemma {:induction false} VerifiesInFields(dg: Digest, entries: seq<JournalEntry>)
    ensures Verifies(dg, entries) <==> forall i: nat :: i < |entries| ==> Sealed(dg, entries, i)
    ensures |GENESIS_HASH| == 64
  {
    forall i: nat | i < |entries| ensures Linked(dg, entries, i) <==> Sealed(dg, entries, i) {
      assert Head(entries[..i]) == if i == 0 then GENESIS_HASH else entries[i - 1].hash;
    }
  }

  /** What is appended: the next number, the given fields, the head's hash and the digest of it all. */
  lemma {:induction false} AppendedFields(
    dg: Digest, entries: seq<JournalEntry>, kind: string, symbol: string, payload: Payload, ts: string)
    ensures var e := NextEntry(dg, entries, kind, symbol, payload, ts);
            && e.seqNo == |entries| && e.kind == kind && e.symbol == symbol && e.payload == payload && e.timestamp == ts
            && e.prevHash == (if entries == [] then GENESIS_HASH else entries[|entries| - 1].hash)
            && e.hash == dg.sha(e.prevHash + dg.canonical(Body(e.seqNo, e.kind, e.symbol, e.payload, e.timestamp)))
  {
  }

  /** With a canonical form that tells all contents apart, the same history means the same entries. */
  lemma {:induction false} SameHistoryIsSameEntries(dg: Digest, a: seq<JournalEntry>, b: seq<JournalEntry>)
    requires forall x, y :: dg.canonical(x) == dg.canonical(y) ==> x == y
    requires dg.FixedLength() && Verifies(dg, a) && Verifies(dg, b) && Head(a) == Head(b)
    ensures Compare(dg, a, b).SameHistory? ==> a == b
  {
    TamperEvidence(dg, a, b);
    if Compare(dg, a, b).SameHistory? {
      forall i | 0 <= i < |a| ensures a[i] == b[i] {
        assert dg.canonical(BodyOf(a[i])) == dg.canonical(BodyOf(b[i]));
      }
    }
  }
}
