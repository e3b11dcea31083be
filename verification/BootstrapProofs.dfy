/** Loading a bootstrap: snapshots of single roots, and a cursor older than most of them. */
module BootstrapProofs {
  import opened Records
  import opened EventLog
  import opened Clients
  import opened ClientProofs
  import opened ConsumeProofs

  function SnapshotValue(s: Snapshot, path: PathId): Content {
    if path in s.entries then s.entries[path] else Gone
  }

  ghost predicate SnapshotHolds(log: seq<Event>, root: RootId, s: Snapshot) {
    forall path :: SnapshotValue(s, path) == ValueAt(log, root, path, s.base)
  }

  ghost predicate OneAuthor(log: seq<Event>, root: RootId, created: int, s: Snapshot) {
    forall f | f in log && ContentOn(f, root) && created < f.seqno <= s.base :: f.author == s.author
  }

  /** A published snapshot is the fold of its incarnation up to its base, and one client wrote all of it. */
  ghost predicate SnapshotOk(log: seq<Event>, root: RootId, created: int, s: Snapshot) {
    1 <= created <= s.base <= Latest(log) && SnapshotHolds(log, root, s) && OneAuthor(log, root, created, s)
  }

  ghost predicate ListedOk(log: seq<Event>, root: RootId, l: Listed, after: int) {
    && Incarnation(log, root) == Some(l.created)
    && 1 <= l.created
    && (l.snapshot.Some? ==> SnapshotOk(log, root, l.created, l.snapshot.value) && after <= l.snapshot.value.base)
    && (l.snapshot.None? ==> after < l.created)
  }

  ghost predicate ListingOk(log: seq<Event>, listing: map<RootId, Listed>, after: int) {
    forall r | r in listing :: ListedOk(log, r, listing[r], after)
  }

  /** A replay from the cursor would meet content of an earlier incarnation of the root. */
  ghost predicate IsReplaced(log: seq<Event>, root: RootId, l: Listed, after: int) {
    exists f :: f in log && ContentOn(f, root) && after < f.seqno < l.created
  }

  ghost function Replaced(log: seq<Event>, listing: map<RootId, Listed>, after: int): set<RootId> {
    set r | r in listing && IsReplaced(log, r, listing[r], after)
  }

  lemma SnapshotEntryOk(log: seq<Event>, c: Client, root: RootId, path: PathId, s: Snapshot, staged: bool)
    requires EntriesOk(log, c) && 1 <= s.base <= Latest(log) && SnapshotHolds(log, root, s) && path in s.entries
    ensures EntryOk(log, (root, path), SnapshotEntry(c, root, path, s.entries[path], s.base, staged))
  {
    hide ValueAt, Latest;
    assert SnapshotValue(s, path) == ValueAt(log, root, path, s.base);
    if (root, path) in c.index {
      assert EntryOk(log, (root, path), c.index[(root, path)]);
    }
  }

  lemma RebuildKeepsEntries(log: seq<Event>, me: DeviceId, c: Client, listing: map<RootId, Listed>, after: int,
                            blocked: set<RootId>, staged: set<RootId>, replaced: set<RootId>)
    requires EntriesOk(log, c) && ListingOk(log, listing, after) && 0 <= after <= Latest(log)
    ensures EntriesOk(log, Rebuilt(c, me, listing, after, blocked, staged, replaced))
  {
    hide EntryOk, Latest, SnapshotHolds, OneAuthor, SnapshotEntry, EnsuredRoot;
    var next := Rebuilt(c, me, listing, after, blocked, staged, replaced);
    forall k | k in next.index ensures EntryOk(log, k, next.index[k]) {
      if Reloads(next.roots, listing, k.0) {
        assert ListedOk(log, k.0, listing[k.0], after);
        SnapshotEntryOk(log, c, k.0, k.1, listing[k.0].snapshot.value, k.0 in staged);
      }
    }
    forall k | k in next.index ensures k.0 in next.roots && !next.roots[k.0].state.Removed? {
      assert next.roots[k.0] == EnsuredRoot(c, k.0, listing[k.0].kind, ListedSeq(listing[k.0]), k.0 in blocked);
      EnsuredIsPresent(c, k.0, listing[k.0].kind, ListedSeq(listing[k.0]), k.0 in blocked);
    }
  }

  lemma EnsuredIsPresent(c: Client, root: RootId, kind: RootKind, snapshotSeq: int, blocked: bool)
    ensures !EnsuredRoot(c, root, kind, snapshotSeq, blocked).state.Removed?
    ensures EnsuredRoot(c, root, kind, snapshotSeq, blocked).snapshotSeq == snapshotSeq
  {}

  lemma RebuiltValue(c: Client, me: DeviceId, listing: map<RootId, Listed>, after: int, blocked: set<RootId>,
                     staged: set<RootId>, replaced: set<RootId>, root: RootId, path: PathId)
    requires root in listing && IsLive(Rebuilt(c, me, listing, after, blocked, staged, replaced), root)
    ensures IndexValue(Rebuilt(c, me, listing, after, blocked, staged, replaced), root, path) ==
            if listing[root].snapshot.Some? then SnapshotValue(listing[root].snapshot.value, path)
            else IndexValue(c, root, path)
  {
    hide EnsuredRoot;
    if listing[root].snapshot.Some? && path in listing[root].snapshot.value.entries {
      assert (root, path) in SnapshotKeys(listing);
    }
  }

  lemma SnapshotAhead(log: seq<Event>, root: RootId, path: PathId, s: Snapshot, k: int)
    requires SnapshotHolds(log, root, s) && k <= s.base <= Latest(log)
    ensures Ahead(log, root, path, SnapshotValue(s, path), k)
  {
    hide ValueAt, Latest, Digest;
    assert SnapshotValue(s, path) == ValueAt(log, root, path, s.base);
  }

  lemma CreatedEvent(log: seq<Event>, root: RootId) returns (e: Event)
    requires Increasing(log) && Incarnation(log, root).Some?
    ensures e in log && e.root == root && e.kind.RootAdd? && e.seqno == Incarnation(log, root).value
  {
    IncarnationIsInLog(log, root);
    var i :| 0 <= i < |log| && log[i].seqno == Incarnation(log, root).value && log[i].kind.RootAdd?
        && log[i].root == root;
    e := log[i];
  }

  lemma RebuiltAhead(log: seq<Event>, me: DeviceId, c: Client, listing: map<RootId, Listed>, after: int,
                     blocked: set<RootId>, staged: set<RootId>, replaced: set<RootId>, root: RootId)
    requires SoundLog(log) && ListingOk(log, listing, after)
    requires root in c.tracked ==> TrackedOk(log, me, c, root)
    requires root in Rebuilt(c, me, listing, after, blocked, staged, replaced).tracked
    ensures IndexAhead(log, Rebuilt(c, me, listing, after, blocked, staged, replaced), root)
  {
    hide Increasing, Disciplined, Ahead, Latest, IndexValue, SnapshotHolds, OneAuthor, RebuiltIndex, SnapshotValue;
    hide Incarnation;
    var next := Rebuilt(c, me, listing, after, blocked, staged, replaced);
    var l := listing[root];
    assert ListedOk(log, root, l, after);
    var k := Bound(next, root);
    forall path ensures Ahead(log, root, path, IndexValue(next, root, path), k) {
      RebuiltValue(c, me, listing, after, blocked, staged, replaced, root, path);
      if l.snapshot.Some? {
        SnapshotAhead(log, root, path, l.snapshot.value, k);
      } else if NoEntries(c, root) {
        var e := CreatedEvent(log, root);
        EmptyIndex(c, root, path);
        NothingAhead(log, e, path, k);
      } else {
        assert Ahead(log, root, path, IndexValue(c, root, path), Bound(c, root));
        LowerBound(log, root, path, IndexValue(c, root, path), Bound(c, root), k);
      }
    }
  }

  lemma RebuiltSkips(log: seq<Event>, me: DeviceId, c: Client, listing: map<RootId, Listed>, after: int,
                     blocked: set<RootId>, staged: set<RootId>, root: RootId)
    requires SoundLog(log) && ListingOk(log, listing, after) && 0 <= after <= Latest(log)
    requires root in Rebuilt(c, me, listing, after, blocked, staged, Replaced(log, listing, after)).tracked
    ensures root in Rebuilt(c, me, listing, after, blocked, staged, Replaced(log, listing, after)).roots
    ensures SkipsOk(log, me, Rebuilt(c, me, listing, after, blocked, staged, Replaced(log, listing, after)), root)
  {
    hide Increasing, Disciplined, Latest, SnapshotHolds, RebuiltIndex, Incarnation;
    var next := Rebuilt(c, me, listing, after, blocked, staged, Replaced(log, listing, after));
    var l := listing[root];
    assert ListedOk(log, root, l, after);
    EnsuredIsPresent(c, root, l.kind, ListedSeq(l), root in blocked);
    var created := CreatedEvent(log, root);
    UniqueSeq(log, created);
    forall e | e in log && ContentOn(e, root) && after < e.seqno <= next.roots[root].snapshotSeq
      ensures root in next.mine <==> e.author == me
    {
      assert !IsReplaced(log, root, l, after);
      assert l.created <= e.seqno;
      assert e.seqno != l.created;
    }
  }

  /** Right after a bootstrap every reloaded root is tracked: its index is not behind the new cursor. */
  lemma RebuildKeepsClient(log: seq<Event>, me: DeviceId, c: Client, listing: map<RootId, Listed>, after: int,
                           blocked: set<RootId>, staged: set<RootId>)
    requires SoundLog(log) && ClientOk(log, me, c) && ListingOk(log, listing, after) && 0 <= after <= Latest(log)
    ensures ClientOk(log, me, Rebuilt(c, me, listing, after, blocked, staged, Replaced(log, listing, after)))
  {
    hide Increasing, Disciplined, Latest, RebuiltIndex, IndexAhead, SkipsOk, EntriesOk, ListingOk, Replaced;
    hide EnsuredRoot;
    var next := Rebuilt(c, me, listing, after, blocked, staged, Replaced(log, listing, after));
    RebuildKeepsEntries(log, me, c, listing, after, blocked, staged, Replaced(log, listing, after));
    forall root | root in next.tracked ensures TrackedOk(log, me, next, root) {
      RebuiltAhead(log, me, c, listing, after, blocked, staged, Replaced(log, listing, after), root);
      RebuiltSkips(log, me, c, listing, after, blocked, staged, root);
    }
  }
}
