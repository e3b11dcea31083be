/**
  The loops of a bootstrap: one over the listed roots, whose entries a snapshot replaces, and one over
  the local roots that are not listed. Together they compute what `Rebuilt` says.
*/
module BootstrapLoop {
  import opened Records
  import opened Clients
  import opened Follower

  function RowUnder(index: map<IndexKey, Entry>, k: IndexKey): Option<Entry> {
    if k in index then Some(index[k]) else None
  }

  function ListedRoot(c: Client, listing: map<RootId, Listed>, occupied: set<RootId>, r: RootId): LocalRoot
    requires r in listing
  {
    EnsuredRoot(c, r, listing[r].kind, ListedSeq(listing[r]), r in occupied)
  }

  /** The row a listed root's snapshot leaves at a key, if the root is live and has one. */
  function LoadedRow(c: Client, listing: map<RootId, Listed>, occupied: set<RootId>, staged: set<RootId>,
                     k: IndexKey): Option<Entry>
    requires k.0 in listing
  {
    if listing[k.0].snapshot.Some? && ListedRoot(c, listing, occupied, k.0).state.Active? then
      var s := listing[k.0].snapshot.value;
      if k.1 in s.entries then Some(SnapshotEntry(c, k.0, k.1, s.entries[k.1], s.base, k.0 in staged)) else None
    else RowUnder(c.index, k)
  }

  /** The entries loop of a snapshot: a row it does not change keeps its seq, unless the root is staged. */
  method SnapshotRows(index: map<IndexKey, Entry>, root: RootId, s: Snapshot, staged: bool)
    returns (rows: map<PathId, Entry>)
    ensures rows.Keys == s.entries.Keys
    ensures forall c: Client, p | c.index == index && p in rows ::
            rows[p] == SnapshotEntry(c, root, p, s.entries[p], s.base, staged)
  {
    rows := map[];
    var rest := s.entries.Keys;
    while rest != {}
      invariant rest <= s.entries.Keys && rows.Keys == s.entries.Keys - rest
      invariant forall c: Client, p | c.index == index && p in rows ::
                rows[p] == SnapshotEntry(c, root, p, s.entries[p], s.base, staged)
      decreases |rest|
    {
      var p := AnyOf(rest);
      var value := s.entries[p];
      var seqno := s.base;
      if !staged && (root, p) in index {
        var prior := index[(root, p)];
        match value
        case Gone =>
        case Dir(_, _) => if prior.value == value { seqno := prior.tag; }
        case File(hash, _, _, _) => if prior.value.File? && prior.value.hash == hash { seqno := prior.tag; }
      }
      rows := rows[p := Entry(value, seqno)];
      rest := rest - {p};
    }
  }

  method ReplaceEntries(d: Daemon, root: RootId, rows: map<PathId, Entry>)
    modifies d`index
    ensures forall k :: RowUnder(d.index, k) == if k.0 == root then (if k.1 in rows then Some(rows[k.1]) else None)
            else RowUnder(old(d.index), k)
  {
    var kept := map k | k in d.index && k.0 != root :: d.index[k];
    var loaded := map k | k in (set p | p in rows :: (root, p)) :: rows[k.1];
    d.index := kept + loaded;
  }

  /** What is left of a root's rows when its turn comes is what there was before the bootstrap. */
  method LoadListed(d: Daemon, r: RootId, l: Listed, occupied: bool, staged: bool)
    modifies d`roots, d`index
    ensures d.roots == old(d.roots)[r := EnsuredRoot(old(d.State()), r, l.kind, ListedSeq(l), occupied)]
    ensures forall k: IndexKey | k.0 != r :: RowUnder(d.index, k) == RowUnder(old(d.index), k)
    ensures forall k: IndexKey | k.0 == r :: RowUnder(d.index, k) ==
              if l.snapshot.Some? && d.roots[r].state.Active? then
                (if k.1 in l.snapshot.value.entries
                 then Some(SnapshotEntry(old(d.State()), r, k.1, l.snapshot.value.entries[k.1], l.snapshot.value.base,
                     staged))
                 else None)
              else RowUnder(old(d.index), k)
  {
    hide EnsuredRoot, SnapshotEntry;
    d.EnsureRoot(r, l.kind, ListedSeq(l), occupied);
    if l.snapshot.Some? && d.roots[r].state.Active? {
      var rows := SnapshotRows(d.index, r, l.snapshot.value, staged);
      ReplaceEntries(d, r, rows);
      assert forall p | p in rows :: rows[p] == SnapshotEntry(old(d.State()), r, p, l.snapshot.value.entries[p],
             l.snapshot.value.base, staged);
    }
  }

  /** The other parts of a client do not matter to a listed root that has not had its turn yet. */
  lemma UntouchedRoot(c: Client, now: Client, listing: map<RootId, Listed>, occupied: set<RootId>,
                      staged: set<RootId>, r: RootId)
    requires r in listing
    requires r in now.roots <==> r in c.roots
    requires r in c.roots ==> now.roots[r] == c.roots[r]
    requires forall k: IndexKey | k.0 == r :: RowUnder(now.index, k) == RowUnder(c.index, k)
    ensures ListedRoot(now, listing, occupied, r) == ListedRoot(c, listing, occupied, r)
    ensures forall k: IndexKey | k.0 == r ::
            LoadedRow(now, listing, occupied, staged, k) == LoadedRow(c, listing, occupied, staged, k)
  {
    forall k: IndexKey | k.0 == r ensures LoadedRow(now, listing, occupied, staged, k) ==
        LoadedRow(c, listing, occupied, staged, k) {
      assert RowUnder(now.index, k) == RowUnder(c.index, k);
    }
  }

  /** The listed roots in `done` are loaded, and nothing else has changed since c. */
  ghost predicate Loaded(c: Client, now: Client, listing: map<RootId, Listed>, occupied: set<RootId>,
                         staged: set<RootId>, done: set<RootId>) {
    && done <= listing.Keys && now.roots.Keys == c.roots.Keys + done
    && (forall r | r in done :: now.roots[r] == ListedRoot(c, listing, occupied, r))
    && (forall r | r in c.roots && r !in done :: now.roots[r] == c.roots[r])
    && (forall k: IndexKey | k.0 in done :: RowUnder(now.index, k) == LoadedRow(c, listing, occupied, staged, k))
    && (forall k: IndexKey | k.0 !in done :: RowUnder(now.index, k) == RowUnder(c.index, k))
  }

  lemma NothingLoaded(c: Client, listing: map<RootId, Listed>, occupied: set<RootId>, staged: set<RootId>)
    ensures Loaded(c, c, listing, occupied, staged, {})
  {}

  /** One more listed root has had its turn. */
  lemma LoadedNext(c: Client, now: Client, next: Client, listing: map<RootId, Listed>, occupied: set<RootId>,
                   staged: set<RootId>, done: set<RootId>, r: RootId)
    requires Loaded(c, now, listing, occupied, staged, done) && r in listing && r !in done
    requires next.roots.Keys == now.roots.Keys + {r} && next.roots[r] == ListedRoot(now, listing, occupied, r)
    requires forall q | q in now.roots && q != r :: next.roots[q] == now.roots[q]
    requires forall k: IndexKey | k.0 == r :: RowUnder(next.index, k) == LoadedRow(now, listing, occupied, staged, k)
    requires forall k: IndexKey | k.0 != r :: RowUnder(next.index, k) == RowUnder(now.index, k)
    ensures Loaded(c, next, listing, occupied, staged, done + {r})
  {
    hide ListedRoot, LoadedRow, RowUnder;
    UntouchedRoot(c, now, listing, occupied, staged, r);
    forall k: IndexKey | k.0 in done + {r} ensures RowUnder(next.index, k) ==
        LoadedRow(c, listing, occupied, staged, k) {
      if k.0 == r { assert LoadedRow(now, listing, occupied, staged, k) == LoadedRow(c, listing, occupied, staged, k); }
    }
  }

  method LoadAll(d: Daemon, listing: map<RootId, Listed>, order: seq<RootId>, occupied: set<RootId>,
                 staged: set<RootId>)
    requires (set r | r in order) == listing.Keys
    requires forall i, j | 0 <= i < j < |order| :: order[i] != order[j]
    modifies d`roots, d`index
    ensures Loaded(old(d.State()), d.State(), listing, occupied, staged, listing.Keys)
  {
    hide Loaded, ListedRoot, LoadedRow, RowUnder, EnsuredRoot;
    ghost var c := d.State();
    ghost var done: set<RootId> := {};
    NothingLoaded(c, listing, occupied, staged);
    for i := 0 to |order|
      invariant done == set r | r in order[..i]
      invariant Loaded(c, d.State(), listing, occupied, staged, done)
    {
      var r := order[i];
      assert r in set x | x in order;
      ghost var now := d.State();
      LoadListed(d, r, listing[r], r in occupied, r in staged);
      LoadedIsListed(now, d.roots[r], listing, occupied, staged, r, d.index);
      LoadedNext(c, now, d.State(), listing, occupied, staged, done, r);
      done := done + {r};
    }
    assert order[..|order|] == order;
  }

  lemma LoadedIsListed(now: Client, root: LocalRoot, listing: map<RootId, Listed>, occupied: set<RootId>,
                       staged: set<RootId>, r: RootId, index: map<IndexKey, Entry>)
    requires r in listing
    requires root == EnsuredRoot(now, r, listing[r].kind, ListedSeq(listing[r]), r in occupied)
    requires forall k: IndexKey | k.0 == r :: RowUnder(index, k) ==
               if listing[r].snapshot.Some? && root.state.Active? then
                 (if k.1 in listing[r].snapshot.value.entries
                  then Some(SnapshotEntry(now, r, k.1, listing[r].snapshot.value.entries[k.1],
                      listing[r].snapshot.value.base, r in staged))
                  else None)
               else RowUnder(now.index, k)
    ensures root == ListedRoot(now, listing, occupied, r)
    ensures forall k: IndexKey | k.0 == r :: RowUnder(index, k) == LoadedRow(now, listing, occupied, staged, k)
  {
    hide EnsuredRoot, SnapshotEntry;
  }

  lemma RemovedRows(c: Client, root: RootId)
    requires root in c.roots
    ensures var next := MarkedRemoved(c, root);
            && next.cursor == c.cursor && next.adding == c.adding
            && next.roots == c.roots[root := c.roots[root].(state := Removed)]
            && forall k: IndexKey :: RowUnder(next.index, k) == if k.0 == root then None else RowUnder(c.index, k)
  {}

  /** Local roots that the server does not list are removed with their rows. */
  method RemoveUnlisted(d: Daemon, listing: map<RootId, Listed>)
    requires forall k | k in d.index :: k.0 in d.roots && (k.0 !in listing ==> !d.roots[k.0].state.Removed?)
    modifies d
    ensures d.cursor == old(d.cursor) && d.adding == old(d.adding)
    ensures d.roots.Keys == old(d.roots).Keys
    ensures forall r | r in d.roots :: d.roots[r] == if r in listing then old(d.roots)[r]
            else old(d.roots)[r].(state := Removed)
    ensures forall k: IndexKey :: RowUnder(d.index, k) == if k.0 in listing then RowUnder(old(d.index), k) else None
  {
    hide MarkedRemoved;
    ghost var roots, index := d.roots, d.index;
    var rest := d.roots.Keys;
    while rest != {}
      invariant rest <= roots.Keys && d.roots.Keys == roots.Keys
      invariant d.cursor == old(d.cursor) && d.adding == old(d.adding)
      invariant forall r | r in roots :: d.roots[r] == if r in listing || r in rest then roots[r]
                else roots[r].(state := Removed)
      invariant forall k: IndexKey :: RowUnder(d.index, k) == if k.0 in listing || k.0 in rest then RowUnder(index, k)
                else None
      decreases |rest|
    {
      var r := AnyOf(rest);
      if !d.roots[r].state.Removed? && r !in listing {
        RemovedRows(d.State(), r);
        d.MarkRootRemoved(r);
      }
      rest := rest - {r};
    }
  }

  lemma UnlistedRows(c: Client, loaded: Client, listing: map<RootId, Listed>, occupied: set<RootId>,
                     staged: set<RootId>)
    requires Loaded(c, loaded, listing, occupied, staged, listing.Keys)
    requires forall k | k in c.index :: k.0 in c.roots && !c.roots[k.0].state.Removed?
    ensures forall k | k in loaded.index ::
            k.0 in loaded.roots && (k.0 !in listing ==> !loaded.roots[k.0].state.Removed?)
  {
    hide ListedRoot, LoadedRow;
    forall k | k in loaded.index && k.0 !in listing ensures k in c.index {
      assert RowUnder(loaded.index, k) == RowUnder(c.index, k);
    }
  }

  lemma RebuiltFromLoops(c: Client, loaded: Client, listing: map<RootId, Listed>, occupied: set<RootId>,
                         staged: set<RootId>, roots: map<RootId, LocalRoot>, index: map<IndexKey, Entry>)
    requires Loaded(c, loaded, listing, occupied, staged, listing.Keys)
    requires roots.Keys == loaded.roots.Keys
    requires forall r | r in roots :: roots[r] == if r in listing then loaded.roots[r]
             else loaded.roots[r].(state := Removed)
    requires forall k: IndexKey :: RowUnder(index, k) == if k.0 in listing then RowUnder(loaded.index, k) else None
    ensures roots == RebuiltRoots(c, listing, occupied)
    ensures index == RebuiltIndex(c, roots, listing, staged)
  {
    hide EnsuredRoot, SnapshotEntry;
    assert roots == RebuiltRoots(c, listing, occupied) by {
      RootsFromLoops(c, loaded, listing, occupied, staged, roots);
    }
    hide RebuiltRoots, LoadedRow, ListedRoot;
    var rebuilt := RebuiltIndex(c, roots, listing, staged);
    forall k: IndexKey ensures RowUnder(index, k) == RowUnder(rebuilt, k) {
      if k.0 in listing {
        RebuiltRow(c, roots, listing, occupied, staged, k);
      }
    }
    SameRows(index, rebuilt);
  }

  lemma RootsFromLoops(c: Client, loaded: Client, listing: map<RootId, Listed>, occupied: set<RootId>,
                       staged: set<RootId>, roots: map<RootId, LocalRoot>)
    requires Loaded(c, loaded, listing, occupied, staged, listing.Keys) && roots.Keys == loaded.roots.Keys
    requires forall r | r in roots :: roots[r] == if r in listing then loaded.roots[r]
             else loaded.roots[r].(state := Removed)
    ensures roots == RebuiltRoots(c, listing, occupied)
  {
    hide EnsuredRoot, LoadedRow, RowUnder;
  }

  lemma RebuiltRow(c: Client, roots: map<RootId, LocalRoot>, listing: map<RootId, Listed>, occupied: set<RootId>,
                   staged: set<RootId>, k: IndexKey)
    requires k.0 in listing && k.0 in roots && roots[k.0] == ListedRoot(c, listing, occupied, k.0)
    ensures RowUnder(RebuiltIndex(c, roots, listing, staged), k) == LoadedRow(c, listing, occupied, staged, k)
  {
    hide EnsuredRoot, SnapshotEntry;
    if listing[k.0].snapshot.Some? && k.1 in listing[k.0].snapshot.value.entries {
      assert k in SnapshotKeys(listing);
    }
  }

  lemma SameRows(a: map<IndexKey, Entry>, b: map<IndexKey, Entry>)
    requires forall k :: RowUnder(a, k) == RowUnder(b, k)
    ensures a == b
  {
    forall k ensures (k in a <==> k in b) && (k in a ==> a[k] == b[k]) {
      assert RowUnder(a, k) == RowUnder(b, k);
    }
  }

  /** A bootstrap up to the point where catch-up takes over. */
  method Bootstrap(d: Daemon, listing: map<RootId, Listed>, order: seq<RootId>, after: int, occupied: set<RootId>,
                   staged: set<RootId>, ghost replaced: set<RootId>)
    requires (set r | r in order) == listing.Keys
    requires forall i, j | 0 <= i < j < |order| :: order[i] != order[j]
    requires forall k | k in d.index :: k.0 in d.roots && !d.roots[k.0].state.Removed?
    modifies d
    ensures d.State() == Rebuilt(old(d.State()), d.me, listing, after, occupied, staged, replaced)
  {
    hide ListedRoot, LoadedRow, RebuiltRoots, RebuiltIndex, Loaded;
    ghost var c := d.State();
    LoadAll(d, listing, order, occupied, staged);
    ghost var loaded := d.State();
    UnlistedRows(c, loaded, listing, occupied, staged);
    RemoveUnlisted(d, listing);
    RebuiltFromLoops(c, loaded, listing, occupied, staged, d.roots, d.index);
    d.cursor := after;
    ghost var next := Rebuilt(c, d.me, listing, after, occupied, staged, replaced);
    d.tracked, d.mine := next.tracked, next.mine;
  }
}
