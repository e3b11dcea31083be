/** The initial upload of a root: what the uploading client knows about the log at every moment. */
module UploadProofs {
  import opened Records
  import opened EventLog
  import opened Clients
  import opened ClientProofs
  import opened ConsumeProofs
  import opened BootstrapProofs

  ghost predicate IsUpload(f: Event, me: DeviceId, a: Adding, u: Uploaded) {
    && f.seqno == u.seqno && f.root == a.root && f.path == Some(u.path) && f.author == me
    && f.base == Some(0) && IsContent(f) && Written(f) == u.value && !u.value.Gone? && a.created < u.seqno
  }

  /** The entry landed in the incarnation it was meant for. */
  ghost predicate InsideIncarnation(log: seq<Event>, a: Adding, u: Uploaded) {
    forall x | x in log && x.root == a.root && IsLifecycle(x) :: x.seqno <= a.created || u.seqno < x.seqno
  }

  /** Every uploaded entry is an accepted event of this client with base 0. */
  ghost predicate UploadedOk(log: seq<Event>, me: DeviceId, a: Adding) {
    && (forall u | u in a.entries :: exists f :: f in log && IsUpload(f, me, a, u))
    && (forall u | u in a.entries :: InsideIncarnation(log, a, u))
    && (forall i, j | 0 <= i < j < |a.entries| :: a.entries[i].seqno < a.entries[j].seqno)
  }

  ghost predicate OwnAdd(log: seq<Event>, me: DeviceId, a: Adding) {
    exists f :: f in log && f.seqno == a.created && f.kind.RootAdd? && f.root == a.root && f.author == me
  }

  /** Everything consumed from the incarnation has left its mark on the index. */
  ghost predicate Seen(log: seq<Event>, c: Client, root: RootId, created: int) {
    forall f | f in log && ContentOn(f, root) && created < f.seqno <= c.cursor && f.path.Some? ::
      (root, f.path.value) in c.index && f.seqno <= c.index[(root, f.path.value)].tag
  }

  ghost predicate PhaseOk(log: seq<Event>, c: Client, a: Adding) {
    match a.phase
    case Uploading =>
      NoEntries(c, a.root) && c.cursor < a.created && IsLive(c, a.root) && c.roots[a.root].snapshotSeq == 0
    case Reconciling =>
      Incarnation(log, a.root) == Some(a.created) && IsLive(c, a.root) ==>
        c.roots[a.root].snapshotSeq == 0 && Seen(log, c, a.root, a.created)
  }

  ghost predicate AddingOk(log: seq<Event>, me: DeviceId, c: Client) {
    c.adding.Some? ==>
      var a := c.adding.value;
      OwnAdd(log, me, a) && UploadedOk(log, me, a) && PhaseOk(log, c, a)
  }

  lemma GrowOwnAdd(log: seq<Event>, e: Event, me: DeviceId, a: Adding)
    requires OwnAdd(log, me, a)
    ensures OwnAdd(log + [e], me, a)
  {
    var f :| f in log && f.seqno == a.created && f.kind.RootAdd? && f.root == a.root && f.author == me;
    assert f in log + [e];
  }

  lemma GrowUploaded(log: seq<Event>, e: Event, me: DeviceId, a: Adding)
    requires Increasing(log) && UploadedOk(log, me, a) && Latest(log) < e.seqno
    ensures UploadedOk(log + [e], me, a)
  {
    hide InsideIncarnation, Increasing, Latest;
    forall u | u in a.entries
      ensures (exists f :: f in log + [e] && IsUpload(f, me, a, u)) && InsideIncarnation(log + [e], a, u)
    {
      var f :| f in log && IsUpload(f, me, a, u);
      assert f in log + [e];
      LatestBounds(log, f);
      GrowInside(log, e, a, u);
    }
  }

  lemma GrowInside(log: seq<Event>, e: Event, a: Adding, u: Uploaded)
    requires InsideIncarnation(log, a, u) && u.seqno < e.seqno
    ensures InsideIncarnation(log + [e], a, u)
  {}

  /** An append cannot bring an earlier incarnation back. */
  lemma GrowIncarnation(log: seq<Event>, e: Event, me: DeviceId, a: Adding)
    requires Increasing(log) && OwnAdd(log, me, a) && Latest(log) < e.seqno
    requires Incarnation(log + [e], a.root) == Some(a.created)
    ensures Incarnation(log, a.root) == Some(a.created)
  {
    hide Latest, Increasing;
    var f :| f in log && f.seqno == a.created && f.kind.RootAdd? && f.root == a.root && f.author == me;
    LatestBounds(log, f);
    assert (log + [e])[..|log|] == log;
  }

  lemma GrowKeepsAdding(log: seq<Event>, e: Event, me: DeviceId, c: Client)
    requires Increasing(log) && AddingOk(log, me, c) && Latest(log) < e.seqno && c.cursor <= Latest(log)
    ensures AddingOk(log + [e], me, c)
  {
    hide Latest, Increasing, Incarnation, OwnAdd, UploadedOk;
    if c.adding.Some? {
      var a := c.adding.value;
      GrowOwnAdd(log, e, me, a);
      GrowUploaded(log, e, me, a);
      if a.phase.Reconciling? && Incarnation(log + [e], a.root) == Some(a.created) {
        GrowIncarnation(log, e, me, a);
      }
    }
  }

  /** The incarnation's root_add is the root's last lifecycle event. */
  lemma {:induction false} IncarnationIsLast(log: seq<Event>, root: RootId, f: Event)
    requires Increasing(log) && Incarnation(log, root).Some? && f in log && f.root == root && IsLifecycle(f)
    ensures f.seqno <= Incarnation(log, root).value
    decreases |log|
  {
    var n := |log| - 1;
    var e := log[n];
    var i :| 0 <= i < |log| && log[i] == f;
    if e.root == root && e.kind.RootAdd? {
      assert i == n || log[i].seqno < log[n].seqno;
    } else {
      assert log[..n][i] == f;
      IncarnationIsLast(log[..n], root, f);
    }
  }

  /** Consuming never lowers the seq of a row of a root that stays live. */
  lemma ConsumeRaisesTags(log: seq<Event>, me: DeviceId, c: Client, e: Event, blocked: bool, k: IndexKey, s: int)
    requires k in c.index && s <= c.index[k].tag && s <= e.seqno
    requires e.root == k.0 ==> !e.kind.RootRemove?
    ensures var next := Consumed(c, me, e, blocked); k in next.index && s <= next.index[k].tag
  {}

  lemma ContentIsSeen(me: DeviceId, c: Client, e: Event, blocked: bool)
    requires IsContent(e) && e.path.Some? && IsLive(c, e.root) && c.roots[e.root].snapshotSeq < e.seqno
    ensures var next := Consumed(c, me, e, blocked);
            (e.root, e.path.value) in next.index && e.seqno <= next.index[(e.root, e.path.value)].tag
  {}

  /** e is the next event, as far as the incarnation that starts at `created` is concerned. */
  ghost predicate IsNextAbove(log: seq<Event>, cursor: int, created: int, e: Event) {
    && e in log && cursor < e.seqno
    && (forall f | f in log :: f.seqno <= cursor || e.seqno <= f.seqno || f.seqno < created)
  }

  lemma ConsumeKeepsSeen(log: seq<Event>, me: DeviceId, c: Client, e: Event, blocked: bool, root: RootId, created: int)
    requires Increasing(log) && Incarnation(log, root) == Some(created) && 1 <= created && 1 <= e.seqno
    requires IsNextAbove(log, c.cursor, created, e)
    requires IsLive(c, root) ==> c.roots[root].snapshotSeq == 0 && Seen(log, c, root, created)
    requires IsLive(Consumed(c, me, e, blocked), root)
    ensures Consumed(c, me, e, blocked).roots[root].snapshotSeq == 0
    ensures Seen(log, Consumed(c, me, e, blocked), root, created)
  {
    hide Increasing, Incarnation, Consumed;
    var next := Consumed(c, me, e, blocked);
    UniqueSeq(log, e);
    NextCursor(c, me, e, blocked);
    if e.root == root && IsLifecycle(e) {
      IncarnationIsLast(log, root, e);
      AddLeavesRow(c, me, e, blocked);
      assert next.cursor <= created;
    } else {
      assert root !in c.roots || next.roots[root] == c.roots[root] by { ForeignLeavesRow(c, me, e, blocked, root); }
      assert IsLive(c, root) by { ForeignLeavesRow(c, me, e, blocked, root); }
      forall f | f in log && ContentOn(f, root) && created < f.seqno <= next.cursor && f.path.Some?
        ensures (root, f.path.value) in next.index && f.seqno <= next.index[(root, f.path.value)].tag
      {
        if f == e {
          ContentIsSeen(me, c, e, blocked);
        } else {
          ConsumeRaisesTags(log, me, c, e, blocked, (root, f.path.value), f.seqno);
        }
      }
    }
  }

  lemma AddLeavesRow(c: Client, me: DeviceId, e: Event, blocked: bool)
    requires IsLifecycle(e) && IsLive(Consumed(c, me, e, blocked), e.root)
    requires IsLive(c, e.root) ==> c.roots[e.root].snapshotSeq == 0
    ensures Consumed(c, me, e, blocked).roots[e.root].snapshotSeq == 0
  {}

  lemma ForeignLeavesRow(c: Client, me: DeviceId, e: Event, blocked: bool, root: RootId)
    requires e.root != root || !IsLifecycle(e)
    ensures IsLive(Consumed(c, me, e, blocked), root) <==> IsLive(c, root)
    ensures root in c.roots ==>
            root in Consumed(c, me, e, blocked).roots && Consumed(c, me, e, blocked).roots[root] == c.roots[root]
  {}

  lemma ConsumeKeepsAddingField(c: Client, me: DeviceId, e: Event, blocked: bool)
    ensures Consumed(c, me, e, blocked).adding == c.adding
  {}

  lemma ConsumeKeepsAdding(log: seq<Event>, me: DeviceId, c: Client, e: Event, blocked: bool)
    requires Increasing(log) && AddingOk(log, me, c) && 1 <= e.seqno
    requires e in log && c.cursor < e.seqno
    requires c.adding.Some? ==> c.adding.value.phase.Reconciling? && 1 <= c.adding.value.created
    requires c.adding.Some? && Incarnation(log, c.adding.value.root) == Some(c.adding.value.created) ==>
               IsNextAbove(log, c.cursor, c.adding.value.created, e)
    ensures AddingOk(log, me, Consumed(c, me, e, blocked))
  {
    hide Increasing, Incarnation, OwnAdd, UploadedOk, Seen, Consumed;
    ConsumeKeepsAddingField(c, me, e, blocked);
    if c.adding.Some? {
      var a := c.adding.value;
      if Incarnation(log, a.root) == Some(a.created) && IsLive(Consumed(c, me, e, blocked), a.root) {
        ConsumeKeepsSeen(log, me, c, e, blocked, a.root, a.created);
      }
    }
  }

  lemma RebuildKeepsAdding(log: seq<Event>, me: DeviceId, c: Client, listing: map<RootId, Listed>, after: int,
                           blocked: set<RootId>, staged: set<RootId>, replaced: set<RootId>)
    requires AddingOk(log, me, c) && ListingOk(log, listing, after)
    requires c.adding.Some? ==> c.adding.value.phase.Reconciling?
    requires c.adding.Some? && c.adding.value.root in listing
             && Incarnation(log, c.adding.value.root) == Some(c.adding.value.created) ==>
               listing[c.adding.value.root].snapshot.None?
    ensures AddingOk(log, me, Rebuilt(c, me, listing, after, blocked, staged, replaced))
  {
    hide Increasing, Incarnation, OwnAdd, UploadedOk, RebuiltIndex, EnsuredRoot;
    if c.adding.Some? {
      var a := c.adding.value;
      var next := Rebuilt(c, me, listing, after, blocked, staged, replaced);
      if Incarnation(log, a.root) == Some(a.created) && IsLive(next, a.root) {
        assert ListedOk(log, a.root, listing[a.root], after);
        EnsuredIsPresent(c, a.root, listing[a.root].kind, ListedSeq(listing[a.root]), a.root in blocked);
      }
    }
  }

  /** Starting an upload: the root is live and empty, its root_add just accepted. */
  function Started(c: Client, root: RootId, kind: RootKind, created: int): Client {
    c.(roots := c.roots[root := LocalRoot(kind, Active, 0)],
       adding := Some(Adding(root, created, [], Uploading)),
       tracked := c.tracked + {root}, mine := c.mine - {root})
  }

  lemma StartKeepsClient(log: seq<Event>, me: DeviceId, c: Client, e: Event, kind: RootKind)
    requires SoundLog(log) && ClientOk(log, me, c) && e in log && e.kind.RootAdd? && e.author == me && 1 <= e.seqno
    requires c.cursor < e.seqno
    requires e.root in c.roots ==> c.roots[e.root].state.Removed?
    ensures ClientOk(log, me, Started(c, e.root, kind, e.seqno))
    ensures AddingOk(log, me, Started(c, e.root, kind, e.seqno))
  {
    hide Increasing, Disciplined, Latest, EntryOk, Ahead;
    var root, next := e.root, Started(c, e.root, kind, e.seqno);
    LatestBounds(log, e);
    assert NoEntries(c, root);
    forall r | r in next.tracked ensures TrackedOk(log, me, next, r) {
      if r == root {
        forall path ensures Ahead(log, root, path, IndexValue(next, root, path), Bound(next, root)) {
          NothingAhead(log, e, path, Bound(next, root));
        }
      } else {
        assert TrackedOk(log, me, c, r);
        SameIndexAhead(log, c, next, r);
      }
    }
  }

  lemma SameIndexAhead(log: seq<Event>, c: Client, next: Client, root: RootId)
    requires IndexAhead(log, c, root) && Bound(next, root) == Bound(c, root)
    requires forall path :: IndexValue(next, root, path) == IndexValue(c, root, path)
    ensures IndexAhead(log, next, root)
  {
    hide Ahead, IndexValue, Bound;
    forall path ensures Ahead(log, root, path, IndexValue(next, root, path), Bound(next, root)) {
      assert Ahead(log, root, path, IndexValue(c, root, path), Bound(c, root));
    }
  }

  /** One more entry was accepted. */
  lemma UploadKeepsAdding(log: seq<Event>, me: DeviceId, c: Client, f: Event, u: Uploaded)
    requires AddingOk(log, me, c) && c.adding.Some? && f in log && IsUpload(f, me, c.adding.value, u)
    requires InsideIncarnation(log, c.adding.value, u)
    requires forall i | 0 <= i < |c.adding.value.entries| :: c.adding.value.entries[i].seqno < u.seqno
    ensures var a := c.adding.value;
            AddingOk(log, me, c.(adding := Some(a.(entries := a.entries + [u]))))
  {
    hide Incarnation, Seen;
    var a := c.adding.value;
    var b := a.(entries := a.entries + [u]);
    forall v | v in b.entries ensures (exists g :: g in log && IsUpload(g, me, b, v)) && InsideIncarnation(log, b, v) {
      if v == u {
        assert IsUpload(f, me, b, u);
      } else {
        var g :| g in log && IsUpload(g, me, a, v);
        assert IsUpload(g, me, b, v);
        assert InsideIncarnation(log, a, v);
      }
    }
    assert UploadedOk(log, me, b);
    assert PhaseOk(log, c.(adding := Some(b)), b) by { hide UploadedOk,
           OwnAdd; assert PhaseOk(log, c, a); SamePhase(log, c, a, b); }
    assert OwnAdd(log, me, b) by { SameAdd(log, me, a, b); }
  }

  lemma SamePhase(log: seq<Event>, c: Client, a: Adding, b: Adding)
    requires PhaseOk(log, c, a) && b.created == a.created && b.root == a.root && b.phase == a.phase
    ensures PhaseOk(log, c.(adding := Some(b)), b)
  {}

  lemma SameAdd(log: seq<Event>, me: DeviceId, a: Adding, b: Adding)
    requires OwnAdd(log, me, a) && b.created == a.created && b.root == a.root
    ensures OwnAdd(log, me, b)
  {}

  /** A row the upload wrote comes from one of its entries; other roots' rows are untouched. */
  lemma {:induction false} UploadedRow(index: map<IndexKey, Entry>, root: RootId, entries: seq<Uploaded>, k: IndexKey)
    requires k in UploadedIndex(index, root, entries)
    ensures k.0 != root ==> k in index && UploadedIndex(index, root, entries)[k] == index[k]
    ensures k.0 == root ==> exists i :: 0 <= i < |entries| && entries[i].path == k.1
                                        && UploadedIndex(index, root, entries)[k] ==
                                            Entry(entries[i].value, entries[i].seqno)
    decreases |entries|
  {
    if entries != [] {
      var n := |entries| - 1;
      if k == (root, entries[n].path) {
      } else {
        UploadedRow(index, root, entries[..n], k);
        if k.0 == root {
          var i :| 0 <= i < n && entries[..n][i].path == k.1
                   && UploadedIndex(index, root, entries[..n])[k] ==
                       Entry(entries[..n][i].value, entries[..n][i].seqno);
          assert entries[i] == entries[..n][i];
        }
      }
    }
  }

  lemma {:induction false} OtherRowsStay(index: map<IndexKey, Entry>, root: RootId, entries: seq<Uploaded>, k: IndexKey)
    requires k.0 != root
    ensures k in UploadedIndex(index, root, entries) <==> k in index
    ensures k in index ==> UploadedIndex(index, root, entries)[k] == index[k]
    decreases |entries|
  {
    if entries != [] {
      OtherRowsStay(index, root, entries[..|entries| - 1], k);
    }
  }

  /** Writing the collected rows into the index. */
  function Collected(c: Client, a: Adding): Client {
    c.(index := UploadedIndex(c.index, a.root, a.entries))
  }

  lemma UploadedEntryOk(log: seq<Event>, me: DeviceId, a: Adding, u: Uploaded)
    requires Increasing(log) && UploadedOk(log, me, a) && u in a.entries && 1 <= a.created
    ensures EntryOk(log, (a.root, u.path), Entry(u.value, u.seqno)) && a.created < u.seqno
  {
    hide Increasing, Latest, EntryOk;
    var f :| f in log && IsUpload(f, me, a, u);
    OwnSeqEntryOk(log, f);
  }

  lemma CollectKeepsEntries(log: seq<Event>, me: DeviceId, c: Client)
    requires Increasing(log) && EntriesOk(log, c) && AddingOk(log, me, c)
    requires c.adding.Some? && c.adding.value.phase.Uploading? && 1 <= c.adding.value.created
    ensures EntriesOk(log, Collected(c, c.adding.value))
  {
    hide Increasing, Latest, EntryOk, UploadedOk, OwnAdd, UploadedIndex;
    var a := c.adding.value;
    var next := Collected(c, a);
    forall k | k in next.index ensures EntryOk(log, k, next.index[k]) && k.0 in next.roots
        && !next.roots[k.0].state.Removed? {
      UploadedRow(c.index, a.root, a.entries, k);
      if k.0 == a.root {
        var i :| 0 <= i < |a.entries| && a.entries[i].path == k.1
            && next.index[k] == Entry(a.entries[i].value, a.entries[i].seqno);
        UploadedEntryOk(log, me, a, a.entries[i]);
      }
    }
  }

  lemma CollectedAhead(log: seq<Event>, me: DeviceId, c: Client)
    requires SoundLog(log) && EntriesOk(log, c) && AddingOk(log, me, c)
    requires c.adding.Some? && c.adding.value.phase.Uploading? && 1 <= c.adding.value.created
    ensures IndexAhead(log, Collected(c, c.adding.value), c.adding.value.root)
  {
    hide Increasing, Disciplined, Latest, EntryOk, UploadedOk, UploadedIndex, Ahead;
    var a := c.adding.value;
    var root, next := a.root, Collected(c, a);
    CollectKeepsEntries(log, me, c);
    var e :| e in log && e.seqno == a.created && e.kind.RootAdd? && e.root == a.root && e.author == me;
    forall path ensures Ahead(log, root, path, IndexValue(next, root, path), Bound(next, root)) {
      if (root, path) in next.index {
        UploadedRow(c.index, root, a.entries, (root, path));
        var i :| 0 <= i < |a.entries| && a.entries[i].path == path
            && next.index[(root, path)] == Entry(a.entries[i].value, a.entries[i].seqno);
        UploadedEntryOk(log, me, a, a.entries[i]);
        EntryAhead(log, next, root, path, Bound(next, root));
      } else {
        NothingAhead(log, e, path, Bound(next, root));
      }
    }
  }

  lemma CollectKeepsClient(log: seq<Event>, me: DeviceId, c: Client)
    requires SoundLog(log) && ClientOk(log, me, c) && AddingOk(log, me, c)
    requires c.adding.Some? && c.adding.value.phase.Uploading? && 1 <= c.adding.value.created
    ensures ClientOk(log, me, Collected(c, c.adding.value))
  {
    hide Increasing, Disciplined, Latest, EntriesOk, UploadedOk, OwnAdd, UploadedIndex, IndexAhead;
    var a := c.adding.value;
    var next := Collected(c, a);
    CollectKeepsEntries(log, me, c);
    forall r | r in next.tracked ensures TrackedOk(log, me, next, r) {
      assert TrackedOk(log, me, c, r);
      if r == a.root {
        CollectedAhead(log, me, c);
      } else {
        forall path ensures IndexValue(next, r, path) == IndexValue(c, r, path) {
          OtherRowsStay(c.index, a.root, a.entries, (r, path));
        }
        SameIndexAhead(log, c, next, r);
      }
    }
  }

  /** Once the rows are in place nothing of the incarnation has been consumed yet. */
  lemma CollectKeepsAdding(log: seq<Event>, me: DeviceId, c: Client)
    requires AddingOk(log, me, c) && c.adding.Some? && c.adding.value.phase.Uploading?
    ensures var a := c.adding.value;
            AddingOk(log, me, Collected(c, a).(adding := Some(a.(phase := Reconciling))))
  {
    hide Incarnation, UploadedIndex;
    var a := c.adding.value;
    var b := a.(phase := Reconciling);
    SameAdd(log, me, a, b);
    forall u | u in b.entries ensures (exists f :: f in log && IsUpload(f, me, b, u)) && InsideIncarnation(log, b, u) {
      var f :| f in log && IsUpload(f, me, a, u);
      assert IsUpload(f, me, b, u);
      assert InsideIncarnation(log, a, u);
    }
  }
}
