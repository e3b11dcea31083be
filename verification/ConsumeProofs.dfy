/** Consuming the log one event at a time keeps what a client knows about it. */
module ConsumeProofs {
  import opened Records
  import opened EventLog
  import opened Clients
  import opened ClientProofs

  /** e is the first event of the log above the cursor. */
  ghost predicate IsNext(log: seq<Event>, cursor: int, e: Event) {
    && e in log && cursor < e.seqno
    && (forall f | f in log :: f.seqno <= cursor || e.seqno <= f.seqno)
  }

  ghost predicate SoundLog(log: seq<Event>) {
    Increasing(log) && Disciplined(log)
  }

  lemma DisciplinedEvent(log: seq<Event>, e: Event)
    requires Disciplined(log) && e in log
    ensures IsContent(e) || IsLifecycle(e)
    ensures IsContent(e) ==> e.path.Some?
  {
    hide Incarnation;
    var i :| 0 <= i < |log| && log[i] == e;
  }

  /** The row an event leaves behind is true of the log at the event's own seq. */
  lemma OwnSeqEntryOk(log: seq<Event>, e: Event)
    requires Increasing(log) && e in log && IsContent(e) && e.path.Some? && 1 <= e.seqno
    ensures EntryOk(log, (e.root, e.path.value), Entry(Written(e), e.seqno))
    ensures ValueAt(log, e.root, e.path.value, e.seqno) == Written(e)
  {
    hide HeadAt, Increasing, Latest;
    ValueAtOwnSeq(log, e);
    LatestBounds(log, e);
  }

  lemma OwnSeqAhead(log: seq<Event>, e: Event, k: int)
    requires Increasing(log) && e in log && IsContent(e) && e.path.Some? && k <= e.seqno
    ensures Ahead(log, e.root, e.path.value, Written(e), k)
  {
    hide HeadAt, Increasing, Latest;
    ValueAtOwnSeq(log, e);
    LatestBounds(log, e);
    assert Digest(ValueAt(log, e.root, e.path.value, e.seqno)) == Digest(Written(e));
  }

  lemma EntryAhead(log: seq<Event>, c: Client, root: RootId, path: PathId, k: int)
    requires EntriesOk(log, c) && (root, path) in c.index && k <= c.index[(root, path)].tag
    ensures Ahead(log, root, path, IndexValue(c, root, path), k)
  {
    hide ValueAt, Digest, Latest;
    assert EntryOk(log, (root, path), c.index[(root, path)]);
  }

  lemma ConsumeKeepsEntries(log: seq<Event>, me: DeviceId, c: Client, e: Event, blocked: bool)
    requires SoundLog(log) && EntriesOk(log, c)
    requires e in log && c.cursor < e.seqno && 1 <= e.seqno
    ensures EntriesOk(log, Consumed(c, me, e, blocked))
  {
    hide EntryOk, Increasing, Disciplined, Latest;
    var next := Consumed(c, me, e, blocked);
    LatestBounds(log, e);
    DisciplinedEvent(log, e);
    forall k | k in next.index ensures EntryOk(log, k, next.index[k]) {
      if IsContent(e) && k == (e.root, e.path.value) {
        OwnSeqEntryOk(log, e);
      }
    }
  }

  /** Moving the bound over events that do not concern the path. */
  lemma AheadOver(log: seq<Event>, c: Client, root: RootId, path: PathId, k: int, k': int)
    requires Increasing(log) && k' <= Latest(log)
    requires Ahead(log, root, path, IndexValue(c, root, path), k)
    requires k <= k' ==> Quiet(log, root, path, k, k')
    ensures Ahead(log, root, path, IndexValue(c, root, path), k')
  {
    hide ValueAt, Digest, Latest, Increasing;
    if k <= k' {
      QuietAhead(log, root, path, IndexValue(c, root, path), k, k');
    }
  }

  /** The root's own part of the client, which events on other roots leave alone. */
  ghost predicate SameRoot(c: Client, next: Client, root: RootId) {
    && root in c.roots && root in next.roots && next.roots[root] == c.roots[root]
    && (root in next.mine <==> root in c.mine)
    && (forall path :: IndexValue(next, root, path) == IndexValue(c, root, path))
  }

  /** An event elsewhere, or a skipped own one, leaves a tracked root tracked. */
  lemma PassedOver(log: seq<Event>, me: DeviceId, c: Client, next: Client, e: Event, root: RootId)
    requires SoundLog(log) && TrackedOk(log, me, c, root) && IsNext(log, c.cursor, e)
    requires SameRoot(c, next, root) && next.cursor == e.seqno
    requires e.root != root
    ensures TrackedOk(log, me, next, root)
  {
    hide Ahead, Disciplined, Increasing, Latest, IndexValue;
    LatestBounds(log, e);
    UniqueSeq(log, e);
    var k, k' := Bound(c, root), Bound(next, root);
    forall path ensures Ahead(log, root, path, IndexValue(next, root, path), k') {
      assert Ahead(log, root, path, IndexValue(c, root, path), k);
      assert k <= k' ==> Quiet(log, root, path, k, k') by { QuietElsewhere(log, c.cursor, e, root, path, k, k'); }
      AheadOver(log, c, root, path, k, k');
    }
  }

  lemma QuietElsewhere(log: seq<Event>, cursor: int, e: Event, root: RootId, path: PathId, k: int, k': int)
    requires IsNext(log, cursor, e) && cursor <= k && (k' <= k || k' == e.seqno)
    requires e.root != root || (IsContent(e) && !IsLifecycle(e) && e.path != Some(path))
    requires forall f | f in log && f.seqno == e.seqno :: f == e
    ensures Quiet(log, root, path, k, k')
  {}

  lemma UniqueSeq(log: seq<Event>, e: Event)
    requires Increasing(log) && e in log
    ensures forall f | f in log && f.seqno == e.seqno :: f == e
  {
    var i :| 0 <= i < |log| && log[i] == e;
    forall f | f in log && f.seqno == e.seqno ensures f == e {
      var j :| 0 <= j < |log| && log[j] == f;
      assert !(i < j) && !(j < i);
    }
  }

  /** A content event on a tracked root: its own path follows the event, every other path is unaffected. */
  lemma ContentOver(log: seq<Event>, me: DeviceId, c: Client, e: Event, blocked: bool)
    requires SoundLog(log) && EntriesOk(log, c) && TrackedOk(log, me, c, e.root) && IsNext(log, c.cursor, e)
    requires IsContent(e)
    ensures TrackedOk(log, me, Consumed(c, me, e, blocked), e.root)
  {
    hide Ahead, Disciplined, Increasing, Latest, IndexValue, EntriesOk;
    var root, next := e.root, Consumed(c, me, e, blocked);
    LatestBounds(log, e);
    UniqueSeq(log, e);
    DisciplinedEvent(log, e);
    var k, k' := Bound(c, root), Bound(next, root);
    forall path ensures Ahead(log, root, path, IndexValue(next, root, path), k') {
      assert Ahead(log, root, path, IndexValue(c, root, path), k);
      if e.path == Some(path) {
        ContentOnPath(log, me, c, e, blocked);
      } else {
        assert IndexValue(next, root, path) == IndexValue(c, root, path) by { OtherPath(c, me, e, blocked, path); }
        assert k <= k' ==> Quiet(log, root, path, k, k') by { QuietElsewhere(log, c.cursor, e, root, path, k, k'); }
        AheadOver(log, c, root, path, k, k');
      }
    }
  }

  lemma OtherPath(c: Client, me: DeviceId, e: Event, blocked: bool, path: PathId)
    requires IsContent(e) && e.path != Some(path)
    ensures IndexValue(Consumed(c, me, e, blocked), e.root, path) == IndexValue(c, e.root, path)
  {}

  lemma ContentOnPath(log: seq<Event>, me: DeviceId, c: Client, e: Event, blocked: bool)
    requires SoundLog(log) && EntriesOk(log, c) && TrackedOk(log, me, c, e.root) && IsNext(log, c.cursor, e)
    requires IsContent(e) && e.path.Some?
    ensures var next := Consumed(c, me, e, blocked);
            Ahead(log, e.root, e.path.value, IndexValue(next, e.root, e.path.value), Bound(next, e.root))
  {
    hide Ahead, Disciplined, Increasing, Latest, EntriesOk;
    var root, path, next := e.root, e.path.value, Consumed(c, me, e, blocked);
    assert ContentOn(e, root);
    if e.author == me && Materialized(c, e) {
      if c.roots[root].snapshotSeq >= e.seqno {
        assert Bound(next, root) == Bound(c, root);
        assert Ahead(log, root, path, IndexValue(c, root, path), Bound(c, root));
      } else {
        EntryAhead(log, c, root, path, e.seqno);
      }
    } else {
      OwnSeqAhead(log, e, Bound(next, root));
    }
  }

  /** A root that was inactive held nothing, so its root_add leaves the value of every path in place. */
  lemma AheadOverAdd(log: seq<Event>, e: Event, path: PathId, v: Content, k: int, cursor: int)
    requires SoundLog(log) && e.kind.RootAdd? && IsNext(log, cursor, e) && cursor <= k
    requires Ahead(log, e.root, path, v, k)
    ensures Ahead(log, e.root, path, v, e.seqno)
  {
    hide Disciplined, Increasing, HeadAt, Digest, Latest;
    LatestBounds(log, e);
    var t :| k <= t <= Latest(log) && Digest(ValueAt(log, e.root, path, t)) == Digest(v);
    if t < e.seqno {
      GoneBeforeAdd(log, e, path, t);
      GoneAtLifecycle(log, e, path);
      assert ValueAt(log, e.root, path, t) == ValueAt(log, e.root, path, e.seqno);
    }
  }

  lemma NothingAhead(log: seq<Event>, e: Event, path: PathId, k: int)
    requires SoundLog(log) && e in log && IsLifecycle(e) && k <= e.seqno
    ensures Ahead(log, e.root, path, Gone, k)
  {
    hide Disciplined, Increasing, HeadAt, Latest;
    LatestBounds(log, e);
    GoneAtLifecycle(log, e, path);
    assert Digest(ValueAt(log, e.root, path, e.seqno)) == Digest(Gone);
  }

  lemma LowerBound(log: seq<Event>, root: RootId, path: PathId, v: Content, k: int, k': int)
    requires Ahead(log, root, path, v, k) && k' <= k
    ensures Ahead(log, root, path, v, k')
  {
    hide ValueAt, Digest, Latest;
  }

  lemma AddOver(log: seq<Event>, me: DeviceId, c: Client, e: Event, blocked: bool)
    requires SoundLog(log) && IsNext(log, c.cursor, e) && 1 <= e.seqno
    requires e.root in c.tracked ==> TrackedOk(log, me, c, e.root)
    requires e.kind.RootAdd? && e.root in Consumed(c, me, e, blocked).tracked
    ensures TrackedOk(log, me, Consumed(c, me, e, blocked), e.root)
  {
    hide Ahead, Disciplined, Increasing, Latest, IndexValue;
    var root, next := e.root, Consumed(c, me, e, blocked);
    LatestBounds(log, e);
    var k, k' := Bound(c, root), Bound(next, root);
    forall path ensures Ahead(log, root, path, IndexValue(next, root, path), k') {
      assert IndexValue(next, root, path) == IndexValue(c, root, path) by { SameIndex(c, next, root, path); }
      if root in c.tracked {
        assert Ahead(log, root, path, IndexValue(c, root, path), k);
        if k' <= k {
          LowerBound(log, root, path, IndexValue(c, root, path), k, k');
        } else {
          AheadOverAdd(log, e, path, IndexValue(c, root, path), k, c.cursor);
        }
      } else {
        assert IndexValue(c, root, path) == Gone by { EmptyIndex(c, root, path); }
        NothingAhead(log, e, path, k');
      }
    }
  }

  lemma SameIndex(c: Client, next: Client, root: RootId, path: PathId)
    requires next.index == c.index
    ensures IndexValue(next, root, path) == IndexValue(c, root, path)
  {}

  lemma EmptyIndex(c: Client, root: RootId, path: PathId)
    requires NoEntries(c, root)
    ensures IndexValue(c, root, path) == Gone
  {}

  lemma RemoveUntracks(log: seq<Event>, me: DeviceId, c: Client, e: Event, blocked: bool)
    requires e.root in c.tracked ==> TrackedOk(log, me, c, e.root)
    requires e.kind.RootRemove?
    ensures e.root !in Consumed(c, me, e, blocked).tracked
  {
    hide IndexAhead, SkipsOk;
  }

  lemma OtherRoot(c: Client, me: DeviceId, e: Event, blocked: bool, root: RootId)
    requires e.root != root && root in Consumed(c, me, e, blocked).tracked
    ensures root in c.tracked
    ensures IsLive(c, root) ==> SameRoot(c, Consumed(c, me, e, blocked), root)
  {}

  lemma ConsumeKeepsMine(c: Client, me: DeviceId, e: Event, blocked: bool)
    requires c.mine <= c.tracked
    ensures Consumed(c, me, e, blocked).mine <= Consumed(c, me, e, blocked).tracked
  {}

  /** Consuming the next event of the log keeps everything a client knows. */
  lemma ConsumeKeepsClient(log: seq<Event>, me: DeviceId, c: Client, e: Event, blocked: bool)
    requires SoundLog(log) && ClientOk(log, me, c) && IsNext(log, c.cursor, e) && 1 <= e.seqno
    ensures ClientOk(log, me, Consumed(c, me, e, blocked))
    ensures Consumed(c, me, e, blocked).cursor == e.seqno
  {
    hide Disciplined, Increasing, EntriesOk, TrackedOk, Applied, Materialized;
    var next := Consumed(c, me, e, blocked);
    ConsumeKeepsEntries(log, me, c, e, blocked) by { assert EntriesOk(log, c); }
    ConsumeKeepsMine(c, me, e, blocked);
    DisciplinedEvent(log, e);
    assert next.cursor == e.seqno by { NextCursor(c, me, e, blocked); }
    forall root | root in next.tracked ensures TrackedOk(log, me, next, root) {
      if root != e.root {
        OtherRoot(c, me, e, blocked, root);
        assert IsLive(c, root) by { ReadTracked(log, me, c, root); }
        PassedOver(log, me, c, next, e, root);
      } else if e.kind.RootAdd? {
        AddOver(log, me, c, e, blocked);
      } else if e.kind.RootRemove? {
        RemoveUntracks(log, me, c, e, blocked);
      } else {
        assert root in c.tracked by { ContentTracks(c, me, e, blocked); }
        ContentOver(log, me, c, e, blocked);
      }
    }
  }

  lemma ReadTracked(log: seq<Event>, me: DeviceId, c: Client, root: RootId)
    requires TrackedOk(log, me, c, root)
    ensures IsLive(c, root)
  {}

  lemma NextCursor(c: Client, me: DeviceId, e: Event, blocked: bool)
    requires c.cursor < e.seqno
    ensures Consumed(c, me, e, blocked).cursor == e.seqno
  {}

  lemma ContentTracks(c: Client, me: DeviceId, e: Event, blocked: bool)
    requires IsContent(e)
    ensures Consumed(c, me, e, blocked).tracked == c.tracked && Consumed(c, me, e, blocked).mine == c.mine
  {}
}
