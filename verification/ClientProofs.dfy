/**
  What a client's index knows about the log. An entry tagged t holds what the log gave its path at t; and
  the index of a tracked root is never behind the cursor, although single entries may run ahead of it.
*/
module ClientProofs {
  import opened Records
  import opened EventLog
  import opened Clients

  ghost predicate EntryOk(log: seq<Event>, k: IndexKey, e: Entry) {
    1 <= e.tag <= Latest(log) && Digest(e.value) == Digest(ValueAt(log, k.0, k.1, e.tag))
  }

  ghost predicate EntriesOk(log: seq<Event>, c: Client) {
    && 0 <= c.cursor <= Latest(log)
    && (forall k | k in c.index :: EntryOk(log, k, c.index[k]))
    && (forall k | k in c.index :: k.0 in c.roots && !c.roots[k.0].state.Removed?)
  }

  /** v is what the log gives the path at some seq that is at least k. */
  ghost predicate Ahead(log: seq<Event>, root: RootId, path: PathId, v: Content, k: int) {
    exists t :: k <= t <= Latest(log) && Digest(ValueAt(log, root, path, t)) == Digest(v)
  }

  /** How far the index of a root is known to have followed the log. */
  function Bound(c: Client, root: RootId): int {
    if root in c.mine && root in c.roots && c.cursor < c.roots[root].snapshotSeq then c.roots[root].snapshotSeq
        else c.cursor
  }

  ghost predicate ContentOn(e: Event, root: RootId) {
    e.root == root && IsContent(e)
  }

  /** Below the loaded snapshot, either every event left to consume is the client's own, or none is. */
  ghost predicate SkipsOk(log: seq<Event>, me: DeviceId, c: Client, root: RootId)
    requires root in c.roots
  {
    && c.roots[root].snapshotSeq <= Latest(log)
    && forall e | e in log && ContentOn(e, root) && c.cursor < e.seqno <= c.roots[root].snapshotSeq ::
         (root in c.mine <==> e.author == me)
  }

  ghost predicate IndexAhead(log: seq<Event>, c: Client, root: RootId) {
    forall path :: Ahead(log, root, path, IndexValue(c, root, path), Bound(c, root))
  }

  ghost predicate TrackedOk(log: seq<Event>, me: DeviceId, c: Client, root: RootId) {
    IsLive(c, root) && IndexAhead(log, c, root) && SkipsOk(log, me, c, root)
  }

  ghost predicate ClientOk(log: seq<Event>, me: DeviceId, c: Client) {
    && EntriesOk(log, c)
    && c.mine <= c.tracked
    && (forall root | root in c.tracked :: TrackedOk(log, me, c, root))
  }

  lemma LatestSnoc(log: seq<Event>, e: Event)
    ensures Latest(log + [e]) == e.seqno
  {}

  lemma LatestBounds(log: seq<Event>, e: Event)
    requires Increasing(log) && e in log
    ensures e.seqno <= Latest(log)
  {
    var i :| 0 <= i < |log| && log[i] == e;
    assert i == |log| - 1 || log[i].seqno < log[|log| - 1].seqno;
  }

  lemma GrowEntries(log: seq<Event>, e: Event, c: Client)
    requires EntriesOk(log, c) && Latest(log) < e.seqno
    ensures EntriesOk(log + [e], c)
  {
    hide ValueAt, Digest;
    forall k | k in c.index ensures EntryOk(log + [e], k, c.index[k]) {
      assert EntryOk(log, k, c.index[k]);
      ValueAtIsStable(log, e, k.0, k.1, c.index[k].tag);
    }
  }

  lemma GrowAhead(log: seq<Event>, e: Event, root: RootId, path: PathId, v: Content, k: int)
    requires Ahead(log, root, path, v, k) && Latest(log) < e.seqno
    ensures Ahead(log + [e], root, path, v, k)
  {
    hide ValueAt, Digest;
    var t :| k <= t <= Latest(log) && Digest(ValueAt(log, root, path, t)) == Digest(v);
    ValueAtIsStable(log, e, root, path, t);
  }

  lemma GrowTracked(log: seq<Event>, e: Event, me: DeviceId, c: Client, root: RootId)
    requires TrackedOk(log, me, c, root) && Latest(log) < e.seqno
    ensures TrackedOk(log + [e], me, c, root)
  {
    hide Ahead, Latest;
    LatestSnoc(log, e);
    forall path ensures Ahead(log + [e], root, path, IndexValue(c, root, path), Bound(c, root)) {
      GrowAhead(log, e, root, path, IndexValue(c, root, path), Bound(c, root));
    }
  }

  /** The log only grows, so everything a client knows about it stays true. */
  lemma GrowKeepsClient(log: seq<Event>, e: Event, me: DeviceId, c: Client)
    requires ClientOk(log, me, c) && Latest(log) < e.seqno
    ensures ClientOk(log + [e], me, c)
  {
    hide TrackedOk, EntriesOk, Latest;
    GrowEntries(log, e, c);
    forall root | root in c.tracked ensures TrackedOk(log + [e], me, c, root) {
      GrowTracked(log, e, me, c, root);
    }
  }

  /** No event in (from, to] concerns the path. */
  ghost predicate Quiet(log: seq<Event>, root: RootId, path: PathId, from: int, to: int) {
    forall e | e in log && from < e.seqno <= to ::
      !(e.root == root && (IsLifecycle(e) || (IsContent(e) && e.path == Some(path))))
  }

  lemma QuietStep(rest: seq<Event>, e: Event, root: RootId, path: PathId, from: int, to: int)
    requires Increasing(rest + [e]) && from < e.seqno <= to
    requires !(e.root == root && (IsLifecycle(e) || (IsContent(e) && e.path == Some(path))))
    ensures HeadAt(rest + [e], root, path, from) == HeadAt(rest, root, path, from)
    ensures HeadAt(rest + [e], root, path, to) == HeadAt(rest, root, path, to)
  {
    var log := rest + [e];
    assert log[..|rest|] == rest;
    UpToAll(rest, to, e);
    assert UpTo(log, from) == UpTo(rest, from);
  }

  lemma QuietLater(rest: seq<Event>, e: Event, root: RootId, path: PathId, t: int)
    requires t < e.seqno
    ensures HeadAt(rest + [e], root, path, t) == HeadAt(rest, root, path, t)
  {
    assert (rest + [e])[..|rest|] == rest;
  }

  lemma {:induction false} QuietValue(log: seq<Event>, root: RootId, path: PathId, from: int, to: int)
    requires Increasing(log) && from <= to && Quiet(log, root, path, from, to)
    ensures HeadAt(log, root, path, from) == HeadAt(log, root, path, to)
    decreases |log|
  {
    if log != [] {
      var rest, e := log[..|log| - 1], log[|log| - 1];
      assert log == rest + [e];
      if to < e.seqno {
        hide HeadAt;
        QuietLater(rest, e, root, path, from);
        QuietLater(rest, e, root, path, to);
        QuietValue(rest, root, path, from, to);
      } else if from < e.seqno {
        hide HeadAt;
        assert e in log;
        QuietStep(rest, e, root, path, from, to);
        QuietValue(rest, root, path, from, to);
      }
    }
  }

  lemma UpToAll(rest: seq<Event>, to: int, e: Event)
    requires Increasing(rest + [e]) && e.seqno <= to
    ensures UpTo(rest, to) == rest
  {
    if rest != [] {
      var next := rest + [e];
      assert next[|rest| - 1].seqno < next[|rest|].seqno;
    }
  }

  lemma QuietAhead(log: seq<Event>, root: RootId, path: PathId, v: Content, k: int, k': int)
    requires Increasing(log) && Ahead(log, root, path, v, k) && k <= k' <= Latest(log)
    requires Quiet(log, root, path, k, k')
    ensures Ahead(log, root, path, v, k')
  {
    hide HeadAt, Digest, Latest;
    var t :| k <= t <= Latest(log) && Digest(ValueAt(log, root, path, t)) == Digest(v);
    if t < k' {
      QuietValue(log, root, path, t, k');
      assert ValueAt(log, root, path, t) == ValueAt(log, root, path, k');
    }
  }

  /** A content event is the head of its path at its own seq. */
  lemma {:induction false} ValueAtOwnSeq(log: seq<Event>, e: Event)
    requires Increasing(log) && e in log && IsContent(e) && e.path.Some?
    ensures HeadAt(log, e.root, e.path.value, e.seqno) == Some(e)
    decreases |log|
  {
    var n := |log| - 1;
    if log[n] != e {
      var i :| 0 <= i < |log| && log[i] == e;
      assert log[i].seqno < log[n].seqno;
      assert log[..n][i] == e;
      ValueAtOwnSeq(log[..n], e);
    }
  }

  /** Right after a lifecycle event the root's paths hold nothing. */
  lemma {:induction false} GoneAtLifecycle(log: seq<Event>, e: Event, path: PathId)
    requires Increasing(log) && e in log && IsLifecycle(e)
    ensures HeadAt(log, e.root, path, e.seqno) == None
    decreases |log|
  {
    var n := |log| - 1;
    if log[n] != e {
      var i :| 0 <= i < |log| && log[i] == e;
      assert log[i].seqno < log[n].seqno;
      assert log[..n][i] == e;
      GoneAtLifecycle(log[..n], e, path);
    }
  }

  lemma InactiveHoldsNothing(log: seq<Event>, root: RootId, path: PathId)
    requires Increasing(log) && Disciplined(log) && Incarnation(log, root).None?
    ensures Head(log, root, path) == None
  {
    hide Disciplined, Increasing, Head, Incarnation;
    if Head(log, root, path).Some? {
      HeadFollowsIncarnation(log, root, path);
    }
  }

  lemma DisciplinedPrefix(log: seq<Event>)
    requires Increasing(log) && Disciplined(log) && log != []
    ensures Increasing(log[..|log| - 1]) && Disciplined(log[..|log| - 1])
    ensures var e := log[|log| - 1]; e.kind.RootAdd? ==> Incarnation(log[..|log| - 1], e.root).None?
  {
    hide Incarnation;
    var rest := log[..|log| - 1];
    assert forall i | 0 <= i < |rest| :: rest[..i] == log[..i];
  }

  /** A root that is about to be added held nothing just before. */
  lemma GoneJustBeforeAdd(log: seq<Event>, path: PathId, t: int)
    requires Increasing(log) && Disciplined(log) && log != []
    requires log[|log| - 1].kind.RootAdd? && t < log[|log| - 1].seqno
    requires forall f | f in log && f.root == log[|log| - 1].root :: f.seqno <= t || log[|log| - 1].seqno <= f.seqno
    ensures HeadAt(log, log[|log| - 1].root, path, t) == None
  {
    hide Disciplined, Head, Incarnation;
    var n := |log| - 1;
    var rest := log[..n];
    var e := log[n];
    DisciplinedPrefix(log);
    InactiveHoldsNothing(rest, e.root, path);
    assert UpTo(log, t) == UpTo(rest, t);
    assert Quiet(rest, e.root, path, t, e.seqno) by { assert forall i | 0 <= i < n :: log[i].seqno < e.seqno; }
    QuietValue(rest, e.root, path, t, e.seqno);
    assert rest + [e] == log;
    UpToAll(rest, e.seqno, e);
  }

  lemma {:induction false} GoneBeforeAdd(log: seq<Event>, e: Event, path: PathId, t: int)
    requires Increasing(log) && Disciplined(log) && e in log && e.kind.RootAdd? && t < e.seqno
    requires forall f | f in log && f.root == e.root :: f.seqno <= t || e.seqno <= f.seqno
    ensures HeadAt(log, e.root, path, t) == None
    decreases |log|
  {
    hide Disciplined, Head;
    var n := |log| - 1;
    var rest := log[..n];
    if log[n] == e {
      GoneJustBeforeAdd(log, path, t);
    } else {
      var i :| 0 <= i < |log| && log[i] == e;
      assert log[i].seqno < log[n].seqno;
      assert rest[i] == e;
      DisciplinedPrefix(log);
      GoneBeforeAdd(rest, e, path, t);
      assert UpTo(log, t) == UpTo(rest, t);
    }
  }

  /** Nothing follows the head of the whole log: it still is the head at any seq it does not exceed. */
  lemma {:induction false} HeadStays(log: seq<Event>, root: RootId, path: PathId, t: int)
    requires Increasing(log) && Head(log, root, path).Some? && Head(log, root, path).value.seqno <= t
    ensures HeadAt(log, root, path, t) == Head(log, root, path)
    decreases |log|
  {
    var n := |log| - 1;
    var rest := log[..n];
    var e := log[n];
    if t < e.seqno {
      if e.root == root && IsContent(e) && e.path == Some(path) {
      } else {
        HeadStays(rest, root, path, t);
      }
    }
  }
}
