/**
  What the eligibility check buys. A snapshot that the uploading client still finds equal to its index,
  after catching up past its own last event, is exactly the fold of its incarnation up to that event, and
  nobody else wrote to the incarnation before it.
*/
module SnapshotExactness {
  import opened Records
  import opened EventLog
  import opened Clients
  import opened ClientProofs
  import opened ConsumeProofs
  import opened BootstrapProofs
  import opened UploadProofs
  import opened AcceptanceTheorems

  /** All that is known when an initial snapshot is about to be published. */
  predicate Eligible(c: Client, a: Adding) {
    && c.adding == Some(a) && a.phase.Reconciling? && a.entries != [] && IsLive(c, a.root)
    && InitialSnapshotMatches(c, a)
    && (forall u | u in a.entries :: u.seqno <= c.cursor)
  }

  function InitialSnapshot(me: DeviceId, a: Adding): Snapshot
    requires a.entries != []
  {
    Snapshot(a.entries[|a.entries| - 1].seqno, UploadedContents(a.entries), me)
  }

  ghost function UploadedKeys(root: RootId, entries: seq<Uploaded>): set<IndexKey> {
    set u | u in entries :: (root, u.path)
  }

  lemma {:induction false} DistinctKeysCount(root: RootId, entries: seq<Uploaded>)
    requires forall i, j | 0 <= i < j < |entries| :: entries[i].path != entries[j].path
    ensures |UploadedKeys(root, entries)| == |entries|
    decreases |entries|
  {
    if entries != [] {
      var n := |entries| - 1;
      var rest := entries[..n];
      DistinctKeysCount(root, rest);
      var k := (root, entries[n].path);
      assert k !in UploadedKeys(root, rest);
      assert entries == rest + [entries[n]];
      assert UploadedKeys(root, entries) == UploadedKeys(root, rest) + {k};
    }
  }

  lemma SubsetOfSameSize<T>(s: set<T>, t: set<T>)
    requires s <= t && |s| == |t|
    ensures s == t
  {
    assert |t - s| == |t| - |s|;
  }

  /** Equal counts and matching rows: the root has no row beyond the uploaded ones. */
  lemma NoOtherRows(c: Client, a: Adding, k: IndexKey)
    requires InitialSnapshotMatches(c, a) && k in c.index && k.0 == a.root
    requires forall i, j | 0 <= i < j < |a.entries| :: a.entries[i].seqno < a.entries[j].seqno
    ensures exists i :: 0 <= i < |a.entries| && a.entries[i].path == k.1
  {
    forall i, j | 0 <= i < j < |a.entries| ensures a.entries[i].path != a.entries[j].path {
      assert c.index[(a.root, a.entries[i].path)].tag < c.index[(a.root, a.entries[j].path)].tag;
    }
    DistinctKeysCount(a.root, a.entries);
    var rows := set r | r in c.index && r.0 == a.root;
    SubsetOfSameSize(UploadedKeys(a.root, a.entries), rows);
    assert k in rows;
    var u :| u in a.entries && (a.root, u.path) == k;
  }

  lemma NoLifecycleLater(log: seq<Event>, root: RootId, i: int, k: int)
    requires Increasing(log) && Incarnation(log, root).Some? && 0 <= i <= k < |log|
    requires Incarnation(log, root).value < log[i].seqno
    ensures !(log[k].root == root && IsLifecycle(log[k]))
  {
    hide Incarnation;
    assert i == k || log[i].seqno < log[k].seqno;
    assert log[k] in log;
    if log[k].root == root && IsLifecycle(log[k]) {
      IncarnationIsLast(log, root, log[k]);
    }
  }

  /** An accepted event with base 0 is the first of its path in the incarnation. */
  lemma FirstOfItsPath(log: seq<Event>, root: RootId, created: int, f: Event, g: Event)
    requires SoundLog(log) && Optimistic(log) && Incarnation(log, root) == Some(created) && 1 <= created
    requires f in log && g in log && ContentOn(f, root) && ContentOn(g, root) && f.path == g.path
    requires g.base == Some(0) && created < f.seqno && created < g.seqno
    ensures g.seqno <= f.seqno
  {
    hide Incarnation, Disciplined, NotBehind;
    var i :| 0 <= i < |log| && log[i] == f;
    var j :| 0 <= j < |log| && log[j] == g;
    if i < j {
      var before := log[..j];
      assert before[i] == f && Increasing(before);
      forall k | i <= k < j ensures !(before[k].root == root && IsLifecycle(before[k])) {
        NoLifecycleLater(log, root, i, k);
      }
      HeadCoversEarlier(before, i);
      assert NotBehind(log[..j], log[j].root, log[j].path.value, log[j].base.value);
      assert false by { BaseZero(before, root, g.path.value); }
    } else if j < i {
      assert log[j].seqno < log[i].seqno;
    }
  }

  lemma BaseZero(log: seq<Event>, root: RootId, path: PathId)
    requires NotBehind(log, root, path, 0)
    ensures Head(log, root, path).Some? ==> Head(log, root, path).value.seqno <= 0
  {}

  /** Up to the base of the snapshot the incarnation holds nothing but the uploaded events. */
  lemma OnlyUploads(log: seq<Event>, me: DeviceId, c: Client, a: Adding, f: Event) returns (i: int)
    requires SoundLog(log) && Optimistic(log) && Incarnation(log, a.root) == Some(a.created) && 1 <= a.created
    requires AddingOk(log, me, c) && Eligible(c, a)
    requires f in log && ContentOn(f, a.root) && f.path.Some?
    requires a.created < f.seqno <= c.cursor
    ensures 0 <= i < |a.entries| && IsUpload(f, me, a, a.entries[i])
  {
    hide Incarnation, SoundLog, Optimistic;
    var k := (a.root, f.path.value);
    assert Seen(log, c, a.root, a.created);
    NoOtherRows(c, a, k);
    i :| 0 <= i < |a.entries| && a.entries[i].path == k.1;
    assert a.entries[i] in a.entries;
    var g :| g in log && IsUpload(g, me, a, a.entries[i]);
    FirstOfItsPath(log, a.root, a.created, f, g);
    assert Increasing(log) by { SoundIncreases(log); }
    UniqueSeq(log, g);
    assert f == g;
  }

  lemma SoundIncreases(log: seq<Event>)
    requires SoundLog(log)
    ensures Increasing(log)
  {}

  lemma {:induction false} ContentsRow(entries: seq<Uploaded>, path: PathId)
    ensures path in UploadedContents(entries) <==> exists i :: 0 <= i < |entries| && entries[i].path == path
    ensures path in UploadedContents(entries) ==>
              exists i :: 0 <= i < |entries| && entries[i].path == path
                  && UploadedContents(entries)[path] == entries[i].value
    decreases |entries|
  {
    if entries != [] {
      var n := |entries| - 1;
      var rest := entries[..n];
      ContentsRow(rest, path);
      if entries[n].path == path {
      } else if path in UploadedContents(rest) {
        var i :| 0 <= i < n && rest[i].path == path && UploadedContents(rest)[path] == rest[i].value;
        assert entries[i] == rest[i];
      } else {
        forall i | 0 <= i < |entries| ensures entries[i].path != path {
          if i < n { assert entries[i] == rest[i]; }
        }
      }
    }
  }

  /** The payload gives a path the value of any of its entries: the index has room for one row only. */
  lemma ContentsAt(c: Client, a: Adding, i: int)
    requires InitialSnapshotMatches(c, a) && 0 <= i < |a.entries|
    ensures a.entries[i].path in UploadedContents(a.entries)
    ensures UploadedContents(a.entries)[a.entries[i].path] == a.entries[i].value
  {
    var path := a.entries[i].path;
    ContentsRow(a.entries, path);
    var j :| 0 <= j < |a.entries| && a.entries[j].path == path
        && UploadedContents(a.entries)[path] == a.entries[j].value;
    assert c.index[(a.root, a.entries[j].path)] == c.index[(a.root, a.entries[i].path)];
  }

  lemma {:induction false} UpToHasIncarnation(log: seq<Event>, root: RootId, t: int)
    requires SoundLog(log) && Incarnation(log, root).Some? && Incarnation(log, root).value <= t
    ensures Incarnation(UpTo(log, t), root) == Incarnation(log, root)
    ensures SoundLog(UpTo(log, t))
    decreases |log|
  {
    hide Disciplined;
    if log[|log| - 1].seqno > t {
      DisciplinedPrefix(log);
      UpToHasIncarnation(log[..|log| - 1], root, t);
    }
  }

  /** A head up to t is an event of the incarnation and not later than t. */
  lemma HeadAtInLog(log: seq<Event>, root: RootId, path: PathId, t: int)
    requires SoundLog(log) && Incarnation(log, root).Some? && Incarnation(log, root).value <= t
    requires HeadAt(log, root, path, t).Some?
    ensures var h := HeadAt(log, root, path, t).value;
            h in log && ContentOn(h, root) && h.path == Some(path) && Incarnation(log, root).value < h.seqno <= t
  {
    hide Disciplined, Incarnation, Head, UpTo;
    var prefix := UpTo(log, t);
    UpToHasIncarnation(log, root, t);
    UpToIsPrefix(log, t);
    HeadIsInLog(prefix, root, path);
    HeadFollowsIncarnation(prefix, root, path);
    var h := Head(prefix, root, path).value;
    var i :| 0 <= i < |prefix| && prefix[i] == h;
    assert log[i] == h;
  }

  /** An event of the incarnation up to t gives its path a head at t. */
  lemma HeadAtExists(log: seq<Event>, root: RootId, path: PathId, t: int, f: Event)
    requires SoundLog(log) && Incarnation(log, root).Some?
    requires f in log && ContentOn(f, root) && f.path == Some(path) && Incarnation(log, root).value < f.seqno <= t
    ensures HeadAt(log, root, path, t).Some?
  {
    hide Disciplined, Incarnation, Head;
    UpToIsPrefix(log, t);
    var prefix := UpTo(log, t);
    var i :| 0 <= i < |log| && log[i] == f;
    assert prefix[i] == f && Increasing(prefix);
    forall k | i <= k < |prefix| ensures !(prefix[k].root == root && IsLifecycle(prefix[k])) {
      NoLifecycleLater(log, root, i, k);
    }
    HeadCoversEarlier(prefix, i);
  }

  lemma ExactAt(log: seq<Event>, me: DeviceId, c: Client, a: Adding, path: PathId)
    requires SoundLog(log) && Optimistic(log) && Incarnation(log, a.root) == Some(a.created) && 1 <= a.created
    requires AddingOk(log, me, c) && Eligible(c, a)
    ensures var s := InitialSnapshot(me, a); SnapshotValue(s, path) == ValueAt(log, a.root, path, s.base)
  {
    hide SoundLog, Optimistic, Incarnation, HeadAt, PhaseOk, InitialSnapshotMatches, UploadedContents;
    var s := InitialSnapshot(me, a);
    var n := |a.entries| - 1;
    assert a.entries[n] in a.entries;
    assert a.created < s.base <= c.cursor by { BaseAfterCreated(log, me, a, a.entries[n]); }
    var head := HeadAt(log, a.root, path, s.base);
    if head.Some? {
      HeadAtInLog(log, a.root, path, s.base);
      var i := OnlyUploads(log, me, c, a, head.value);
      ContentsAt(c, a, i);
    } else {
      ContentsRow(a.entries, path);
      if path in s.entries {
        var i :| 0 <= i < |a.entries| && a.entries[i].path == path;
        assert a.entries[i] in a.entries;
        var f :| f in log && IsUpload(f, me, a, a.entries[i]);
        HeadAtExists(log, a.root, path, s.base, f);
      }
    }
  }

  lemma BaseAfterCreated(log: seq<Event>, me: DeviceId, a: Adding, u: Uploaded)
    requires UploadedOk(log, me, a) && u in a.entries
    ensures a.created < u.seqno
  {
    var f :| f in log && IsUpload(f, me, a, u);
  }

  /** Initial snapshot exactness, on the log alone. */
  lemma EligibleSnapshotIsExact(log: seq<Event>, me: DeviceId, c: Client, a: Adding)
    requires SoundLog(log) && Optimistic(log) && Incarnation(log, a.root) == Some(a.created) && 1 <= a.created
    requires AddingOk(log, me, c) && Eligible(c, a) && c.cursor <= Latest(log)
    ensures SnapshotOk(log, a.root, a.created, InitialSnapshot(me, a))
  {
    hide SoundLog, Optimistic, Incarnation, PhaseOk, InitialSnapshotMatches, Latest, SnapshotValue, ValueAt;
    var s := InitialSnapshot(me, a);
    var n := |a.entries| - 1;
    assert a.entries[n] in a.entries;
    BaseAfterCreated(log, me, a, a.entries[n]);
    forall path ensures SnapshotValue(s, path) == ValueAt(log, a.root, path, s.base) {
      ExactAt(log, me, c, a, path);
    }
    forall f | f in log && ContentOn(f, a.root) && a.created < f.seqno <= s.base ensures f.author == me {
      assert f.path.Some? by { assert SoundLog(log); SoundContent(log, f); }
      var i := OnlyUploads(log, me, c, a, f);
    }
  }

  lemma SoundContent(log: seq<Event>, f: Event)
    requires SoundLog(log) && f in log && IsContent(f)
    ensures f.path.Some?
  {
    DisciplinedEvent(log, f);
  }
}
