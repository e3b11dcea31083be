/** Reference counting: no operation lets an object's count fall below the rows that name it. */
module CountProofs {
  import opened Records
  import opened Tables
  import opened ServerState
  import ET = EventTable
  import ST = SnapshotTable
  import Retention
  import WorkspacePurge

  /** An accepted event adds one row per distinct id and raises the count once per listed id. */
  lemma SubmitReferences(db: Db, next: Db, req: ET.Request, o: ObjectId)
    requires forall r | r in db.eventRefs :: r.0 < db.nextSeq
    requires next.eventRefs == db.eventRefs + (set x | x in req.refs :: (db.nextSeq, x))
    requires next.snapshots == db.snapshots && next.snapshotRefs == db.snapshotRefs
    ensures References(next, o) == References(db, o) + if o in req.refs then 1 else 0
  {
    var s := db.nextSeq;
    if o in req.refs {
      assert (s, o) in next.eventRefs;
      assert EventRefsTo(next, o) == EventRefsTo(db, o) + {s};
      assert s !in EventRefsTo(db, o);
    } else {
      assert EventRefsTo(next, o) == EventRefsTo(db, o);
    }
    assert SnapshotsOf(next, o) == SnapshotsOf(db, o);
    assert SnapshotRefsTo(next, o) == SnapshotRefsTo(db, o);
  }

  /** No id is listed twice. */
  predicate Distinct<T(==)>(s: seq<T>) {
    forall i, j | 0 <= i < j < |s| :: s[i] != s[j]
  }

  lemma {:induction false} DistinctOnce<T>(s: seq<T>, x: T)
    requires Distinct(s) && x in s
    ensures multiset(s)[x] == 1
  {
    var n := |s| - 1;
    assert s == s[..n] + [s[n]];
    if x == s[n] {
      assert x !in s[..n];
    } else {
      DistinctOnce(s[..n], x);
    }
  }

  lemma SubmitKeepsCounts(db: Db, next: Db, req: ET.Request)
    requires forall r | r in db.eventRefs :: r.0 < db.nextSeq
    requires next.eventRefs == db.eventRefs + (set x | x in req.refs :: (db.nextSeq, x))
    requires next.snapshots == db.snapshots && next.snapshotRefs == db.snapshotRefs
    requires next.objects == ET.ObjectsReferencedBy(db.objects, req.refs)
    ensures CountsOk(db) ==> CountsOk(next)
    ensures CountsExact(db) && Distinct(req.refs) ==> CountsExact(next)
  {
    hide References;
    forall o | o in next.objects
      ensures References(db, o) <= db.objects[o].refCount ==> References(next, o) <= next.objects[o].refCount
      ensures References(db, o) == db.objects[o].refCount && Distinct(req.refs) ==>
              References(next, o) == next.objects[o].refCount
    {
      SubmitReferences(db, next, req, o);
      if o in req.refs && Distinct(req.refs) {
        DistinctOnce(req.refs, o);
      }
    }
  }

  lemma SaveSnapshotRows(db: Db, next: Db, key: SnapshotKey, row: SnapshotRow, o: ObjectId)
    requires next.snapshots == if key in db.snapshots then db.snapshots else db.snapshots[key := row]
    ensures |SnapshotsOf(next, o)| == |SnapshotsOf(db, o)| + if o == key.2 && key !in db.snapshots then 1 else 0
  {
    if o == key.2 && key !in db.snapshots {
      assert SnapshotsOf(next, o) == SnapshotsOf(db, o) + {key};
    } else {
      assert SnapshotsOf(next, o) == SnapshotsOf(db, o);
    }
  }

  lemma SaveSnapshotRefs(db: Db, next: Db, obj: ObjectId, refs: seq<ObjectId>, o: ObjectId)
    requires next.snapshotRefs == db.snapshotRefs + (set x | x in refs :: (obj, x))
    ensures |SnapshotRefsTo(next, o)| == |SnapshotRefsTo(db, o)| + if o in refs && (obj, o) !in db.snapshotRefs then 1
            else 0
  {
    if o in refs && (obj, o) !in db.snapshotRefs {
      assert (obj, o) in next.snapshotRefs;
      assert SnapshotRefsTo(next, o) == SnapshotRefsTo(db, o) + {obj};
      assert obj !in SnapshotRefsTo(db, o);
    } else {
      assert SnapshotRefsTo(next, o) == SnapshotRefsTo(db, o);
    }
  }

  lemma SaveReferences(db: Db, ws: WorkspaceId, device: DeviceId, req: ST.Request, now: Time, o: ObjectId)
    requires (ws, req.root) in db.roots
    ensures References(ST.Committed(db, ws, device, req, now), o) == References(db, o) + ST.Raise(db, ws, req, o)
  {
    hide SnapshotsOf, SnapshotRefsTo;
    var next := ST.Committed(db, ws, device, req, now);
    SaveSnapshotRows(db, next, (ws, req.root, req.obj), SnapshotRow(req.base, device, now), o);
    SaveSnapshotRefs(db, next, req.obj, req.refs, o);
    assert EventRefsTo(next, o) == EventRefsTo(db, o);
  }

  lemma SaveKeepsCounts(db: Db, ws: WorkspaceId, device: DeviceId, req: ST.Request, now: Time)
    requires (ws, req.root) in db.roots
    ensures CountsOk(db) ==> CountsOk(ST.Committed(db, ws, device, req, now))
    ensures CountsExact(db) ==> CountsExact(ST.Committed(db, ws, device, req, now))
  {
    hide References;
    var next := ST.Committed(db, ws, device, req, now);
    forall o | o in next.objects
      ensures next.objects[o].refCount - References(next, o) == db.objects[o].refCount - References(db, o)
    {
      SaveReferences(db, ws, device, req, now, o);
    }
  }

  lemma EventRefsSplit(db: Db, seqs: set<int>, now: Time, o: ObjectId)
    ensures References(db, o) == References(Retention.WithoutEvents(db, seqs, now), o)
            + |Retention.RefsFrom(db, seqs, o)|
  {
    var next := Retention.WithoutEvents(db, seqs, now);
    var gone := Retention.RefsFrom(db, seqs, o);
    assert EventRefsTo(db, o) == EventRefsTo(next, o) + gone by {
      forall s | s in EventRefsTo(db, o) ensures s in EventRefsTo(next, o) + gone {
        assert (s, o) in db.eventRefs;
        if s !in seqs { assert (s, o) in next.eventRefs; }
      }
      forall s | s in gone ensures s in EventRefsTo(db, o) {
        assert (s, o) in db.eventRefs;
      }
    }
    assert EventRefsTo(next, o) !! gone;
    assert SnapshotsOf(next, o) == SnapshotsOf(db, o);
    assert SnapshotRefsTo(next, o) == SnapshotRefsTo(db, o);
  }

  lemma EventsPrunedKeepsCounts(db: Db, seqs: set<int>, now: Time)
    ensures CountsOk(db) ==> CountsOk(Retention.WithoutEvents(db, seqs, now))
    ensures CountsExact(db) ==> CountsExact(Retention.WithoutEvents(db, seqs, now))
  {
    hide References, Retention.RefsFrom;
    var next := Retention.WithoutEvents(db, seqs, now);
    forall o | o in next.objects
      ensures References(db, o) <= db.objects[o].refCount ==> References(next, o) <= next.objects[o].refCount
      ensures References(db, o) == db.objects[o].refCount ==> References(next, o) == next.objects[o].refCount
    {
      EventRefsSplit(db, seqs, now, o);
    }
  }

  lemma SnapshotRowsSplit(db: Db, keys: set<SnapshotKey>, now: Time, o: ObjectId)
    requires keys <= db.snapshots.Keys
    ensures var next := Retention.WithoutSnapshots(db, keys, now);
            |SnapshotsOf(db, o)| == |SnapshotsOf(next, o)| + |Retention.RowsNaming(keys, o)|
            && EventRefsTo(next, o) == EventRefsTo(db, o)
  {
    var next := Retention.WithoutSnapshots(db, keys, now);
    assert SnapshotsOf(db, o) == SnapshotsOf(next, o) + Retention.RowsNaming(keys, o);
    assert SnapshotsOf(next, o) !! Retention.RowsNaming(keys, o);
  }

  lemma SnapshotRefsSplit(db: Db, keys: set<SnapshotKey>, now: Time, o: ObjectId)
    ensures var next := Retention.WithoutSnapshots(db, keys, now);
            |SnapshotRefsTo(db, o)| == |SnapshotRefsTo(next, o)|
                + |Retention.RefsFromSnapshots(db, Retention.ObjectsOf(keys), o)|
  {
    hide Retention.RowsNaming, Retention.Lowered, Retention.ObjectsOf;
    var next := Retention.WithoutSnapshots(db, keys, now);
    var objs := Retention.ObjectsOf(keys);
    var gone := Retention.RefsFromSnapshots(db, objs, o);
    assert SnapshotRefsTo(db, o) == SnapshotRefsTo(next, o) + gone by {
      forall s | s in SnapshotRefsTo(db, o) ensures s in SnapshotRefsTo(next, o) + gone {
        assert (s, o) in db.snapshotRefs;
        if s !in objs { assert (s, o) in next.snapshotRefs; }
      }
      forall s | s in gone ensures s in SnapshotRefsTo(db, o) {
        assert (s, o) in db.snapshotRefs;
      }
    }
    assert SnapshotRefsTo(next, o) !! gone;
  }

  lemma SnapshotsPrunedKeepsCounts(db: Db, keys: set<SnapshotKey>, now: Time)
    requires keys <= db.snapshots.Keys
    ensures CountsOk(db) ==> CountsOk(Retention.WithoutSnapshots(db, keys, now))
    ensures CountsExact(db) ==> CountsExact(Retention.WithoutSnapshots(db, keys, now))
  {
    hide SnapshotsOf, SnapshotRefsTo, EventRefsTo, Retention.RowsNaming, Retention.RefsFromSnapshots;
    var next := Retention.WithoutSnapshots(db, keys, now);
    forall o | o in next.objects
      ensures References(db, o) <= db.objects[o].refCount ==> References(next, o) <= next.objects[o].refCount
      ensures References(db, o) == db.objects[o].refCount ==> References(next, o) == next.objects[o].refCount
    {
      SnapshotRowsSplit(db, keys, now, o);
      SnapshotRefsSplit(db, keys, now, o);
    }
  }

  lemma SameRowsSameReferences(db: Db, next: Db, o: ObjectId)
    requires next.eventRefs == db.eventRefs && next.snapshots == db.snapshots && next.snapshotRefs == db.snapshotRefs
    ensures References(next, o) == References(db, o)
  {
    assert EventRefsTo(next, o) == EventRefsTo(db, o);
    assert SnapshotsOf(next, o) == SnapshotsOf(db, o);
    assert SnapshotRefsTo(next, o) == SnapshotRefsTo(db, o);
  }

  /** Dropping objects, or adding rowless ones, leaves the counts of the others alone. */
  lemma SameRowsKeepCounts(db: Db, next: Db)
    requires next.eventRefs == db.eventRefs && next.snapshots == db.snapshots && next.snapshotRefs == db.snapshotRefs
    requires forall o | o in next.objects ::
               if o in db.objects then next.objects[o].refCount == db.objects[o].refCount
               else next.objects[o].refCount == 0 && References(db, o) == 0
    ensures CountsOk(db) ==> CountsOk(next)
    ensures CountsExact(db) ==> CountsExact(next)
  {
    hide References;
    forall o | o in next.objects ensures References(next, o) == References(db, o) {
      SameRowsSameReferences(db, next, o);
    }
  }

  /** Whatever the counts were before, a purge leaves every one of them equal to its rows. */
  lemma PurgeMakesCountsExact(db: Db, ws: WorkspaceId, candidates: set<ObjectId>, now: Time)
    ensures CountsExact(WorkspacePurge.Purged(db, ws, candidates, now))
  {
    hide References;
    var bare := WorkspacePurge.WithoutWorkspace(db, ws);
    var next := WorkspacePurge.Purged(db, ws, candidates, now);
    forall o | o in next.objects ensures References(next, o) == next.objects[o].refCount {
      SameRowsSameReferences(bare, next, o);
    }
  }

  /** An object without a row to its name has no reference; one with a row has at least one. */
  lemma ReferencedWhenNamed(db: Db, o: ObjectId)
    ensures References(db, o) == 0 <==>
            && (forall r | r in db.eventRefs :: r.1 != o)
            && (forall k | k in db.snapshots :: k.2 != o)
            && (forall r | r in db.snapshotRefs :: r.1 != o)
  {
    if r :| r in db.eventRefs && r.1 == o { assert r.0 in EventRefsTo(db, o); }
    if k :| k in db.snapshots && k.2 == o { assert k in SnapshotsOf(db, o); }
    if r :| r in db.snapshotRefs && r.1 == o { assert r.0 in SnapshotRefsTo(db, o); }
  }
}
