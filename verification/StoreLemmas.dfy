/** Step lemmas for the store's loops: what one iteration adds to the set-at-a-time specification. */
module StoreLemmas {
  import opened Records
  import opened Tables
  import opened ServerState
  import opened HorizonProofs
  import ET = EventTable
  import ST = SnapshotTable
  import Retention
  import WorkspacePurge

  function Incremented(row: ObjectRow): ObjectRow {
    row.(refCount := row.refCount + 1, zeroRefAt := None)
  }

  lemma ReferencedSnoc(objects: map<ObjectId, ObjectRow>, refs: seq<ObjectId>, i: int)
    requires 0 <= i < |refs|
    ensures var before := ET.ObjectsReferencedBy(objects, refs[..i]);
            ET.ObjectsReferencedBy(objects, refs[..i + 1]) ==
            if refs[i] in objects then before[refs[i] := Incremented(before[refs[i]])] else before
  {
    assert refs[..i + 1] == refs[..i] + [refs[i]];
    assert refs[i] in refs[..i + 1];
    assert forall o | o in refs[..i] :: o in refs[..i + 1];
    var before := ET.ObjectsReferencedBy(objects, refs[..i]);
    var after := ET.ObjectsReferencedBy(objects, refs[..i + 1]);
    forall o | o in objects
      ensures after[o] == if o == refs[i] then Incremented(before[o]) else before[o]
    {
      assert multiset(refs[..i + 1])[o] == multiset(refs[..i])[o] + if o == refs[i] then 1 else 0;
      assert o in refs[..i + 1] <==> o in refs[..i] || o == refs[i];
    }
  }

  lemma LoweredTwice(row: ObjectRow, j: nat, k: nat, now: Time)
    ensures Retention.Lowered(Retention.Lowered(row, j, now), k, now) == Retention.Lowered(row, j + k, now)
  {}

  lemma WithoutNoEvents(db: Db, now: Time)
    ensures Retention.WithoutEvents(db, {}, now) == db
  {
    forall o ensures Retention.RefsFrom(db, {}, o) == {} {}
    assert Retention.WithoutEvents(db, {}, now).events == db.events;
    assert Retention.WithoutEvents(db, {}, now).objects == db.objects;
  }

  lemma RefsFromOneMore(db: Db, done: set<int>, s: int, now: Time, o: ObjectId)
    requires s !in done
    ensures |Retention.RefsFrom(db, done + {s}, o)| ==
            |Retention.RefsFrom(db, done, o)| + |Retention.RefsFrom(Retention.WithoutEvents(db, done, now), {s}, o)|
  {
    var mid := Retention.WithoutEvents(db, done, now);
    var more := Retention.RefsFrom(mid, {s}, o);
    assert (s, o) in mid.eventRefs <==> (s, o) in db.eventRefs;
    assert Retention.RefsFrom(db, done + {s}, o) == Retention.RefsFrom(db, done, o) + more;
    assert Retention.RefsFrom(db, done, o) !! more;
  }

  /** Pruning events one by one prunes their set. */
  lemma WithoutOneMoreEvent(db: Db, done: set<int>, s: int, now: Time)
    requires s !in done
    ensures Retention.WithoutEvents(Retention.WithoutEvents(db, done, now), {s}, now) ==
            Retention.WithoutEvents(db, done + {s}, now)
  {
    hide Retention.RefsFrom, Retention.Lowered;
    var mid := Retention.WithoutEvents(db, done, now);
    var left := Retention.WithoutEvents(mid, {s}, now);
    var right := Retention.WithoutEvents(db, done + {s}, now);
    assert left.events == right.events;
    assert left.eventRefs == right.eventRefs;
    forall o | o in db.objects ensures left.objects[o] == right.objects[o] {
      RefsFromOneMore(db, done, s, now, o);
      LoweredTwice(db.objects[o], |Retention.RefsFrom(db, done, o)|, |Retention.RefsFrom(mid, {s}, o)|, now);
    }
    assert left.objects == right.objects;
  }

  /** The counts after decrementing each of a set of objects once. */
  function LoweredOnce(objects: map<ObjectId, ObjectRow>, os: set<ObjectId>, now: Time): map<ObjectId, ObjectRow> {
    map o | o in objects :: if o in os then Retention.Lowered(objects[o], 1, now) else objects[o]
  }

  lemma OneEvent(db: Db, s: int, refs: set<ObjectId>, now: Time)
    requires refs == set r | r in db.eventRefs && r.0 == s :: r.1
    ensures Retention.WithoutEvents(db, {s}, now) ==
            db.(events := db.events - {s},
                eventRefs := (set r | r in db.eventRefs && r.0 != s),
                objects := LoweredOnce(db.objects, refs, now))
  {
    var next := Retention.WithoutEvents(db, {s}, now);
    assert next.events == db.events - {s};
    assert next.eventRefs == set r | r in db.eventRefs && r.0 != s;
    forall o | o in db.objects ensures next.objects[o] == LoweredOnce(db.objects, refs, now)[o] {
      if (s, o) in db.eventRefs {
        assert Retention.RefsFrom(db, {s}, o) == {s};
        assert o in refs;
      } else {
        assert Retention.RefsFrom(db, {s}, o) == {};
      }
    }
    assert next.objects == LoweredOnce(db.objects, refs, now);
  }

  lemma WithoutNoSnapshots(db: Db, now: Time)
    ensures Retention.WithoutSnapshots(db, {}, now) == db
  {
    var next := Retention.WithoutSnapshots(db, {}, now);
    assert Retention.ObjectsOf({}) == {};
    forall o ensures Retention.RowsNaming({}, o) == {} && Retention.RefsFromSnapshots(db, {}, o) == {} {}
    assert next.snapshots == db.snapshots;
    assert next.snapshotRefs == db.snapshotRefs;
    assert next.objects == db.objects;
  }

  lemma RowsNamingOneMore(done: set<SnapshotKey>, k: SnapshotKey, o: ObjectId)
    requires k !in done
    ensures |Retention.RowsNaming(done + {k}, o)| == |Retention.RowsNaming(done, o)| + |Retention.RowsNaming({k}, o)|
  {
    assert Retention.RowsNaming(done + {k}, o) == Retention.RowsNaming(done, o) + Retention.RowsNaming({k}, o);
    assert Retention.RowsNaming(done, o) !! Retention.RowsNaming({k}, o);
  }

  lemma ObjectsOfOneMore(done: set<SnapshotKey>, k: SnapshotKey)
    ensures Retention.ObjectsOf(done + {k}) == Retention.ObjectsOf(done) + {k.2}
    ensures Retention.ObjectsOf({k}) == {k.2}
  {
    forall o | o in Retention.ObjectsOf(done + {k}) ensures o in Retention.ObjectsOf(done) + {k.2} {
      var l :| l in done + {k} && l.2 == o;
      if l != k { assert l in done; }
    }
    forall o | o in Retention.ObjectsOf(done) + {k.2} ensures o in Retention.ObjectsOf(done + {k}) {
      if o != k.2 {
        var l :| l in done && l.2 == o;
        assert l in done + {k};
      } else {
        assert k in done + {k};
      }
    }
    assert k in {k};
  }

  /** A second row of an object whose references are already gone takes no reference down again. */
  lemma SnapshotRefsOneMore(db: Db, done: set<SnapshotKey>, k: SnapshotKey, now: Time, o: ObjectId)
    ensures |Retention.RefsFromSnapshots(db, Retention.ObjectsOf(done + {k}), o)| ==
            |Retention.RefsFromSnapshots(db, Retention.ObjectsOf(done), o)|
            + |Retention.RefsFromSnapshots(Retention.WithoutSnapshots(db, done, now), Retention.ObjectsOf({k}), o)|
  {
    hide Retention.ObjectsOf, Retention.Lowered, Retention.RowsNaming;
    ObjectsOfOneMore(done, k);
    var objs := Retention.ObjectsOf(done);
    var mid := Retention.WithoutSnapshots(db, done, now);
    var more := Retention.RefsFromSnapshots(mid, {k.2}, o);
    assert (k.2, o) in mid.snapshotRefs <==> (k.2, o) in db.snapshotRefs && k.2 !in objs;
    assert Retention.RefsFromSnapshots(db, objs + {k.2}, o) == Retention.RefsFromSnapshots(db, objs, o) + more;
    assert Retention.RefsFromSnapshots(db, objs, o) !! more;
  }

  lemma WithoutOneMoreSnapshot(db: Db, done: set<SnapshotKey>, k: SnapshotKey, now: Time)
    requires k !in done
    ensures Retention.WithoutSnapshots(Retention.WithoutSnapshots(db, done, now), {k}, now) ==
            Retention.WithoutSnapshots(db, done + {k}, now)
  {
    hide Retention.RowsNaming, Retention.RefsFromSnapshots, Retention.Lowered, Retention.ObjectsOf;
    var mid := Retention.WithoutSnapshots(db, done, now);
    var left := Retention.WithoutSnapshots(mid, {k}, now);
    var right := Retention.WithoutSnapshots(db, done + {k}, now);
    ObjectsOfOneMore(done, k);
    assert left.snapshots == right.snapshots;
    assert left.snapshotRefs == right.snapshotRefs;
    forall o | o in db.objects ensures left.objects[o] == right.objects[o] {
      RowsNamingOneMore(done, k, o);
      SnapshotRefsOneMore(db, done, k, now, o);
      LoweredTwice(db.objects[o],
                   |Retention.RowsNaming(done, o)| + |Retention.RefsFromSnapshots(db, Retention.ObjectsOf(done), o)|,
                   |Retention.RowsNaming({k}, o)|
                       + |Retention.RefsFromSnapshots(mid, Retention.ObjectsOf({k}), o)|, now);
    }
    assert left.objects == right.objects;
  }

  lemma OneSnapshot(db: Db, k: SnapshotKey, refs: set<ObjectId>, now: Time)
    requires refs == set r | r in db.snapshotRefs && r.0 == k.2 :: r.1
    ensures Retention.WithoutSnapshots(db, {k}, now) ==
            db.(snapshots := db.snapshots - {k},
                snapshotRefs := (set r | r in db.snapshotRefs && r.0 != k.2),
                objects := LoweredOnce(LoweredOnce(db.objects, {k.2}, now), refs, now))
  {
    hide Retention.Lowered, Retention.RowsNaming, Retention.RefsFromSnapshots;
    var next := Retention.WithoutSnapshots(db, {k}, now);
    ObjectsOfOneMore({}, k);
    assert next.snapshots == db.snapshots - {k};
    assert next.snapshotRefs == set r | r in db.snapshotRefs && r.0 != k.2;
    forall o | o in db.objects
      ensures next.objects[o] == LoweredOnce(LoweredOnce(db.objects, {k.2}, now), refs, now)[o]
    {
      OneSnapshotObject(db, k, refs, o);
      LoweredTwice(db.objects[o], 1, 1, now);
      LoweredNone(db.objects[o], now);
    }
    assert next.objects == LoweredOnce(LoweredOnce(db.objects, {k.2}, now), refs, now);
  }

  lemma OneSnapshotObject(db: Db, k: SnapshotKey, refs: set<ObjectId>, o: ObjectId)
    requires refs == set r | r in db.snapshotRefs && r.0 == k.2 :: r.1
    ensures |Retention.RowsNaming({k}, o)| == if o == k.2 then 1 else 0
    ensures |Retention.RefsFromSnapshots(db, {k.2}, o)| == if o in refs then 1 else 0
  {
    assert Retention.RowsNaming({k}, o) == if o == k.2 then {k} else {};
    assert o in refs <==> (k.2, o) in db.snapshotRefs by {
      assert (k.2, o) in db.snapshotRefs ==> (k.2, o).1 in refs;
    }
    assert Retention.RefsFromSnapshots(db, {k.2}, o) == if (k.2, o) in db.snapshotRefs then {k.2} else {};
  }

  lemma LoweredNone(row: ObjectRow, now: Time)
    ensures Retention.Lowered(row, 0, now) == row
  {}
}
