/**
  What a pruning pass and a purge take, row by row, and what over every run they may never take: an event
  younger than the retention, and an object that was referenced within the zero-reference retention.
*/
module RetentionEffects {
  import opened Records
  import opened EventLog
  import opened Tables
  import opened ServerState
  import opened SubmitProofs
  import opened HorizonProofs
  import opened CountProofs
  import opened ServerInvariant
  import opened RetentionTheorems
  import ET = EventTable
  import ST = SnapshotTable
  import StoreLemmas
  import Retention
  import WorkspacePurge

  // ---- which fetches are answered with a resync

  /**
    A fetch is answered with a resync if and only if its cursor lies below what a new device could still be
    rebuilt from: some root is active, each has a snapshot, and every one of them is newer than the cursor; or
    no root is active and the cursor is behind the head.
  */
  lemma ResyncIff(w: World, ws: WorkspaceId, after: int, limit: nat)
    requires Reachable(w) && ws in w.logs && 0 <= after
    ensures ET.Fetch(w.db, ws, after, limit).ResyncRequired? <==>
              && (forall k | k in ActiveRoots(w.db, ws) ::
                    w.db.roots[k].snapshotSeq.Some? && after < w.db.roots[k].snapshotSeq.value)
              && (ActiveRoots(w.db, ws) == {} ==> after < Latest(w.logs[ws]))
    ensures ws in w.db.workspaces
    ensures ET.Fetch(w.db, ws, after, limit).ResyncRequired? ==>
              ET.Fetch(w.db, ws, after, limit) == ET.ResyncRequired(RetainedFloor(w.db, ws))
  {
    hide Reachable, KeysOk, NamesOk, CountsOk, RootsOk, HeadsOk, EventsOk, HorizonOk, LogOk, ET.Ascending;
    hide RetainedFloor;
    ReachableStatesAreSound(w);
    ReadLog(w, ws);
    FloorAboveIff(w.db, ws, after);
  }

  lemma FloorAboveIff(db: Db, ws: WorkspaceId, after: int)
    requires ws in db.workspaces && 0 <= after
    ensures after < RetainedFloor(db, ws) <==>
              && (forall k | k in ActiveRoots(db, ws) ::
                    db.roots[k].snapshotSeq.Some? && after < db.roots[k].snapshotSeq.value)
              && (ActiveRoots(db, ws) == {} ==> after < db.workspaces[ws].current)
  {
    var active := ActiveRoots(db, ws);
    if active != {} && forall k | k in active :: db.roots[k].snapshotSeq.Some? {
      var k := Pick(active);
      assert db.roots[k].snapshotSeq.value in SnapshotSeqs(db, ws);
      var x := Least(SnapshotSeqs(db, ws));
      var l :| l in active && db.roots[l].snapshotSeq.value == x;
      assert forall r | r in active :: db.roots[r].snapshotSeq.value in SnapshotSeqs(db, ws);
    }
  }

  // ---- a pruning pass, row by row

  /**
    A pass takes an event if and only if its workspace's floor has reached it and the retention is over, with the
    event's reference rows; and a snapshot row if and only if the retention is over and its root is gone, removed
    or points to another snapshot. Everything it leaves is as it was.
  */
  lemma PruneTakesExactly(db: Db, at: Time, retention: int, zeroRetention: int)
    ensures var next := Retention.Prune(db, at, retention, zeroRetention);
            && (forall s :: s in next.events <==>
                  && s in db.events
                  && var e := db.events[s];
                     !(e.ws in db.workspaces && s <= db.workspaces[e.ws].floor && e.createdAt <= at - retention))
            && (forall s | s in next.events :: next.events[s] == db.events[s])
            && (forall r :: r in next.eventRefs <==> r in db.eventRefs && (r.0 in db.events ==> r.0 in next.events))
            && (forall k :: k in next.snapshots <==>
                  && k in db.snapshots
                  && (at - retention < db.snapshots[k].createdAt
                      || ((k.0, k.1) in db.roots && db.roots[(k.0, k.1)].removed.None?
                          && (db.roots[(k.0, k.1)].snapshot.None? || db.roots[(k.0, k.1)].snapshot.value == k.2))))
            && (forall k | k in next.snapshots :: next.snapshots[k] == db.snapshots[k])
            && next.roots == db.roots && next.heads == db.heads && next.workspaces == db.workspaces
            && next.nextSeq == db.nextSeq
            && (forall v :: v in next.visible <==> v in db.visible && (v.1 in db.objects ==> v.1 in next.objects))
  {
    hide Retention.Lowered, Retention.RefsFrom, Retention.RowsNaming, Retention.RefsFromSnapshots, Retention.ZeroSince;
    hide Retention.ObjectsOf;
  }

  /** The rows naming an object that a pass takes. */
  ghost function Dropped(db: Db, at: Time, retention: int, o: ObjectId): nat {
    var mid := Retention.AfterEvents(db, at, retention);
    var keys := Retention.ExpiredSnapshots(mid, at - retention);
    |Retention.RefsFrom(db, Retention.ExpiredEvents(db, at - retention), o)|
    + (|Retention.RowsNaming(keys, o)| + |Retention.RefsFromSnapshots(mid, Retention.ObjectsOf(keys), o)|)
  }

  lemma PrunedRow(db: Db, at: Time, retention: int, zeroRetention: int, o: ObjectId)
    requires o in db.objects
    ensures var row := Retention.Lowered(db.objects[o], Dropped(db, at, retention, o), at);
            var next := Retention.Prune(db, at, retention, zeroRetention);
            && (o in next.objects ==> next.objects[o] == row)
            && (o !in next.objects <==> row.refCount == 0 && Retention.ZeroSince(row) <= at - zeroRetention)
            && (o in Retention.PrunedObjects(db, at, retention, zeroRetention) <==> o !in next.objects)
  {
    hide Retention.Lowered, Retention.ZeroSince, Retention.RefsFrom, Retention.RowsNaming, Retention.RefsFromSnapshots;
    hide Retention.ExpiredEvents, Retention.ExpiredSnapshots, Retention.ObjectsOf;
    var mid := Retention.AfterEvents(db, at, retention);
    var keys := Retention.ExpiredSnapshots(mid, at - retention);
    var j := |Retention.RefsFrom(db, Retention.ExpiredEvents(db, at - retention), o)|;
    var k := |Retention.RowsNaming(keys, o)| + |Retention.RefsFromSnapshots(mid, Retention.ObjectsOf(keys), o)|;
    assert mid.objects[o] == Retention.Lowered(db.objects[o], j, at);
    var last := Retention.AfterSnapshots(db, at, retention);
    assert last.objects[o] == Retention.Lowered(mid.objects[o], k, at);
    StoreLemmas.LoweredTwice(db.objects[o], j, k, at);
  }

  lemma DroppedAreRows(db: Db, at: Time, retention: int, zeroRetention: int, o: ObjectId)
    ensures References(db, o) ==
            References(Retention.Prune(db, at, retention, zeroRetention), o) + Dropped(db, at, retention, o)
  {
    hide References, Retention.ExpiredEvents, Retention.Lowered, Retention.WithoutEvents, Retention.WithoutSnapshots;
    hide Retention.RefsFrom, Retention.RowsNaming, Retention.RefsFromSnapshots, Retention.ObjectsOf;
    hide Retention.ExpiredObjects;
    EventRefsSplit(db, Retention.ExpiredEvents(db, at - retention), at, o);
    var mid := Retention.AfterEvents(db, at, retention);
    var keys := Retention.ExpiredSnapshots(mid, at - retention);
    SnapshotsSplit(mid, keys, at, o);
    SameRowsSameReferences(Retention.AfterSnapshots(db, at, retention),
        Retention.Prune(db, at, retention, zeroRetention), o);
  }

  lemma SnapshotsSplit(db: Db, keys: set<SnapshotKey>, at: Time, o: ObjectId)
    requires keys <= db.snapshots.Keys
    ensures References(db, o) == References(Retention.WithoutSnapshots(db, keys, at), o)
            + (|Retention.RowsNaming(keys, o)| + |Retention.RefsFromSnapshots(db, Retention.ObjectsOf(keys), o)|)
  {
    hide SnapshotsOf, SnapshotRefsTo, EventRefsTo, Retention.RowsNaming, Retention.RefsFromSnapshots;
    hide Retention.WithoutSnapshots;
    SnapshotRowsSplit(db, keys, at, o);
    SnapshotRefsSplit(db, keys, at, o);
  }

  /**
    Where counts equal rows, a pass deletes an object if and only if it leaves no row that names it and the
    object has been without one for the zero-reference retention: since its mark if it had none, since now
    otherwise.
  */
  lemma PruneDeletesIff(w: World, at: Time, retention: int, zeroRetention: int, o: ObjectId)
    requires CountsExact(w.db) && o in w.db.objects
    ensures var next := Retention.Prune(w.db, at, retention, zeroRetention);
            var row := w.db.objects[o];
            o !in next.objects <==>
              && References(next, o) == 0
              && if References(w.db, o) > 0 then zeroRetention <= 0
                 else (if row.zeroRefAt.Some? then row.zeroRefAt.value else row.createdAt) <= at - zeroRetention
  {
    hide References, Retention.Prune, Dropped;
    PrunedRow(w.db, at, retention, zeroRetention, o);
    DroppedAreRows(w.db, at, retention, zeroRetention, o);
  }

  // ---- over every run: what was referenced lately stays

  /** An object carries its zero mark exactly while its count is zero. */
  ghost predicate Marked(db: Db) {
    forall o | o in db.objects ::
      0 <= db.objects[o].refCount && (db.objects[o].refCount == 0 <==> db.objects[o].zeroRefAt.Some?)
  }

  function When(step: Step): Option<Time> {
    match step
    case CreateWorkspace(_) => None
    case Upload(_, _, at) => Some(at)
    case SubmitEvent(_, _, _, at) => Some(at)
    case SaveSnapshot(_, _, _, at) => Some(at)
    case Prune(at, _, _, _) => Some(at)
    case Purge(_, at) => Some(at)
  }

  /** The clock does not run backwards. */
  ghost predicate Timely(steps: seq<Step>) {
    forall i, j | 0 <= i < j < |steps| && When(steps[i]).Some? && When(steps[j]).Some? ::
      When(steps[i]).value <= When(steps[j]).value
  }

  /** How one step may move an object's row. */
  ghost predicate MovesRow(step: Step, objects: map<ObjectId, ObjectRow>, next: map<ObjectId, ObjectRow>, o: ObjectId) {
    o in next ==>
      && 0 <= next[o].refCount && (next[o].refCount == 0 <==> next[o].zeroRefAt.Some?)
      && if o !in objects then When(step).Some? && next[o].refCount == 0 && next[o].zeroRefAt == When(step)
         else if next[o].refCount == 0 && objects[o].refCount > 0 then next[o].zeroRefAt == When(step)
         else if next[o].refCount == 0 then next[o].zeroRefAt == objects[o].zeroRefAt || next[o].zeroRefAt == When(step)
         else true
  }

  lemma StepMovesRow(w: World, step: Step, o: ObjectId)
    requires Inv(w) && Marked(w.db)
    ensures MovesRow(step, w.db.objects, Next(w, step).db.objects, o)
  {
    hide Inv, AfterCreate, AfterUpload, AfterSubmit, AfterSave, AfterPrune, AfterPurge, ET.Check, ST.Check, MovesRow;
    match step
    case CreateWorkspace(ws) => CreateMovesRow(w, ws, o);
    case Upload(ws, x, at) => UploadMovesRow(w, ws, x, at, o);
    case SubmitEvent(ws, device, req, at) => SubmitMovesRow(w, ws, device, req, at, o);
    case SaveSnapshot(ws, device, snap, at) => SaveMovesRow(w, ws, device, snap, at, o);
    case Prune(at, retention, zeroRetention, unlinked) => PruneMovesRow(w, at, retention, zeroRetention, unlinked, o);
    case Purge(ws, at) => PurgeMovesRow(w, ws, at, o);
  }

  lemma CreateMovesRow(w: World, ws: WorkspaceId, o: ObjectId)
    requires Marked(w.db)
    ensures MovesRow(CreateWorkspace(ws), w.db.objects, AfterCreate(w, ws).db.objects, o)
  {}

  lemma UploadMovesRow(w: World, ws: WorkspaceId, x: ObjectId, at: Time, o: ObjectId)
    requires Marked(w.db)
    ensures MovesRow(Upload(ws, x, at), w.db.objects, AfterUpload(w, ws, x, at).db.objects, o)
  {
    hide AfterUpload;
    UploadedObjects(w, ws, x, at);
  }

  /** A new object starts without a reference and marked; one that is there keeps its count and mark. */
  lemma UploadedObjects(w: World, ws: WorkspaceId, x: ObjectId, at: Time)
    ensures AfterUpload(w, ws, x, at).db.objects ==
            if x in w.db.objects then w.db.objects else w.db.objects[x := ObjectRow(0, Some(at), at)]
  {
    hide WorkspacePurge.Associated, WorkspacePurge.Stored;
    StoredObjects(w.db, x, at);
    AssociatedObjects(WorkspacePurge.Stored(w.db, x, at), ws, x);
  }

  lemma StoredObjects(db: Db, x: ObjectId, at: Time)
    ensures WorkspacePurge.Stored(db, x, at).objects ==
            if x in db.objects then db.objects else db.objects[x := ObjectRow(0, Some(at), at)]
  {}

  lemma AssociatedObjects(db: Db, ws: WorkspaceId, x: ObjectId)
    ensures WorkspacePurge.Associated(db, ws, x).objects == db.objects
  {}

  lemma SubmitMovesRow(w: World, ws: WorkspaceId, device: DeviceId, req: ET.Request, at: Time, o: ObjectId)
    requires Inv(w) && Marked(w.db)
    ensures MovesRow(SubmitEvent(ws, device, req, at), w.db.objects, AfterSubmit(w, ws, device, req, at).db.objects, o)
  {
    hide KeysOk, NamesOk, CountsOk, RootsOk, HeadsOk, EventsOk, FloorsOk, HorizonOk, LogOk, AfterSubmit, ET.Check;
    if ET.Check(w.db, ws, req).None? {
      CheckedExists(w.db, ws, req);
      SubmitFields(w, ws, device, req, at);
    } else {
      RefusedSubmit(w, ws, device, req, at);
    }
  }

  lemma SaveMovesRow(w: World, ws: WorkspaceId, device: DeviceId, req: ST.Request, at: Time, o: ObjectId)
    requires Marked(w.db)
    ensures MovesRow(SaveSnapshot(ws, device, req, at), w.db.objects, AfterSave(w, ws, device, req, at).db.objects, o)
  {
    hide AfterSave, ST.Check, WithFloor, ST.Raise;
    if ST.Check(w.db, ws, req).None? {
      SaveFields(w, ws, device, req, at);
    } else {
      RefusedSave(w, ws, device, req, at);
    }
  }

  lemma PruneMovesRow(w: World, at: Time, retention: int, zeroRetention: int, unlinked: set<ObjectId>, o: ObjectId)
    requires Marked(w.db)
    ensures MovesRow(Prune(at, retention, zeroRetention, unlinked), w.db.objects,
                     AfterPrune(w, at, retention, zeroRetention, unlinked).db.objects, o)
  {
    hide Retention.Prune, Dropped, HighestPruned, Retention.PrunedObjects, Retention.ExpiredEvents;
    PruneFields(w, at, retention, zeroRetention);
    if o in w.db.objects { PrunedRow(w.db, at, retention, zeroRetention, o); }
  }

  lemma PurgeMovesRow(w: World, ws: WorkspaceId, at: Time, o: ObjectId)
    requires Marked(w.db)
    ensures MovesRow(Purge(ws, at), w.db.objects, AfterPurge(w, ws, at).db.objects, o)
  {
    hide References, WorkspacePurge.WithoutWorkspace, WorkspacePurge.Candidates, WorkspacePurge.Deletable;
    BareObjects(w.db, ws);
  }

  lemma {:induction false} RunIsMarked(steps: seq<Step>)
    ensures Marked(Run(EMPTY_WORLD, steps).db)
    decreases |steps|
  {
    hide Inv, Next;
    if steps != [] {
      var n := |steps| - 1;
      RunIsMarked(steps[..n]);
      ReachableByRun(steps[..n]);
      ReachableStatesAreSound(Run(EMPTY_WORLD, steps[..n]));
      forall o | o in Run(EMPTY_WORLD, steps).db.objects
        ensures var row := Run(EMPTY_WORLD, steps).db.objects[o];
                0 <= row.refCount && (row.refCount == 0 <==> row.zeroRefAt.Some?)
      {
        StepMovesRow(Run(EMPTY_WORLD, steps[..n]), steps[n], o);
      }
    }
  }

  ghost predicate IsCounted(w: World, o: ObjectId) {
    o in w.db.objects && w.db.objects[o].refCount > 0
  }

  /** The mark of an object that nothing references is not before any step taken while something did. */
  lemma {:induction false} MarkIsLate(steps: seq<Step>, n: nat, o: ObjectId)
    requires Timely(steps) && n < |steps| && IsCounted(Run(EMPTY_WORLD, steps[..n]), o) && When(steps[n]).Some?
    requires o in Run(EMPTY_WORLD, steps).db.objects && Run(EMPTY_WORLD, steps).db.objects[o].refCount == 0
    ensures var mark := Run(EMPTY_WORLD, steps).db.objects[o].zeroRefAt;
            mark.Some? && When(steps[n]).value <= mark.value
    decreases |steps|
  {
    hide Inv, Next, When;
    var m := |steps| - 1;
    var w := Run(EMPTY_WORLD, steps[..m]);
    RunIsMarked(steps[..m]);
    ReachableByRun(steps[..m]);
    ReachableStatesAreSound(w);
    StepMovesRow(w, steps[m], o);
    if n < m {
      assert steps[..m][..n] == steps[..n];
      if o in w.db.objects && w.db.objects[o].refCount == 0 {
        MarkIsLate(steps[..m], n, o);
      }
    }
  }

  /**
    Over every run whose clock does not run backwards: a pass collects nothing that was referenced within the
    zero-reference retention. Every step taken while a row named the object is at least that old.
  */
  lemma CollectedWasUnused(steps: seq<Step>, at: Time, retention: int, zeroRetention: int, n: nat, o: ObjectId)
    requires Timely(steps) && 0 < zeroRetention
    requires o in Retention.PrunedObjects(Run(EMPTY_WORLD, steps).db, at, retention, zeroRetention)
    requires n < |steps| && When(steps[n]).Some?
    requires var before := Run(EMPTY_WORLD, steps[..n]).db; o in before.objects && References(before, o) > 0
    ensures When(steps[n]).value <= at - zeroRetention
  {
    hide Run, Dropped, Retention.Prune, References, KeysOk, NamesOk, LogsOk, RootsOk, HeadsOk, EventsOk, FloorsOk;
    hide HorizonOk, When, Retention.ExpiredEvents, Retention.ExpiredSnapshots, Retention.Lowered;
    var w := Run(EMPTY_WORLD, steps);
    PrunedAreStored(w.db, at, retention, zeroRetention, o);
    PrunedRow(w.db, at, retention, zeroRetention, o);
    RunIsMarked(steps);
    OldMark(w.db.objects[o], Dropped(w.db, at, retention, o), at, zeroRetention);
    ReachableByRun(steps[..n]);
    ReachableStatesAreSound(Run(EMPTY_WORLD, steps[..n]));
    MarkIsLate(steps, n, o);
  }

  lemma PrunedAreStored(db: Db, at: Time, retention: int, zeroRetention: int, o: ObjectId)
    requires o in Retention.PrunedObjects(db, at, retention, zeroRetention)
    ensures o in db.objects
  {
    hide Retention.Lowered, Retention.ExpiredEvents, Retention.ExpiredSnapshots, Retention.RefsFrom;
    hide Retention.RowsNaming, Retention.RefsFromSnapshots, Retention.ObjectsOf;
  }

  lemma OldMark(row: ObjectRow, k: nat, at: Time, zeroRetention: int)
    requires 0 <= row.refCount && (row.refCount == 0 <==> row.zeroRefAt.Some?) && 0 < zeroRetention
    requires var low := Retention.Lowered(row, k, at);
             low.refCount == 0 && Retention.ZeroSince(low) <= at - zeroRetention
    ensures row.refCount == 0 && row.zeroRefAt.value <= at - zeroRetention
  {}

  // ---- over every run: a young event stays

  /** No pass of the run is late enough for an event of that time. */
  ghost predicate TooEarly(steps: seq<Step>, createdAt: Time) {
    forall i | 0 <= i < |steps| && steps[i].Prune? :: steps[i].at - steps[i].retention < createdAt
  }

  ghost predicate IsStored(w: World, e: Event) {
    e.seqno in w.db.events && w.db.events[e.seqno] == e
  }

  lemma StepKeepsYoung(w: World, step: Step, e: Event)
    requires Inv(w) && IsStored(w, e) && !(step.Purge? && step.ws == e.ws)
    requires step.Prune? ==> step.at - step.retention < e.createdAt
    ensures IsStored(Next(w, step), e)
  {
    hide Inv, AfterCreate, AfterUpload, AfterSubmit, AfterSave, AfterPrune, AfterPurge, ET.Check, ST.Check, IsStored;
    match step
    case CreateWorkspace(ws) => CreateKeepsYoung(w, ws, e);
    case Upload(ws, o, at) => UploadKeepsYoung(w, ws, o, at, e);
    case SubmitEvent(ws, device, req, at) => SubmitKeepsYoung(w, ws, device, req, at, e);
    case SaveSnapshot(ws, device, snap, at) => SaveKeepsYoung(w, ws, device, snap, at, e);
    case Prune(at, retention, zeroRetention, unlinked) => PruneKeepsYoung(w, at, retention, zeroRetention, unlinked, e);
    case Purge(ws, at) => PurgeKeepsYoung(w, ws, at, e);
  }

  lemma CreateKeepsYoung(w: World, ws: WorkspaceId, e: Event)
    requires IsStored(w, e)
    ensures IsStored(AfterCreate(w, ws), e)
  {}

  lemma UploadKeepsYoung(w: World, ws: WorkspaceId, o: ObjectId, at: Time, e: Event)
    requires IsStored(w, e)
    ensures IsStored(AfterUpload(w, ws, o, at), e)
  {
    hide AfterUpload;
    UploadFields(w, ws, o, at);
  }

  lemma SubmitKeepsYoung(w: World, ws: WorkspaceId, device: DeviceId, req: ET.Request, at: Time, e: Event)
    requires Inv(w) && IsStored(w, e)
    ensures IsStored(AfterSubmit(w, ws, device, req, at), e)
  {
    hide AfterSubmit, ET.Check, NamesOk, CountsOk, RootsOk, HeadsOk, EventsOk, FloorsOk, HorizonOk, LogOk;
    if ET.Check(w.db, ws, req).None? {
      CheckedExists(w.db, ws, req);
      SubmitFields(w, ws, device, req, at);
    } else {
      RefusedSubmit(w, ws, device, req, at);
    }
  }

  lemma SaveKeepsYoung(w: World, ws: WorkspaceId, device: DeviceId, req: ST.Request, at: Time, e: Event)
    requires IsStored(w, e)
    ensures IsStored(AfterSave(w, ws, device, req, at), e)
  {
    hide AfterSave, ST.Check, ST.Raise, WithFloor;
    if ST.Check(w.db, ws, req).None? {
      SaveFields(w, ws, device, req, at);
    } else {
      RefusedSave(w, ws, device, req, at);
    }
  }

  lemma PruneKeepsYoung(w: World, at: Time, retention: int, zeroRetention: int, unlinked: set<ObjectId>, e: Event)
    requires IsStored(w, e) && at - retention < e.createdAt
    ensures IsStored(AfterPrune(w, at, retention, zeroRetention, unlinked), e)
  {
    hide Retention.Prune, Retention.PrunedObjects, HighestPruned;
    PruneTakesExactly(w.db, at, retention, zeroRetention);
  }

  lemma PurgeKeepsYoung(w: World, ws: WorkspaceId, at: Time, e: Event)
    requires IsStored(w, e) && ws != e.ws
    ensures IsStored(AfterPurge(w, ws, at), e)
  {
    hide WorkspacePurge.Purged, WorkspacePurge.Candidates;
    PurgeFields(w.db, ws, WorkspacePurge.Candidates(w.db, ws), at);
  }

  /** Over every run that does not purge its workspace, an event younger than the retention is stored. */
  lemma {:induction false} YoungEventsStay(w: World, steps: seq<Step>, e: Event)
    requires Inv(w) && IsStored(w, e)
    requires Unpurged(steps, e.ws) && TooEarly(steps, e.createdAt)
    ensures IsStored(Run(w, steps), e)
    decreases |steps|
  {
    hide Inv, Next, IsStored;
    if steps != [] {
      var n := |steps| - 1;
      YoungEventsStay(w, steps[..n], e);
      RunKeepsInv(w, steps[..n]);
      StepKeepsYoung(Run(w, steps[..n]), steps[n], e);
    }
  }

  // ---- a purge, row by row

  /** A purge leaves no row of its workspace, and every row of every other one. */
  lemma PurgeTakesExactly(w: World, ws: WorkspaceId, at: Time)
    requires Inv(w) && ws in w.db.workspaces
    ensures var db, next := w.db, AfterPurge(w, ws, at).db;
            && (forall v :: v in next.workspaces <==> v in db.workspaces && v != ws)
            && (forall v | v in next.workspaces :: next.workspaces[v] == db.workspaces[v])
            && (forall k :: k in next.roots <==> k in db.roots && k.0 != ws)
            && (forall k | k in next.roots :: next.roots[k] == db.roots[k])
            && (forall k :: k in next.heads <==> k in db.heads && k.0 != ws)
            && (forall k | k in next.heads :: next.heads[k] == db.heads[k])
            && (forall s :: s in next.events <==> s in db.events && db.events[s].ws != ws)
            && (forall s | s in next.events :: next.events[s] == db.events[s])
            && (forall k :: k in next.snapshots <==> k in db.snapshots && k.0 != ws)
            && (forall k | k in next.snapshots :: next.snapshots[k] == db.snapshots[k])
            && (forall v :: v in next.visible <==> v in db.visible && v.0 != ws)
  {
    hide CountsOk, RootsOk, HeadsOk, EventsOk, FloorsOk, HorizonOk, LogOk, WorkspacePurge.Purged, NamesOk, KeysOk;
    hide WorkspacePurge.Candidates, WorkspacePurge.OwnSnapshotObjects, WorkspacePurge.SharedSnapshotObjects;
    PurgeFields(w.db, ws, WorkspacePurge.Candidates(w.db, ws), at);
  }

  /**
    It deletes an object, row and blob, if and only if no other workspace may name it and this one may, and it is
    no chunk that a snapshot of another workspace still lists, or that is listed under no snapshot of this one.
  */
  lemma PurgeDeletesIff(w: World, ws: WorkspaceId, at: Time, o: ObjectId)
    requires Reachable(w) && ws in w.db.workspaces && o in w.db.objects
    ensures var next := AfterPurge(w, ws, at);
            && (o !in next.db.objects <==>
                  && (ws, o) in w.db.visible && (forall v | (v, o) in w.db.visible :: v == ws)
                  && (forall r | r in w.db.snapshotRefs && r.1 == o ::
                        && (exists root :: (ws, root, r.0) in w.db.snapshots)
                        && (forall k | k in w.db.snapshots && k.2 == r.0 :: k.0 == ws)))
            && next.blobs == w.blobs - (w.db.objects.Keys - next.db.objects.Keys)
  {
    hide Reachable, CountsOk, RootsOk, HeadsOk, EventsOk, FloorsOk, HorizonOk, LogOk, References, LogsOk;
    ReachableStatesAreSound(w);
    BareObjects(w.db, ws);
    var bare := WorkspacePurge.WithoutWorkspace(w.db, ws);
    var counted := WorkspacePurge.Recounted(bare, at);
    SameRowsSameReferences(bare, counted, o);
    ReferencedWhenNamed(bare, o);
    OnlyHere(w.db, ws, o);
    LeftRefs(w.db, ws, o);
  }

  /** An object only this workspace may name is named by no event or snapshot of another. */
  lemma OnlyHere(db: Db, ws: WorkspaceId, o: ObjectId)
    requires KeysOk(db) && NamesOk(db)
    ensures (forall v | (v, o) in db.visible :: v == ws) ==>
              var bare := WorkspacePurge.WithoutWorkspace(db, ws);
              && (forall r | r in bare.eventRefs :: r.1 != o) && (forall k | k in bare.snapshots :: k.2 != o)
              && (forall v | v in bare.visible :: v.1 != o)
  {
    hide WorkspacePurge.OwnSnapshotObjects, WorkspacePurge.SharedSnapshotObjects;
  }

  lemma LeftRefs(db: Db, ws: WorkspaceId, o: ObjectId)
    ensures var bare := WorkspacePurge.WithoutWorkspace(db, ws);
            (forall r | r in bare.snapshotRefs :: r.1 != o) <==>
            (forall r | r in db.snapshotRefs && r.1 == o ::
               && (exists root :: (ws, root, r.0) in db.snapshots)
               && (forall k | k in db.snapshots && k.2 == r.0 :: k.0 == ws))
  {
    var own, shared := WorkspacePurge.OwnSnapshotObjects(db, ws), WorkspacePurge.SharedSnapshotObjects(db, ws);
    forall s: ObjectId
      ensures s in own <==> exists root :: (ws, root, s) in db.snapshots
      ensures s in shared <==> !forall k | k in db.snapshots && k.2 == s :: k.0 == ws
    {
      if s in own {
        var k :| k in db.snapshots && k.0 == ws && k.2 == s;
        assert (ws, k.1, s) in db.snapshots;
      }
      if root :| (ws, root, s) in db.snapshots { assert (ws, root, s).2 in own; }
    }
  }
}
