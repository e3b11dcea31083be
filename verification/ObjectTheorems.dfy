/**
  Objects over whole runs: counts against rows, the safety of garbage collection, and the promise that
  everything the server advertises can be downloaded.
*/
module ObjectTheorems {
  import opened Records
  import opened Tables
  import opened ServerState
  import opened SubmitProofs
  import opened CountProofs
  import opened ServerInvariant
  import ET = EventTable
  import ST = SnapshotTable
  import Retention
  import WorkspacePurge

  /** In every reachable state no count is below its rows, so a pass deletes nothing that is named. */
  lemma CollectionIsSafe(w: World, at: Time, retention: int, zeroRetention: int, o: ObjectId)
    requires Reachable(w)
    ensures o in w.db.objects ==> References(w.db, o) <= w.db.objects[o].refCount
    ensures o in Retention.PrunedObjects(w.db, at, retention, zeroRetention) ==>
              Unnamed(Retention.Prune(w.db, at, retention, zeroRetention), o)
  {
    hide Reachable, References, Retention.Prune, Retention.PrunedObjects, KeysOk, NamesOk, RootsOk, HeadsOk, EventsOk;
    hide FloorsOk, HorizonOk, LogOk;
    ReachableStatesAreSound(w);
    if o in Retention.PrunedObjects(w.db, at, retention, zeroRetention) {
      PrunedObjectsAreUnreferenced(w.db, at, retention, zeroRetention, o);
    }
  }

  /** The object is gone and no row mentions it. */
  ghost predicate Unnamed(db: Db, o: ObjectId) {
    && o !in db.objects
    && (forall r | r in db.eventRefs :: r.1 != o)
    && (forall k | k in db.snapshots :: k.2 != o)
    && (forall r | r in db.snapshotRefs :: r.1 != o)
  }

  /** Every event the step submits lists each object once. */
  ghost predicate DuplicateFree(step: Step) {
    step.SubmitEvent? ==> Distinct(step.req.refs)
  }

  lemma StepKeepsCountsExact(w: World, step: Step)
    requires Inv(w) && CountsExact(w.db) && DuplicateFree(step)
    ensures CountsExact(Next(w, step).db)
  {
    hide Inv, CountsExact, AfterCreate, AfterUpload, AfterSubmit, AfterSave, AfterPrune, AfterPurge;
    match step
    case CreateWorkspace(ws) => CreateKeepsInv(w, ws);
    case Upload(ws, o, at) => UploadKeepsInv(w, ws, o, at);
    case SubmitEvent(ws, device, req, at) => SubmitExact(w, ws, device, req, at);
    case SaveSnapshot(ws, device, snap, at) => SaveExact(w, ws, device, snap, at);
    case Prune(at, retention, zeroRetention, unlinked) => PruneKeepsInv(w, at, retention, zeroRetention, unlinked);
    case Purge(ws, at) => PurgeKeepsInv(w, ws, at);
  }

  lemma SubmitExact(w: World, ws: WorkspaceId, device: DeviceId, req: ET.Request, at: Time)
    requires Inv(w) && CountsExact(w.db) && Distinct(req.refs)
    ensures CountsExact(AfterSubmit(w, ws, device, req, at).db)
  {
    hide CountsExact, CountsOk, RootsOk, HeadsOk, EventsOk, FloorsOk, HorizonOk, LogOk, ET.Check, AfterSubmit, KeysOk;
    hide NamesOk;
    if ET.Check(w.db, ws, req).None? {
      CheckedExists(w.db, ws, req);
      SubmitKeepsRowParts(w, AfterSubmit(w, ws, device, req, at), ws, device, req, at);
    } else {
      RefusedSubmit(w, ws, device, req, at);
    }
  }

  lemma SaveExact(w: World, ws: WorkspaceId, device: DeviceId, req: ST.Request, at: Time)
    requires CountsExact(w.db)
    ensures CountsExact(AfterSave(w, ws, device, req, at).db)
  {
    hide CountsExact, ST.Check, AfterSave, ST.Committed;
    if ST.Check(w.db, ws, req).None? {
      SaveFields(w, ws, device, req, at);
      SaveKeepsCounts(w.db, ws, device, req, at);
      SameRowsKeepCounts(ST.Committed(w.db, ws, device, req, at), AfterSave(w, ws, device, req, at).db);
    } else {
      RefusedSave(w, ws, device, req, at);
    }
  }

  /**
    Conservation: when no request repeats an id, every count equals its rows after every run. Whatever
    went before, the purge of an existing workspace restores that equality, and it then lasts.
  */
  lemma {:induction false} CountsAreConserved(w: World, steps: seq<Step>)
    requires Inv(w) && CountsExact(w.db)
    requires forall i | 0 <= i < |steps| :: DuplicateFree(steps[i])
    ensures CountsExact(Run(w, steps).db)
    decreases |steps|
  {
    hide Inv, Next, CountsExact, DuplicateFree;
    if steps != [] {
      var n := |steps| - 1;
      CountsAreConserved(w, steps[..n]);
      RunKeepsInv(w, steps[..n]);
      StepKeepsCountsExact(Run(w, steps[..n]), steps[n]);
    }
  }

  lemma PurgeRestoresCounts(w: World, ws: WorkspaceId, at: Time, steps: seq<Step>)
    requires Inv(w) && ws in w.db.workspaces
    requires forall i | 0 <= i < |steps| :: DuplicateFree(steps[i])
    ensures CountsExact(Run(AfterPurge(w, ws, at), steps).db)
  {
    hide Inv, Run, CountsExact, AfterPurge;
    PurgeKeepsInv(w, ws, at);
    CountsAreConserved(AfterPurge(w, ws, at), steps);
  }

  /** A client of `ws` can fetch the object: it is visible there, has a row, and its blob is on disk. */
  ghost predicate Downloadable(w: World, ws: WorkspaceId, o: ObjectId) {
    IsVisible(w.db, ws, o) && o in w.db.objects && o in w.blobs
  }

  /** The reference rows of a stored event are what its request listed. */
  ghost predicate EventRefsOk(w: World) {
    forall s | s in w.db.events ::
      s in w.refs && forall o :: o in w.refs[s] <==> (s, o) in w.db.eventRefs
  }

  /** A root's latest snapshot has its row. */
  ghost predicate LatestOk(db: Db) {
    forall k | k in db.roots && db.roots[k].snapshot.Some? :: (k.0, k.1, db.roots[k].snapshot.value) in db.snapshots
  }

  /** No two roots share a snapshot object. */
  ghost predicate Unshared(db: Db) {
    forall k, l | k in db.snapshots && l in db.snapshots && k.2 == l.2 :: k == l
  }

  ghost predicate ManifestOk(w: World, k: SnapshotKey)
    requires k in w.manifests
  {
    forall o | o in w.manifests[k] :: (k.2, o) in w.db.snapshotRefs && (k.0, o) in w.db.visible
  }

  ghost predicate ManifestsOk(w: World) {
    && Unshared(w.db)
    && (forall k | k in w.db.snapshots :: k in w.manifests && ManifestOk(w, k))
  }

  lemma SubmitKeepsAdverts(w: World, ws: WorkspaceId, device: DeviceId, req: ET.Request, at: Time)
    requires Inv(w) && EventRefsOk(w) && LatestOk(w.db)
    ensures EventRefsOk(AfterSubmit(w, ws, device, req, at)) && LatestOk(AfterSubmit(w, ws, device, req, at).db)
    ensures ManifestsOk(w) ==> ManifestsOk(AfterSubmit(w, ws, device, req, at))
  {
    hide CountsOk, RootsOk, HeadsOk, EventsOk, FloorsOk, HorizonOk, LogOk, ET.Check, AfterSubmit, EventRefsOk, LatestOk;
    var next := AfterSubmit(w, ws, device, req, at);
    if ET.Check(w.db, ws, req).None? {
      CheckedExists(w.db, ws, req);
      SubmitFields(w, ws, device, req, at);
      assert next.refs == w.refs[w.db.nextSeq := SetOf(req.refs)] by { SubmitRefs(w, ws, device, req, at); }
      SubmitEventRefs(w, next, req);
      SubmitLatest(w.db, next.db, ws, req);
    } else {
      RefusedSubmit(w, ws, device, req, at);
    }
  }

  lemma SubmitRefs(w: World, ws: WorkspaceId, device: DeviceId, req: ET.Request, at: Time)
    requires ET.Check(w.db, ws, req).None? && ws in w.logs
    ensures AfterSubmit(w, ws, device, req, at).refs == w.refs[w.db.nextSeq := SetOf(req.refs)]
  {}

  lemma SubmitEventRefs(w: World, next: World, req: ET.Request)
    requires KeysOk(w.db) && NamesOk(w.db) && EventRefsOk(w)
    requires next.refs == w.refs[w.db.nextSeq := SetOf(req.refs)]
    requires next.db.events.Keys == w.db.events.Keys + {w.db.nextSeq}
    requires next.db.eventRefs == w.db.eventRefs + (set x | x in req.refs :: (w.db.nextSeq, x))
    ensures EventRefsOk(next)
  {
    forall s | s in next.db.events
      ensures s in next.refs && forall o :: o in next.refs[s] <==> (s, o) in next.db.eventRefs
    {
      if s != w.db.nextSeq { assert s in w.db.events; }
    }
  }

  lemma SubmitLatest(db: Db, next: Db, ws: WorkspaceId, req: ET.Request)
    requires LatestOk(db) && next.roots == ET.RootsAfter(db, ws, req) && next.snapshots == db.snapshots
    ensures LatestOk(next)
  {}

  /** The request's object is no other root's snapshot. */
  ghost predicate OwnsObject(db: Db, ws: WorkspaceId, req: ST.Request) {
    forall k | k in db.snapshots && k.2 == req.obj :: k == (ws, req.root, req.obj)
  }

  lemma SaveKeepsAdverts(w: World, ws: WorkspaceId, device: DeviceId, req: ST.Request, at: Time)
    requires EventRefsOk(w) && LatestOk(w.db)
    ensures EventRefsOk(AfterSave(w, ws, device, req, at)) && LatestOk(AfterSave(w, ws, device, req, at).db)
    ensures ManifestsOk(w) && OwnsObject(w.db, ws, req) ==> ManifestsOk(AfterSave(w, ws, device, req, at))
  {
    hide ST.Check, AfterSave, LatestOk, EventRefsOk, ManifestsOk, OwnsObject;
    var next := AfterSave(w, ws, device, req, at);
    if ST.Check(w.db, ws, req).None? {
      SaveFields(w, ws, device, req, at);
      SaveTables(w, ws, device, req, at);
      assert EventRefsOk(next) by { SameEventRefs(w, next); }
      SaveLatest(w.db, next.db, ws, req);
      if ManifestsOk(w) && OwnsObject(w.db, ws, req) { SaveManifests(w, next, ws, req); }
    } else {
      RefusedSave(w, ws, device, req, at);
    }
  }

  lemma SaveTables(w: World, ws: WorkspaceId, device: DeviceId, req: ST.Request, at: Time)
    requires ST.Check(w.db, ws, req).None?
    ensures var next := AfterSave(w, ws, device, req, at);
            var key := (ws, req.root, req.obj);
            && next.refs == w.refs && next.db.events == w.db.events && next.db.eventRefs == w.db.eventRefs
            && next.db.visible == w.db.visible
            && next.db.snapshots.Keys == w.db.snapshots.Keys + {key}
            && next.db.snapshotRefs == w.db.snapshotRefs + (set o | o in req.refs :: (req.obj, o))
            && next.manifests == w.manifests[key := SetOf(req.refs) + (if key in w.db.snapshots && key in w.manifests
                then w.manifests[key] else {})]
            && (ws, req.root) in w.db.roots
            && next.db.roots == w.db.roots[(ws, req.root) := w.db.roots[(ws, req.root)].(snapshot := Some(req.obj),
                snapshotSeq := Some(req.base))]
            && (forall o | o in req.refs :: (ws, o) in w.db.visible)
  {
    hide RetainedFloor, ST.Raise;
  }

  lemma SameEventRefs(w: World, next: World)
    requires EventRefsOk(w) && next.refs == w.refs && next.db.events.Keys == w.db.events.Keys
             && next.db.eventRefs == w.db.eventRefs
    ensures EventRefsOk(next)
  {}

  lemma SaveLatest(db: Db, next: Db, ws: WorkspaceId, req: ST.Request)
    requires LatestOk(db) && (ws, req.root) in db.roots
    requires next.roots == db.roots[(ws, req.root) := db.roots[(ws, req.root)].(snapshot := Some(req.obj),
             snapshotSeq := Some(req.base))]
    requires next.snapshots.Keys == db.snapshots.Keys + {(ws, req.root, req.obj)}
    ensures LatestOk(next)
  {
    forall k | k in next.roots && next.roots[k].snapshot.Some?
      ensures (k.0, k.1, next.roots[k].snapshot.value) in next.snapshots
    {
      assert (k.0, k.1, next.roots[k].snapshot.value) in next.snapshots.Keys;
    }
  }

  lemma SaveManifests(w: World, next: World, ws: WorkspaceId, req: ST.Request)
    requires ManifestsOk(w) && OwnsObject(w.db, ws, req)
    requires next.db.visible == w.db.visible
    requires next.db.snapshots.Keys == w.db.snapshots.Keys + {(ws, req.root, req.obj)}
    requires next.db.snapshotRefs == w.db.snapshotRefs + (set o | o in req.refs :: (req.obj, o))
    requires var key := (ws, req.root, req.obj);
             next.manifests == w.manifests[key := SetOf(req.refs) + (if key in w.db.snapshots && key in w.manifests
                 then w.manifests[key] else {})]
    requires forall o | o in req.refs :: (ws, o) in w.db.visible
    ensures ManifestsOk(next)
  {
    var key := (ws, req.root, req.obj);
    assert Unshared(next.db) by {
      forall k, l | k in next.db.snapshots && l in next.db.snapshots && k.2 == l.2 ensures k == l {
        assert k in next.db.snapshots.Keys && l in next.db.snapshots.Keys;
      }
    }
    forall k | k in next.db.snapshots ensures k in next.manifests && ManifestOk(next, k) {
      assert k in next.db.snapshots.Keys;
      if k in w.db.snapshots { assert ManifestOk(w, k); }
    }
  }

  lemma PruneKeepsAdverts(w: World, at: Time, retention: int, zeroRetention: int, unlinked: set<ObjectId>)
    requires Inv(w) && EventRefsOk(w) && LatestOk(w.db)
    ensures var next := AfterPrune(w, at, retention, zeroRetention, unlinked);
            EventRefsOk(next) && LatestOk(next.db) && (ManifestsOk(w) ==> ManifestsOk(next))
  {
    hide KeysOk, NamesOk, CountsOk, RootsOk, HeadsOk, EventsOk, FloorsOk, HorizonOk, LogOk, HighestPruned, EventRefsOk,
         LatestOk, ManifestsOk,
      Retention.Prune, Retention.PrunedObjects, Retention.ExpiredEvents;
    var next := AfterPrune(w, at, retention, zeroRetention, unlinked);
    PruneTables(w.db, at, retention, zeroRetention);
    var gone := Retention.ExpiredEvents(w.db, at - retention);
    DroppedEventRefs(w, next, gone);
    var mid := Retention.AfterEvents(w.db, at, retention);
    var keys := Retention.ExpiredSnapshots(mid, at - retention);
    RemovedHasNoSnapshot(w);
    KeptLatest(w.db, next.db, keys, at - retention);
    if ManifestsOk(w) {
      var dead := Retention.PrunedObjects(w.db, at, retention, zeroRetention);
      forall o | o in dead ensures forall r | r in next.db.snapshotRefs :: r.1 != o {
        PrunedObjectsAreUnreferenced(w.db, at, retention, zeroRetention, o);
      }
      KeptManifests(w, next, keys, dead);
    }
  }

  lemma PruneTables(db: Db, at: Time, retention: int, zeroRetention: int)
    ensures var next := Retention.Prune(db, at, retention, zeroRetention);
            var gone := Retention.ExpiredEvents(db, at - retention);
            var keys := Retention.ExpiredSnapshots(Retention.AfterEvents(db, at, retention), at - retention);
            var dead := Retention.PrunedObjects(db, at, retention, zeroRetention);
            && next.events.Keys == db.events.Keys - gone
            && next.eventRefs == (set r | r in db.eventRefs && r.0 !in gone)
            && next.roots == db.roots
            && next.snapshots.Keys == db.snapshots.Keys - keys
            && (forall k | k in keys :: k in db.snapshots && Retention.Obsolete(db, k))
            && next.snapshotRefs == (set r | r in db.snapshotRefs && r.0 !in Retention.ObjectsOf(keys))
            && next.visible == (set v | v in db.visible && v.1 !in dead)
  {
    hide Retention.Lowered, Retention.RefsFrom, Retention.RowsNaming, Retention.RefsFromSnapshots;
    hide Retention.ExpiredEvents;
  }

  lemma DroppedEventRefs(w: World, next: World, gone: set<int>)
    requires EventRefsOk(w) && next.refs == w.refs
    requires next.db.events.Keys == w.db.events.Keys - gone
    requires next.db.eventRefs == (set r | r in w.db.eventRefs && r.0 !in gone)
    ensures EventRefsOk(next)
  {
    forall s | s in next.db.events
      ensures s in next.refs && forall o :: o in next.refs[s] <==> (s, o) in next.db.eventRefs
    {
      assert s in next.db.events.Keys;
    }
  }

  lemma KeptLatest(db: Db, next: Db, keys: set<SnapshotKey>, cutoff: Time)
    requires LatestOk(db) && next.roots == db.roots
    requires next.snapshots.Keys == db.snapshots.Keys - keys
    requires forall k | k in keys :: Retention.Obsolete(db, k)
    requires forall k | k in db.roots && db.roots[k].removed.Some? :: db.roots[k].snapshot.None?
    ensures LatestOk(next)
  {
    forall k | k in next.roots && next.roots[k].snapshot.Some?
      ensures (k.0, k.1, next.roots[k].snapshot.value) in next.snapshots
    {
      var key := (k.0, k.1, db.roots[k].snapshot.value);
      assert key in db.snapshots;
      assert (key.0, key.1) == k;
      assert key !in keys;
      assert key in next.snapshots.Keys;
    }
  }

  lemma KeptManifests(w: World, next: World, keys: set<SnapshotKey>, dead: set<ObjectId>)
    requires ManifestsOk(w) && next.manifests == w.manifests
    requires keys <= w.db.snapshots.Keys
    requires next.db.snapshots.Keys == w.db.snapshots.Keys - keys
    requires next.db.snapshotRefs == (set r | r in w.db.snapshotRefs && r.0 !in Retention.ObjectsOf(keys))
    requires next.db.visible == (set v | v in w.db.visible && v.1 !in dead)
    requires forall o | o in dead :: forall r | r in next.db.snapshotRefs :: r.1 != o
    ensures ManifestsOk(next)
  {
    assert Unshared(next.db) by {
      forall k, l | k in next.db.snapshots && l in next.db.snapshots && k.2 == l.2 ensures k == l {
        assert k in next.db.snapshots.Keys && l in next.db.snapshots.Keys;
      }
    }
    forall k | k in next.db.snapshots ensures k in next.manifests && ManifestOk(next, k) {
      assert k in next.db.snapshots.Keys;
      assert ManifestOk(w, k);
      forall l | l in keys ensures l.2 != k.2 {
        assert l in w.db.snapshots;
      }
      forall o | o in next.manifests[k] ensures (k.2, o) in next.db.snapshotRefs && (k.0, o) in next.db.visible {
        assert (k.2, o) in w.db.snapshotRefs;
        assert (k.2, o) in next.db.snapshotRefs;
      }
    }
  }

  lemma RemovedHasNoSnapshot(w: World)
    requires KeysOk(w.db) && LogsOk(w) && RootsOk(w)
    ensures forall k | k in w.db.roots && w.db.roots[k].removed.Some? :: w.db.roots[k].snapshot.None?
  {
    hide LogOk;
    forall k | k in w.db.roots && w.db.roots[k].removed.Some? ensures w.db.roots[k].snapshot.None? {
      assert RootOk(w, k.0, k.1);
    }
  }

  lemma PurgeKeepsAdverts(w: World, ws: WorkspaceId, at: Time)
    requires Inv(w) && EventRefsOk(w) && LatestOk(w.db)
    ensures var next := AfterPurge(w, ws, at);
            EventRefsOk(next) && LatestOk(next.db) && (ManifestsOk(w) ==> ManifestsOk(next))
  {
    hide CountsOk, RootsOk, HeadsOk, EventsOk, FloorsOk, HorizonOk, LogOk, WorkspacePurge.Purged;
    hide WorkspacePurge.Candidates, EventRefsOk, LatestOk, ManifestsOk;
    if ws in w.db.workspaces {
      var next := AfterPurge(w, ws, at);
      PurgeFields(w.db, ws, WorkspacePurge.Candidates(w.db, ws), at);
      PurgedEventRefs(w, next, ws);
      PurgedLatest(w.db, next.db, ws);
      if ManifestsOk(w) { PurgedManifests(w, next, ws); }
    }
  }

  lemma PurgedEventRefs(w: World, next: World, ws: WorkspaceId)
    requires EventRefsOk(w) && next.refs == w.refs
    requires next.db.(objects := w.db.objects) == WorkspacePurge.WithoutWorkspace(w.db, ws)
    ensures EventRefsOk(next)
  {
    hide WorkspacePurge.OwnSnapshotObjects, WorkspacePurge.SharedSnapshotObjects;
  }

  lemma PurgedLatest(db: Db, next: Db, ws: WorkspaceId)
    requires LatestOk(db)
    requires next.(objects := db.objects) == WorkspacePurge.WithoutWorkspace(db, ws)
    ensures LatestOk(next)
  {
    hide WorkspacePurge.OwnSnapshotObjects, WorkspacePurge.SharedSnapshotObjects;
  }

  lemma PurgedManifests(w: World, next: World, ws: WorkspaceId)
    requires ManifestsOk(w)
    requires next.manifests == map k | k in w.manifests && k.0 != ws :: w.manifests[k]
    requires next.db.(objects := w.db.objects) == WorkspacePurge.WithoutWorkspace(w.db, ws)
    ensures ManifestsOk(next)
  {
    hide WorkspacePurge.OwnSnapshotObjects;
    forall k | k in next.db.snapshots ensures k in next.manifests && ManifestOk(next, k) {
      assert ManifestOk(w, k);
      assert k.2 in WorkspacePurge.SharedSnapshotObjects(w.db, ws);
    }
  }

  ghost predicate AdvertsOk(w: World) {
    EventRefsOk(w) && LatestOk(w.db)
  }

  ghost predicate Owned(w: World, step: Step) {
    step.SaveSnapshot? ==> OwnsObject(w.db, step.ws, step.snap)
  }

  lemma StepKeepsAdverts(w: World, step: Step)
    requires Inv(w) && AdvertsOk(w)
    ensures AdvertsOk(Next(w, step))
    ensures ManifestsOk(w) && Owned(w, step) ==> ManifestsOk(Next(w, step))
  {
    hide Inv, EventRefsOk, LatestOk, ManifestsOk, AfterSubmit, AfterSave, AfterPrune, AfterPurge, OwnsObject;
    match step
    case CreateWorkspace(ws) => SmallStepKeepsAdverts(w, AfterCreate(w, ws));
    case Upload(ws, o, at) => SmallStepKeepsAdverts(w, AfterUpload(w, ws, o, at));
    case SubmitEvent(ws, device, req, at) => SubmitKeepsAdverts(w, ws, device, req, at);
    case SaveSnapshot(ws, device, snap, at) => SaveKeepsAdverts(w, ws, device, snap, at);
    case Prune(at, retention, zeroRetention, unlinked) => PruneKeepsAdverts(w, at, retention, zeroRetention, unlinked);
    case Purge(ws, at) => PurgeKeepsAdverts(w, ws, at);
  }

  lemma SmallStepKeepsAdverts(w: World, next: World)
    requires EventRefsOk(w) && LatestOk(w.db)
    requires next.refs == w.refs && next.manifests == w.manifests
    requires next.db.events == w.db.events && next.db.eventRefs == w.db.eventRefs && next.db.roots == w.db.roots
    requires next.db.snapshots == w.db.snapshots && next.db.snapshotRefs == w.db.snapshotRefs
             && w.db.visible <= next.db.visible
    ensures EventRefsOk(next) && LatestOk(next.db)
    ensures ManifestsOk(w) ==> ManifestsOk(next)
  {
    if ManifestsOk(w) {
      forall k | k in next.db.snapshots ensures k in next.manifests && ManifestOk(next, k) {
        assert ManifestOk(w, k);
      }
    }
  }

  /** In no step of the run does a device publish, as its snapshot, an object another root published. */
  ghost predicate AllOwned(steps: seq<Step>)
    decreases |steps|
  {
    steps == [] || (AllOwned(steps[..|steps| - 1]) && Owned(Run(EMPTY_WORLD, steps[..|steps| - 1]), steps[|steps| - 1]))
  }

  lemma {:induction false} RunKeepsAdverts(steps: seq<Step>)
    ensures AdvertsOk(Run(EMPTY_WORLD, steps))
    ensures AllOwned(steps) ==> ManifestsOk(Run(EMPTY_WORLD, steps))
    decreases |steps|
  {
    hide Next, Inv, Owned;
    if steps != [] {
      var n := |steps| - 1;
      RunKeepsAdverts(steps[..n]);
      ReachableByRun(steps[..n]);
      ReachableStatesAreSound(Run(EMPTY_WORLD, steps[..n]));
      hide AdvertsOk, ManifestsOk;
      StepKeepsAdverts(Run(EMPTY_WORLD, steps[..n]), steps[n]);
    }
  }

  /** Reached without a device publishing, as its snapshot, an object another root had published. */
  ghost predicate ReachableOwned(w: World) {
    exists steps :: AllOwned(steps) && w == Run(EMPTY_WORLD, steps)
  }

  /** Every reference of every stored event, exactly as submitted, can be downloaded by the workspace. */
  lemma EventRefsAreDownloadable(w: World, s: int, o: ObjectId)
    requires Reachable(w) && s in w.db.events
    ensures s in w.refs && (o in w.refs[s] <==> (s, o) in w.db.eventRefs)
    ensures o in w.refs[s] ==> Downloadable(w, w.db.events[s].ws, o)
  {
    hide Run, CountsOk, RootsOk, HeadsOk, EventsOk, FloorsOk, HorizonOk, LogOk, AllOwned;
    ReachableStatesAreSound(w);
    var steps :| w == Run(EMPTY_WORLD, steps);
    RunKeepsAdverts(steps);
  }

  /**
    The latest snapshot of every active root and every chunk its publisher listed can be downloaded,
    through any mix of submissions, snapshots, pruning passes and purges of other workspaces.
  */
  lemma SnapshotsAreDownloadable(w: World, ws: WorkspaceId, root: RootId, o: ObjectId)
    requires ReachableOwned(w) && IsActive(w.db, ws, root) && w.db.roots[(ws, root)].snapshot.Some?
    ensures var key := (ws, root, w.db.roots[(ws, root)].snapshot.value);
            && Downloadable(w, ws, key.2)
            && key in w.manifests
            && (o in w.manifests[key] ==> Downloadable(w, ws, o))
  {
    hide Run, CountsOk, RootsOk, HeadsOk, EventsOk, FloorsOk, HorizonOk, LogOk, AllOwned;
    var steps :| AllOwned(steps) && w == Run(EMPTY_WORLD, steps);
    ReachableByRun(steps);
    ReachableStatesAreSound(w);
    RunKeepsAdverts(steps);
    var key := (ws, root, w.db.roots[(ws, root)].snapshot.value);
    assert key in w.db.snapshots;
    assert ManifestOk(w, key);
  }
}
