/**
  A count may exceed the rows it stands for: an event that lists an id twice raises the count twice and adds
  one row. The surplus is exact, only a purge's recount clears it, and until then no pass takes the object.
*/
module CountLeaks {
  import opened Records
  import opened Tables
  import opened ServerState
  import opened SubmitProofs
  import opened CountProofs
  import opened ServerInvariant
  import opened RetentionEffects
  import ET = EventTable
  import ST = SnapshotTable
  import Retention
  import WorkspacePurge

  /** By how much an object's count exceeds the rows that name it. */
  ghost function Surplus(db: Db, o: ObjectId): int
    requires o in db.objects
  {
    db.objects[o].refCount - References(db, o)
  }

  /** An accepted submission adds one for each repeated listing, the purge of a workspace leaves none anywhere. */
  ghost function SurplusAfter(w: World, step: Step, o: ObjectId): int
    requires o in w.db.objects
  {
    match step
    case SubmitEvent(ws, _, req, _) =>
      Surplus(w.db, o) + if ET.Check(w.db, ws, req).None? && o in req.refs then multiset(req.refs)[o] - 1 else 0
    case Purge(ws, _) => if ws in w.db.workspaces then 0 else Surplus(w.db, o)
    case _ => Surplus(w.db, o)
  }

  /** Every step moves the surplus of an object it leaves by exactly that. */
  lemma SurplusMoves(w: World, step: Step, o: ObjectId)
    requires Inv(w) && o in w.db.objects && o in Next(w, step).db.objects
    ensures Surplus(Next(w, step).db, o) == SurplusAfter(w, step, o)
  {
    hide Inv, AfterCreate, AfterUpload, AfterSubmit, AfterSave, AfterPrune, AfterPurge, References, ET.Check, ST.Check;
    hide Surplus;
    match step
    case CreateWorkspace(ws) => CreateSurplus(w, ws, o);
    case Upload(ws, x, at) => UploadSurplus(w, ws, x, at, o);
    case SubmitEvent(ws, device, req, at) => SubmitSurplus(w, ws, device, req, at, o);
    case SaveSnapshot(ws, device, snap, at) => SaveSurplus(w, ws, device, snap, at, o);
    case Prune(at, retention, zeroRetention, unlinked) => PruneSurplus(w, at, retention, zeroRetention, unlinked, o);
    case Purge(ws, at) => PurgeSurplus(w, ws, at, o);
  }

  lemma CreateSurplus(w: World, ws: WorkspaceId, o: ObjectId)
    requires o in w.db.objects
    ensures o in AfterCreate(w, ws).db.objects && Surplus(AfterCreate(w, ws).db, o) == Surplus(w.db, o)
  {
    hide References;
    SameRowsSameReferences(w.db, AfterCreate(w, ws).db, o);
  }

  lemma UploadSurplus(w: World, ws: WorkspaceId, x: ObjectId, at: Time, o: ObjectId)
    requires o in w.db.objects
    ensures o in AfterUpload(w, ws, x, at).db.objects && Surplus(AfterUpload(w, ws, x, at).db, o) == Surplus(w.db, o)
  {
    hide References, AfterUpload;
    UploadFields(w, ws, x, at);
    SameRowsSameReferences(w.db, AfterUpload(w, ws, x, at).db, o);
  }

  lemma SubmitSurplus(w: World, ws: WorkspaceId, device: DeviceId, req: ET.Request, at: Time, o: ObjectId)
    requires Inv(w) && o in w.db.objects
    ensures var next := AfterSubmit(w, ws, device, req, at);
            o in next.db.objects && Surplus(next.db, o) == Surplus(w.db, o)
                + if ET.Check(w.db, ws, req).None? && o in req.refs then multiset(req.refs)[o] - 1 else 0
  {
    hide CountsOk, RootsOk, HeadsOk, EventsOk, FloorsOk, HorizonOk, LogOk, AfterSubmit, ET.Check, References;
    if ET.Check(w.db, ws, req).None? {
      CheckedExists(w.db, ws, req);
      SubmitFields(w, ws, device, req, at);
      SubmitReferences(w.db, AfterSubmit(w, ws, device, req, at).db, req, o);
    } else {
      RefusedSubmit(w, ws, device, req, at);
    }
  }

  lemma SaveSurplus(w: World, ws: WorkspaceId, device: DeviceId, req: ST.Request, at: Time, o: ObjectId)
    requires o in w.db.objects
    ensures var next := AfterSave(w, ws, device, req, at);
            o in next.db.objects && Surplus(next.db, o) == Surplus(w.db, o)
  {
    hide AfterSave, ST.Check, References, ST.Raise, WithFloor;
    if ST.Check(w.db, ws, req).None? {
      SaveFields(w, ws, device, req, at);
      SaveReferences(w.db, ws, device, req, at, o);
      SameRowsSameReferences(ST.Committed(w.db, ws, device, req, at), AfterSave(w, ws, device, req, at).db, o);
    } else {
      RefusedSave(w, ws, device, req, at);
    }
  }

  lemma PruneSurplus(w: World, at: Time, retention: int, zeroRetention: int, unlinked: set<ObjectId>, o: ObjectId)
    requires Inv(w) && o in w.db.objects
    ensures var next := AfterPrune(w, at, retention, zeroRetention, unlinked);
            o in next.db.objects ==> Surplus(next.db, o) == Surplus(w.db, o)
  {
    hide KeysOk, NamesOk, RootsOk, HeadsOk, EventsOk, FloorsOk, HorizonOk, LogOk, References, Dropped, HighestPruned;
    hide Retention.Prune, Retention.PrunedObjects, Retention.ExpiredEvents;
    PrunedRow(w.db, at, retention, zeroRetention, o);
    DroppedAreRows(w.db, at, retention, zeroRetention, o);
  }

  lemma PurgeSurplus(w: World, ws: WorkspaceId, at: Time, o: ObjectId)
    requires Inv(w) && o in w.db.objects && o in AfterPurge(w, ws, at).db.objects
    ensures Surplus(AfterPurge(w, ws, at).db, o) == if ws in w.db.workspaces then 0 else Surplus(w.db, o)
  {
    hide Inv, References, WorkspacePurge.Purged, WorkspacePurge.Candidates;
    if ws in w.db.workspaces {
      PurgeMakesCountsExact(w.db, ws, WorkspacePurge.Candidates(w.db, ws), at);
    }
  }

  /** No pass takes an object whose count exceeds its rows, named or not. */
  lemma SurplusIsKept(w: World, at: Time, retention: int, zeroRetention: int, unlinked: set<ObjectId>, o: ObjectId)
    requires Inv(w) && o in w.db.objects && 0 < Surplus(w.db, o)
    ensures o in AfterPrune(w, at, retention, zeroRetention, unlinked).db.objects
  {
    hide KeysOk, NamesOk, RootsOk, HeadsOk, EventsOk, FloorsOk, HorizonOk, LogOk, References, Dropped, HighestPruned;
    hide Retention.Prune, Retention.PrunedObjects, Retention.ExpiredEvents;
    PrunedRow(w.db, at, retention, zeroRetention, o);
    DroppedAreRows(w.db, at, retention, zeroRetention, o);
  }

  lemma StepKeepsSurplus(w: World, step: Step, o: ObjectId)
    requires Inv(w) && o in w.db.objects && 0 < Surplus(w.db, o) && !step.Purge?
    ensures o in Next(w, step).db.objects && 0 < Surplus(Next(w, step).db, o)
  {
    hide Inv, AfterCreate, AfterUpload, AfterSubmit, AfterSave, AfterPrune, AfterPurge, References, ET.Check, ST.Check;
    hide Surplus;
    match step {
    case CreateWorkspace(ws) => CreateSurplus(w, ws, o);
    case Upload(ws, x, at) => UploadSurplus(w, ws, x, at, o);
    case SubmitEvent(ws, device, req, at) => SubmitSurplus(w, ws, device, req, at, o);
    case SaveSnapshot(ws, device, snap, at) => SaveSurplus(w, ws, device, snap, at, o);
    case Prune(at, retention, zeroRetention, unlinked) =>
      SurplusIsKept(w, at, retention, zeroRetention, unlinked, o);
    }
    SurplusMoves(w, step, o);
    assert 0 < SurplusAfter(w, step, o) by { SurplusOnlyGrows(w, step, o); }
  }

  lemma SurplusOnlyGrows(w: World, step: Step, o: ObjectId)
    requires o in w.db.objects && 0 < Surplus(w.db, o) && !step.Purge?
    ensures 0 < SurplusAfter(w, step, o)
  {
    hide ET.Check, References;
    if step.SubmitEvent? && o in step.req.refs { assert 1 <= multiset(step.req.refs)[o]; }
  }

  /** Over every run without a purge such an object stays for good, even once nothing names it. */
  lemma {:induction false} LeakedObjectStays(w: World, steps: seq<Step>, o: ObjectId)
    requires Inv(w) && o in w.db.objects && 0 < Surplus(w.db, o)
    requires forall i | 0 <= i < |steps| :: !steps[i].Purge?
    ensures o in Run(w, steps).db.objects && 0 < Surplus(Run(w, steps).db, o)
    decreases |steps|
  {
    hide Inv, Next, Surplus;
    if steps != [] {
      var n := |steps| - 1;
      LeakedObjectStays(w, steps[..n], o);
      RunKeepsInv(w, steps[..n]);
      StepKeepsSurplus(Run(w, steps[..n]), steps[n], o);
    }
  }
}
