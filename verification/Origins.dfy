/**
  Where the server's rows come from: every event of a log carries, field by field, what one accepted request
  of the run brought, and every root row the kind and descriptor of the root_add that opened it.
*/
module Origins {
  import opened Records
  import opened EventLog
  import opened Tables
  import opened ServerState
  import opened SubmitProofs
  import opened ServerInvariant
  import ET = EventTable
  import ST = SnapshotTable
  import Retention
  import WorkspacePurge

  /** In this state the step is a submission that is accepted, and the event is what it brings. */
  ghost predicate Brings(w: World, step: Step, e: Event) {
    && step.SubmitEvent? && ET.Check(w.db, step.ws, step.req).None?
    && e.seqno == w.db.nextSeq && e.ws == step.ws
    && e.root == step.req.root && e.path == (if step.req.path.text == "" then None else Some(step.req.path))
    && e.kind == step.req.kind && e.base == step.req.base && e.payload == step.req.payload
    && e.author == step.device && e.createdAt == step.at
  }

  /** An accepted submission appends what it brings to its workspace's log, and no other log changes. */
  lemma AcceptedIsAppended(w: World, step: Step, e: Event)
    requires Inv(w) && Brings(w, step, e)
    ensures step.ws in w.logs && Next(w, step).logs == w.logs[step.ws := w.logs[step.ws] + [e]]
    ensures e.seqno in Next(w, step).db.events && Next(w, step).db.events[e.seqno] == e
  {
    hide AfterSubmit, ET.Check, KeysOk, NamesOk, CountsOk, RootsOk, HeadsOk, EventsOk, FloorsOk, HorizonOk, LogOk;
    CheckedExists(w.db, step.ws, step.req);
    SubmitFields(w, step.ws, step.device, step.req, step.at);
    assert e == ET.NewEvent(w.db, step.ws, step.device, step.req, step.at);
  }

  /** Anything else leaves every log that survives it as it was. */
  lemma OnlySubmissionsAppend(w: World, step: Step, ws: WorkspaceId)
    requires Inv(w) && ws in Next(w, step).logs
    requires !(step.SubmitEvent? && step.ws == ws && ET.Check(w.db, ws, step.req).None?)
    ensures Next(w, step).logs[ws] == if ws in w.logs then w.logs[ws] else []
  {
    hide AfterSubmit, AfterSave, ET.Check, ST.Check, KeysOk, NamesOk, CountsOk, RootsOk, HeadsOk, EventsOk, FloorsOk;
    hide HorizonOk, LogOk;
    match step
    case SubmitEvent(v, device, req, at) =>
      if ET.Check(w.db, v, req).None? {
        CheckedExists(w.db, v, req);
        SubmitFields(w, v, device, req, at);
      } else {
        RefusedSubmit(w, v, device, req, at);
      }
    case SaveSnapshot(v, device, snap, at) =>
      if ST.Check(w.db, v, snap).None? {
        SaveFields(w, v, device, snap, at);
      } else {
        RefusedSave(w, v, device, snap, at);
      }
    case _ =>
  }

  /** The n-th step of a run from the empty server brought the event. */
  ghost predicate Brought(steps: seq<Step>, n: nat, e: Event) {
    n < |steps| && Brings(Run(EMPTY_WORLD, steps[..n]), steps[n], e)
  }

  /** Over every run: each event of a log is what one accepted submission of that run brought. */
  lemma {:induction false} EventsComeFromRequests(steps: seq<Step>, ws: WorkspaceId, e: Event)
    requires ws in Run(EMPTY_WORLD, steps).logs && e in Run(EMPTY_WORLD, steps).logs[ws]
    ensures exists n: nat :: Brought(steps, n, e)
    decreases |steps|
  {
    hide Inv, Next, Brings;
    if steps != [] {
      var n := |steps| - 1;
      var w := Run(EMPTY_WORLD, steps[..n]);
      SoundRun(steps[..n]);
      if ws in w.logs && e in w.logs[ws] {
        EventsComeFromRequests(steps[..n], ws, e);
        var m: nat :| Brought(steps[..n], m, e);
        assert steps[..n][..m] == steps[..m];
        assert Brought(steps, m, e);
      } else {
        NewEventIsBrought(w, steps[n], ws, e);
        assert Brought(steps, n, e);
      }
    }
  }

  lemma SoundRun(steps: seq<Step>)
    ensures Inv(Run(EMPTY_WORLD, steps))
  {
    hide Inv, Run;
    EmptyIsSound();
    RunKeepsInv(EMPTY_WORLD, steps);
  }

  lemma NewEventIsBrought(w: World, step: Step, ws: WorkspaceId, e: Event)
    requires Inv(w) && ws in Next(w, step).logs && e in Next(w, step).logs[ws]
    requires !(ws in w.logs && e in w.logs[ws])
    ensures Brings(w, step, e)
  {
    hide Inv, Next, ET.Check;
    if step.SubmitEvent? && step.ws == ws && ET.Check(w.db, ws, step.req).None? {
      var brought := ET.NewEvent(w.db, ws, step.device, step.req, step.at);
      assert Brings(w, step, brought);
      AcceptedIsAppended(w, step, brought);
    } else {
      OnlySubmissionsAppend(w, step, ws);
    }
  }

  /** In this state the step is an accepted root_add whose kind, descriptor and seq are those of the row. */
  ghost predicate Opens(w: World, step: Step, key: RootKey, row: RootRow) {
    && step.SubmitEvent? && step.ws == key.0 && ET.Check(w.db, key.0, step.req).None?
    && step.req.kind.RootAdd? && step.req.root == key.1
    && row.created == w.db.nextSeq && row.kind == step.req.rootKind && row.descriptor == step.req.payload
  }

  ghost predicate Opened(steps: seq<Step>, n: nat, key: RootKey, row: RootRow) {
    n < |steps| && Opens(Run(EMPTY_WORLD, steps[..n]), steps[n], key, row)
  }

  /** What of a root row only a root_add may change. */
  ghost predicate SameOpening(row: RootRow, next: RootRow) {
    next.created == row.created && next.kind == row.kind && next.descriptor == row.descriptor
  }

  lemma SubmitOpens(w: World, step: Step, key: RootKey)
    requires Inv(w) && step.SubmitEvent? && key in Next(w, step).db.roots
    ensures (key in w.db.roots && SameOpening(w.db.roots[key], Next(w, step).db.roots[key]))
            || Opens(w, step, key, Next(w, step).db.roots[key])
  {
    hide AfterSubmit, ET.Check, KeysOk, NamesOk, CountsOk, RootsOk, HeadsOk, EventsOk, FloorsOk, HorizonOk, LogOk;
    if ET.Check(w.db, step.ws, step.req).None? {
      CheckedExists(w.db, step.ws, step.req);
      SubmitFields(w, step.ws, step.device, step.req, step.at);
      assert Next(w, step).db.roots == ET.RootsAfter(w.db, step.ws, step.req);
    } else {
      RefusedSubmit(w, step.ws, step.device, step.req, step.at);
    }
  }

  lemma StepOpens(w: World, step: Step, key: RootKey)
    requires Inv(w) && key in Next(w, step).db.roots
    ensures (key in w.db.roots && SameOpening(w.db.roots[key], Next(w, step).db.roots[key]))
            || Opens(w, step, key, Next(w, step).db.roots[key])
  {
    hide Inv, AfterSubmit, AfterSave, ST.Check, Opens, WorkspacePurge.Purged, WorkspacePurge.Candidates;
    hide Retention.Prune, Retention.PrunedObjects;
    match step
    case SubmitEvent(v, device, req, at) => SubmitOpens(w, step, key);
    case SaveSnapshot(v, device, snap, at) =>
      if ST.Check(w.db, v, snap).None? {
        SaveFields(w, v, device, snap, at);
      } else {
        RefusedSave(w, v, device, snap, at);
      }
    case Prune(at, retention, zeroRetention, unlinked) => PruneFields(w, at, retention, zeroRetention);
    case Purge(v, at) => PurgeFields(w.db, v, WorkspacePurge.Candidates(w.db, v), at);
    case _ =>
  }

  /** Over every run: each root row has the kind, descriptor and seq of one accepted root_add of that run. */
  lemma {:induction false} RootsComeFromRootAdds(steps: seq<Step>, key: RootKey)
    requires key in Run(EMPTY_WORLD, steps).db.roots
    ensures exists n: nat :: Opened(steps, n, key, Run(EMPTY_WORLD, steps).db.roots[key])
    decreases |steps|
  {
    hide Inv, Next, Opens;
    if steps != [] {
      var n := |steps| - 1;
      var w := Run(EMPTY_WORLD, steps[..n]);
      SoundRun(steps[..n]);
      StepOpens(w, steps[n], key);
      var row := Run(EMPTY_WORLD, steps).db.roots[key];
      if Opens(w, steps[n], key, row) {
        assert Opened(steps, n, key, row);
      } else {
        RootsComeFromRootAdds(steps[..n], key);
        var m: nat :| Opened(steps[..n], m, key, w.db.roots[key]);
        OpenedStays(steps, n, m, key, w.db.roots[key], row);
      }
    }
  }

  lemma OpenedStays(steps: seq<Step>, n: nat, m: nat, key: RootKey, row: RootRow, next: RootRow)
    requires n <= |steps| && Opened(steps[..n], m, key, row) && SameOpening(row, next)
    ensures Opened(steps, m, key, next)
  {
    hide Run, ET.Check;
    assert steps[..n][..m] == steps[..m];
  }

  /** The row of an active root was opened by the root_add that the log names as its current incarnation. */
  lemma ActiveRowIsItsRootAdd(steps: seq<Step>, ws: WorkspaceId, root: RootId)
    requires IsActive(Run(EMPTY_WORLD, steps).db, ws, root)
    ensures var w := Run(EMPTY_WORLD, steps);
            && ws in w.logs && Incarnation(w.logs[ws], root).Some?
            && exists n: nat :: Opened(steps, n, (ws, root), w.db.roots[(ws, root)])
                 && Run(EMPTY_WORLD, steps[..n]).db.nextSeq == Incarnation(w.logs[ws], root).value
  {
    hide Run, NamesOk, CountsOk, HeadsOk, EventsOk, FloorsOk, HorizonOk, LogOk, ET.Check;
    var w := Run(EMPTY_WORLD, steps);
    SoundRun(steps);
    assert RootOk(w, ws, root);
    RootsComeFromRootAdds(steps, (ws, root));
  }

  /** In this state the step is an accepted save that the row records. */
  ghost predicate Saves(w: World, step: Step, key: SnapshotKey, row: SnapshotRow) {
    && step.SaveSnapshot? && ST.Check(w.db, step.ws, step.snap).None?
    && key == (step.ws, step.snap.root, step.snap.obj)
    && row.base == step.snap.base && row.author == step.device && row.createdAt == step.at
  }

  ghost predicate Saved(steps: seq<Step>, n: nat, key: SnapshotKey, row: SnapshotRow) {
    n < |steps| && Saves(Run(EMPTY_WORLD, steps[..n]), steps[n], key, row)
  }

  /** In this state the step is an accepted save that makes the root point to this object, with this base. */
  ghost predicate PointsTo(w: World, step: Step, key: RootKey, obj: ObjectId, base: int) {
    && step.SaveSnapshot? && ST.Check(w.db, step.ws, step.snap).None?
    && key == (step.ws, step.snap.root) && obj == step.snap.obj && base == step.snap.base
  }

  ghost predicate Pointed(steps: seq<Step>, n: nat, key: RootKey, row: RootRow) {
    && n < |steps| && row.snapshot.Some? && row.snapshotSeq.Some?
    && PointsTo(Run(EMPTY_WORLD, steps[..n]), steps[n], key, row.snapshot.value, row.snapshotSeq.value)
  }

  /** An accepted save is recorded: the row unless it is there, the pointer of its root alone, and every reference. */
  lemma SaveIsRecorded(w: World, step: Step, key: SnapshotKey)
    requires step.SaveSnapshot? && ST.Check(w.db, step.ws, step.snap).None?
    requires key == (step.ws, step.snap.root, step.snap.obj)
    ensures var db, next := w.db, Next(w, step).db;
            && (key.0, key.1) in db.roots && next.roots.Keys == db.roots.Keys && key in next.snapshots
            && next.snapshots.Keys == db.snapshots.Keys + {key}
            && (forall k | k in db.snapshots :: next.snapshots[k] == db.snapshots[k])
            && (key !in db.snapshots ==> Saves(w, step, key, next.snapshots[key]))
            && next.roots[(key.0, key.1)].snapshot == Some(step.snap.obj)
            && next.roots[(key.0, key.1)].snapshotSeq == Some(step.snap.base)
            && (forall k | k in db.roots && k != (key.0, key.1) :: next.roots[k] == db.roots[k])
            && (forall r :: r in next.snapshotRefs <==>
                  r in db.snapshotRefs || (r.0 == step.snap.obj && r.1 in step.snap.refs))
            && next.events == db.events && next.heads == db.heads && next.eventRefs == db.eventRefs
  {
    hide AfterSave, ST.Raise;
    SaveFields(w, step.ws, step.device, step.snap, step.at);
  }

  lemma SaveStepSaves(w: World, step: Step, key: SnapshotKey)
    requires step.SaveSnapshot? && key in Next(w, step).db.snapshots
    ensures (key in w.db.snapshots && w.db.snapshots[key] == Next(w, step).db.snapshots[key])
            || Saves(w, step, key, Next(w, step).db.snapshots[key])
  {
    hide AfterSave, ST.Check, ST.Raise;
    if ST.Check(w.db, step.ws, step.snap).None? {
      SaveFields(w, step.ws, step.device, step.snap, step.at);
    } else {
      RefusedSave(w, step.ws, step.device, step.snap, step.at);
    }
  }

  lemma StepSaves(w: World, step: Step, key: SnapshotKey)
    requires Inv(w) && key in Next(w, step).db.snapshots
    ensures (key in w.db.snapshots && w.db.snapshots[key] == Next(w, step).db.snapshots[key])
            || Saves(w, step, key, Next(w, step).db.snapshots[key])
  {
    hide Inv, AfterSubmit, AfterSave, Saves, Retention.Prune, Retention.PrunedObjects, ET.Check;
    hide WorkspacePurge.Purged, WorkspacePurge.Candidates;
    match step
    case SubmitEvent(v, device, req, at) =>
      if ET.Check(w.db, v, req).None? {
        LogKeysMatch(w);
        CheckedExists(w.db, v, req);
        SubmitFields(w, v, device, req, at);
      } else {
        RefusedSubmit(w, v, device, req, at);
      }
    case SaveSnapshot(v, device, snap, at) => SaveStepSaves(w, step, key);
    case Prune(at, retention, zeroRetention, unlinked) => PrunedSnapshots(w.db, at, retention, zeroRetention);
    case Purge(v, at) => PurgeFields(w.db, v, WorkspacePurge.Candidates(w.db, v), at);
    case _ =>
  }

  lemma LogKeysMatch(w: World)
    requires Inv(w)
    ensures w.logs.Keys == w.db.workspaces.Keys
  {}

  lemma PrunedSnapshots(db: Db, at: Time, retention: int, zeroRetention: int)
    ensures var next := Retention.Prune(db, at, retention, zeroRetention).snapshots;
            next.Keys <= db.snapshots.Keys && forall k | k in next :: next[k] == db.snapshots[k]
  {
    hide Retention.Lowered, Retention.ExpiredEvents, Retention.ExpiredSnapshots, Retention.RefsFrom;
    hide Retention.RowsNaming, Retention.RefsFromSnapshots, Retention.ObjectsOf;
  }

  /** Over every run: each snapshot row records the base, author and time of one accepted save of that run. */
  lemma {:induction false} SnapshotsComeFromSaves(steps: seq<Step>, key: SnapshotKey)
    requires key in Run(EMPTY_WORLD, steps).db.snapshots
    ensures exists n: nat :: Saved(steps, n, key, Run(EMPTY_WORLD, steps).db.snapshots[key])
    decreases |steps|
  {
    hide Inv, Next, Saves;
    if steps != [] {
      var n := |steps| - 1;
      var w := Run(EMPTY_WORLD, steps[..n]);
      SoundRun(steps[..n]);
      StepSaves(w, steps[n], key);
      var row := Run(EMPTY_WORLD, steps).db.snapshots[key];
      if Saves(w, steps[n], key, row) {
        assert Saved(steps, n, key, row);
      } else {
        SnapshotsComeFromSaves(steps[..n], key);
        var m: nat :| Saved(steps[..n], m, key, row);
        assert steps[..n][..m] == steps[..m];
        assert Saved(steps, m, key, row);
      }
    }
  }

  lemma StepPoints(w: World, step: Step, key: RootKey)
    requires Inv(w) && key in Next(w, step).db.roots
    ensures var row := Next(w, step).db.roots[key];
            || row.snapshot.None?
            || (key in w.db.roots && w.db.roots[key].snapshot == row.snapshot
                && w.db.roots[key].snapshotSeq == row.snapshotSeq)
            || (row.snapshotSeq.Some? && PointsTo(w, step, key, row.snapshot.value, row.snapshotSeq.value))
  {
    hide Inv, AfterSubmit, AfterSave, ST.Check, ST.Raise, Retention.Prune, Retention.PrunedObjects, ET.Check;
    hide WorkspacePurge.Purged, WorkspacePurge.Candidates;
    match step
    case SubmitEvent(v, device, req, at) =>
      if ET.Check(w.db, v, req).None? {
        LogKeysMatch(w);
        CheckedExists(w.db, v, req);
        SubmitFields(w, v, device, req, at);
      } else {
        RefusedSubmit(w, v, device, req, at);
      }
    case SaveSnapshot(v, device, snap, at) =>
      if ST.Check(w.db, v, snap).None? {
        SaveFields(w, v, device, snap, at);
      } else {
        RefusedSave(w, v, device, snap, at);
      }
    case Prune(at, retention, zeroRetention, unlinked) => PruneFields(w, at, retention, zeroRetention);
    case Purge(v, at) => PurgeFields(w.db, v, WorkspacePurge.Candidates(w.db, v), at);
    case _ =>
  }

  /** Over every run: the object and base a root points to are those of one accepted save for that root. */
  lemma {:induction false} PointersComeFromSaves(steps: seq<Step>, key: RootKey)
    requires key in Run(EMPTY_WORLD, steps).db.roots && Run(EMPTY_WORLD, steps).db.roots[key].snapshot.Some?
    ensures exists n: nat :: Pointed(steps, n, key, Run(EMPTY_WORLD, steps).db.roots[key])
    decreases |steps|
  {
    hide Inv, Next, PointsTo;
    if steps != [] {
      var n := |steps| - 1;
      var w := Run(EMPTY_WORLD, steps[..n]);
      SoundRun(steps[..n]);
      StepPoints(w, steps[n], key);
      var row := Run(EMPTY_WORLD, steps).db.roots[key];
      if row.snapshotSeq.Some? && PointsTo(w, steps[n], key, row.snapshot.value, row.snapshotSeq.value) {
        assert Pointed(steps, n, key, row);
      } else {
        PointersComeFromSaves(steps[..n], key);
        var m: nat :| Pointed(steps[..n], m, key, w.db.roots[key]);
        assert steps[..n][..m] == steps[..m];
        assert Pointed(steps, m, key, row);
      }
    }
  }
}
