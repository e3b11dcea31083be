/**
  The chunk references of a snapshot are stored under its object id alone. Pruning one row that names an
  object therefore takes the references of every other row that names it too.
*/
module SharedManifests {
  import opened Records
  import opened Tables
  import opened ServerState
  import opened SubmitProofs
  import opened CountProofs
  import opened ServerInvariant
  import opened ObjectTheorems
  import opened FetchGaps
  import ET = EventTable
  import ST = SnapshotTable
  import Retention
  import WorkspacePurge

  /** A snapshot row that outlives a pruning pass keeps its references exactly if no expired row shares its object. */
  lemma PruneKeepsManifestIff(db: Db, at: Time, retention: int, k: SnapshotKey, o: ObjectId)
    requires k in Retention.AfterSnapshots(db, at, retention).snapshots && (k.2, o) in db.snapshotRefs
    ensures (k.2, o) in Retention.AfterSnapshots(db, at, retention).snapshotRefs <==>
            forall e | e in Retention.ExpiredSnapshots(Retention.AfterEvents(db, at, retention), at - retention) ::
                e.2 != k.2
  {
    hide Retention.ExpiredSnapshots, Retention.ExpiredEvents, Retention.Lowered;
    var next := Retention.AfterEvents(db, at, retention);
    var expired := Retention.ExpiredSnapshots(next, at - retention);
    assert k.2 in Retention.ObjectsOf(expired) <==> exists e :: e in expired && e.2 == k.2;
  }

  /** A purge looks before it drops: another workspace's snapshot of the same object keeps its references. */
  lemma PurgeKeepsSharedManifest(db: Db, ws: WorkspaceId, k: SnapshotKey, o: ObjectId)
    requires k in db.snapshots && k.0 != ws && (k.2, o) in db.snapshotRefs
    ensures k in WorkspacePurge.WithoutWorkspace(db, ws).snapshots
    ensures (k.2, o) in WorkspacePurge.WithoutWorkspace(db, ws).snapshotRefs
  {
    assert k.2 in WorkspacePurge.SharedSnapshotObjects(db, ws);
  }

  // ---- a run that loses a live root's chunk

  const WS: WorkspaceId := WorkspaceId("w")
  const DEVICE: DeviceId := DeviceId("d")
  const OLD: RootId := RootId("removed")
  const LIVE: RootId := RootId("live")
  const SNAPSHOT: ObjectId := ObjectId("snapshot")
  const CHUNK: ObjectId := ObjectId("chunk")

  const DAY: int := 86400000000000

  /** Two roots publish the same snapshot object, one of them is removed, and two daily passes follow. */
  const LOSING_RUN: seq<Step> := [
    CreateWorkspace(WS),
    Upload(WS, SNAPSHOT, 0),
    Upload(WS, CHUNK, 0),
    SubmitEvent(WS, DEVICE, Lifecycle(OLD, RootAdd), 0),
    SubmitEvent(WS, DEVICE, Lifecycle(LIVE, RootAdd), 0),
    SaveSnapshot(WS, DEVICE, Sharing(OLD), 0),
    SaveSnapshot(WS, DEVICE, Sharing(LIVE), 0),
    SubmitEvent(WS, DEVICE, Lifecycle(OLD, RootRemove), 0),
    Prune(DAY, DAY, DAY, {CHUNK}),
    Prune(2 * DAY, DAY, DAY, {CHUNK})]

  function Sharing(root: RootId): ST.Request {
    ST.Request(root, 2, SNAPSHOT, [CHUNK])
  }

  lemma RunNext(steps: seq<Step>, n: nat)
    requires n < |steps|
    ensures Run(EMPTY_WORLD, steps[..n + 1]) == Next(Run(EMPTY_WORLD, steps[..n]), steps[n])
  {
    hide Next;
    assert steps[..n + 1][..n] == steps[..n];
  }

  /** What all later states of the run have in common. */
  ghost predicate Stocked(w: World) {
    && Inv(w) && CountsExact(w.db) && WS in w.logs && WS in w.db.workspaces
    && w.db.eventRefs == {} && (WS, SNAPSHOT) in w.db.visible && (WS, CHUNK) in w.db.visible
    && CHUNK in w.db.objects && w.db.objects[CHUNK].createdAt == 0
    && (w.db.objects[CHUNK].zeroRefAt.Some? ==> w.db.objects[CHUNK].zeroRefAt.value <= 0)
  }

  lemma Stocking()
    ensures var w := Run(EMPTY_WORLD, LOSING_RUN[..3]);
            && Stocked(w) && w.db.nextSeq == 1 && w.db.roots == map[] && w.db.snapshots == map[]
            && w.db.snapshotRefs == {}
  {
    hide Inv, CountsExact, Run, Next, Stocked;
    RunNext(LOSING_RUN, 0);
    RunNext(LOSING_RUN, 1);
    RunNext(LOSING_RUN, 2);
    NoSteps();
    StockedAtFirst();
  }

  lemma NoSteps()
    ensures Run(EMPTY_WORLD, LOSING_RUN[..0]) == EMPTY_WORLD
  {
    assert LOSING_RUN[..0] == [];
  }

  lemma StockedAtFirst()
    ensures var w := Next(Next(Next(EMPTY_WORLD, CreateWorkspace(WS)), Upload(WS, SNAPSHOT, 0)), Upload(WS, CHUNK, 0));
            && Stocked(w) && w.db.nextSeq == 1 && w.db.roots == map[] && w.db.snapshots == map[]
            && w.db.snapshotRefs == {}
  {
    hide Inv, CountsExact;
    var w1 := Next(EMPTY_WORLD, CreateWorkspace(WS));
    var w2 := Next(w1, Upload(WS, SNAPSHOT, 0));
    EmptyIsSound();
    EmptyCounts();
    StepKeepsStock(EMPTY_WORLD, CreateWorkspace(WS));
    StepKeepsStock(w1, Upload(WS, SNAPSHOT, 0));
    StepKeepsStock(w2, Upload(WS, CHUNK, 0));
  }

  lemma StepKeepsStock(w: World, step: Step)
    requires Inv(w) && CountsExact(w.db) && !step.SubmitEvent?
    ensures Inv(Next(w, step)) && CountsExact(Next(w, step).db)
  {
    hide Inv, CountsExact, Next;
    StepKeepsInv(w, step);
    StepKeepsCountsExact(w, step);
  }

  lemma EmptyCounts()
    ensures CountsExact(EMPTY_WORLD.db)
  {}

  /** A submission that lists no object leaves the stock alone. */
  lemma SubmitStocked(w: World, root: RootId, kind: EventType)
    requires Stocked(w) && ET.Check(w.db, WS, Lifecycle(root, kind)).None?
    ensures var next := Next(w, SubmitEvent(WS, DEVICE, Lifecycle(root, kind), 0));
            && Stocked(next) && next.db.nextSeq == w.db.nextSeq + 1 && next.db.workspaces[WS].current == w.db.nextSeq
            && next.db.roots == ET.RootsAfter(w.db, WS, Lifecycle(root, kind))
            && next.db.snapshots == w.db.snapshots && next.db.snapshotRefs == w.db.snapshotRefs
            && next.manifests == w.manifests
  {
    hide Inv, CountsExact, ET.Check, AfterSubmit, ET.RootsAfter;
    var req := Lifecycle(root, kind);
    StepKeepsInv(w, SubmitEvent(WS, DEVICE, req, 0));
    SubmitExact(w, WS, DEVICE, req, 0);
    SubmitFields(w, WS, DEVICE, req, 0);
    assert forall o | o in w.db.objects :: o !in req.refs;
  }

  lemma SaveStocked(w: World, root: RootId)
    requires Stocked(w) && ST.Check(w.db, WS, Sharing(root)).None?
    ensures var next := Next(w, SaveSnapshot(WS, DEVICE, Sharing(root), 0));
            && Stocked(next) && next.db.nextSeq == w.db.nextSeq
            && next.db.workspaces[WS].current == w.db.workspaces[WS].current
            && (WS, root) in w.db.roots
            && next.db.roots == w.db.roots[(WS, root) := w.db.roots[(WS, root)].(snapshot := Some(SNAPSHOT),
                snapshotSeq := Some(2))]
            && next.db.snapshots.Keys == w.db.snapshots.Keys + {(WS, root, SNAPSHOT)}
            && (forall k | k in w.db.snapshots :: next.db.snapshots[k] == w.db.snapshots[k])
            && ((WS, root, SNAPSHOT) !in w.db.snapshots ==> next.db.snapshots[(WS, root, SNAPSHOT)].createdAt == 0)
            && next.db.snapshotRefs == w.db.snapshotRefs + {(SNAPSHOT, CHUNK)}
            && (WS, root, SNAPSHOT) in next.manifests && CHUNK in next.manifests[(WS, root, SNAPSHOT)]
  {
    hide Inv, CountsExact, ST.Check, AfterSave;
    SaveTables(w, WS, DEVICE, Sharing(root), 0);
    StepKeepsInv(w, SaveSnapshot(WS, DEVICE, Sharing(root), 0));
    SaveExact(w, WS, DEVICE, Sharing(root), 0);
    SaveFields(w, WS, DEVICE, Sharing(root), 0);
    assert (set o | o in [CHUNK] :: (SNAPSHOT, o)) == {(SNAPSHOT, CHUNK)} by { assert CHUNK in [CHUNK]; }
  }

  lemma AddChecks(w: World, root: RootId)
    requires Stocked(w) && (WS, root) !in w.db.roots && root.text != ""
    ensures ET.Check(w.db, WS, Lifecycle(root, RootAdd)).None?
  {
    hide Inv;
  }

  lemma SaveChecks(w: World, root: RootId)
    requires Stocked(w) && (WS, root) in w.db.roots && w.db.workspaces[WS].current == 2
    requires var row := w.db.roots[(WS, root)]; row.removed.None? && row.created <= 2 && row.snapshotSeq.None?
    ensures ST.Check(w.db, WS, Sharing(root)).None?
  {
    hide Inv;
  }

  lemma RemoveChecks(w: World, root: RootId)
    requires Stocked(w) && (WS, root) in w.db.roots && w.db.roots[(WS, root)].removed.None? && root.text != ""
    ensures ET.Check(w.db, WS, Lifecycle(root, RootRemove)).None?
  {
    hide Inv;
  }

  lemma RootsAdded()
    ensures var w := Run(EMPTY_WORLD, LOSING_RUN[..5]);
            && Stocked(w) && w.db.workspaces[WS].current == 2 && w.db.snapshots == map[] && w.db.snapshotRefs == {}
            && w.db.roots.Keys == {(WS, OLD), (WS, LIVE)}
            && (forall k | k in w.db.roots ::
                w.db.roots[k].removed.None? && w.db.roots[k].created <= 2 && w.db.roots[k].snapshotSeq.None?)
  {
    hide Run, Stocked, Next, ET.Check;
    Stocking();
    RunNext(LOSING_RUN, 3);
    RunNext(LOSING_RUN, 4);
    var w := Run(EMPTY_WORLD, LOSING_RUN[..3]);
    AddChecks(w, OLD);
    SubmitStocked(w, OLD, RootAdd);
    AddChecks(Run(EMPTY_WORLD, LOSING_RUN[..4]), LIVE);
    SubmitStocked(Run(EMPTY_WORLD, LOSING_RUN[..4]), LIVE, RootAdd);
  }

  /** One of two roots that share a snapshot object is gone, and no pass has run yet. */
  ghost predicate OneLeft(w: World) {
    && Stocked(w) && (WS, LIVE) in w.db.roots && (WS, OLD) in w.db.roots
    && w.db.roots[(WS, OLD)].removed.Some?
    && w.db.roots[(WS, LIVE)].removed.None? && w.db.roots[(WS, LIVE)].snapshot == Some(SNAPSHOT)
    && w.db.snapshots.Keys == {(WS, OLD, SNAPSHOT), (WS, LIVE, SNAPSHOT)}
    && (forall k | k in w.db.snapshots :: w.db.snapshots[k].createdAt == 0)
    && w.db.snapshotRefs == {(SNAPSHOT, CHUNK)}
    && Lists(w)
  }

  /** The live root's publisher listed the chunk. */
  ghost predicate Lists(w: World) {
    (WS, LIVE, SNAPSHOT) in w.manifests && CHUNK in w.manifests[(WS, LIVE, SNAPSHOT)]
  }

  lemma BothSaved()
    ensures var w := Run(EMPTY_WORLD, LOSING_RUN[..7]);
            && Stocked(w) && w.db.roots.Keys == {(WS, OLD), (WS, LIVE)} && w.db.roots[(WS, OLD)].removed.None?
            && w.db.roots[(WS, LIVE)].removed.None? && w.db.roots[(WS, LIVE)].snapshot == Some(SNAPSHOT)
            && w.db.snapshots.Keys == {(WS, OLD, SNAPSHOT), (WS, LIVE, SNAPSHOT)}
            && (forall k | k in w.db.snapshots :: w.db.snapshots[k].createdAt == 0)
            && w.db.snapshotRefs == {(SNAPSHOT, CHUNK)} && Lists(w)
  {
    hide Run, Stocked, Next, ET.Check, ST.Check;
    RootsAdded();
    RunNext(LOSING_RUN, 5);
    RunNext(LOSING_RUN, 6);
    var w := Run(EMPTY_WORLD, LOSING_RUN[..5]);
    SaveChecks(w, OLD);
    SaveStocked(w, OLD);
    var w' := Run(EMPTY_WORLD, LOSING_RUN[..6]);
    SaveChecks(w', LIVE);
    SaveStocked(w', LIVE);
  }

  lemma OneRemoved()
    ensures OneLeft(Run(EMPTY_WORLD, LOSING_RUN[..8]))
  {
    hide Run, Stocked, Next, ET.Check;
    BothSaved();
    RunNext(LOSING_RUN, 7);
    var w := Run(EMPTY_WORLD, LOSING_RUN[..7]);
    RemoveChecks(w, OLD);
    SubmitStocked(w, OLD, RootRemove);
  }

  /** The removed root's row is gone, and with it the chunk reference of the live one. */
  ghost predicate Unlisted(w: World) {
    && Inv(w) && CountsExact(w.db) && w.db.eventRefs == {} && w.db.snapshotRefs == {} && Lists(w)
    && (WS, LIVE) in w.db.roots && w.db.roots[(WS, LIVE)].removed.None?
    && w.db.roots[(WS, LIVE)].snapshot == Some(SNAPSHOT)
    && w.db.snapshots.Keys == {(WS, LIVE, SNAPSHOT)}
    && (CHUNK in w.db.objects ==> w.db.objects[CHUNK].refCount == 0 && Retention.ZeroSince(w.db.objects[CHUNK]) <= DAY)
  }

  lemma FirstPassTables(db: Db)
    requires (WS, LIVE) in db.roots && (WS, OLD) in db.roots && db.roots[(WS, OLD)].removed.Some?
    requires db.roots[(WS, LIVE)].removed.None? && db.roots[(WS, LIVE)].snapshot == Some(SNAPSHOT)
    requires db.snapshots.Keys == {(WS, OLD, SNAPSHOT), (WS, LIVE, SNAPSHOT)}
    requires forall k | k in db.snapshots :: db.snapshots[k].createdAt == 0
    ensures Retention.ExpiredSnapshots(Retention.AfterEvents(db, DAY, DAY), 0) == {(WS, OLD, SNAPSHOT)}
  {
    hide Retention.ExpiredEvents, Retention.Lowered;
    var mid := Retention.AfterEvents(db, DAY, DAY);
    assert mid.snapshots == db.snapshots && mid.roots == db.roots;
    assert (WS, OLD, SNAPSHOT) in db.snapshots.Keys;
    forall k | k in Retention.ExpiredSnapshots(mid, 0) ensures k == (WS, OLD, SNAPSHOT) {
      assert k in db.snapshots.Keys;
      assert (WS, LIVE) != (WS, OLD);
    }
  }

  lemma ChunkRow(db: Db)
    requires CHUNK in db.objects && db.objects[CHUNK].createdAt == 0
    requires db.objects[CHUNK].zeroRefAt.Some? ==> db.objects[CHUNK].zeroRefAt.value <= 0
    ensures var next := Retention.Prune(db, DAY, DAY, DAY);
            CHUNK in next.objects ==> Retention.ZeroSince(next.objects[CHUNK]) <= DAY
  {
    hide Retention.ExpiredEvents, Retention.ExpiredSnapshots, Retention.RefsFrom, Retention.RowsNaming;
    hide Retention.RefsFromSnapshots, Retention.ExpiredObjects;
  }

  lemma NobodyNames(db: Db)
    requires db.eventRefs == {} && db.snapshotRefs == {} && db.snapshots.Keys == {(WS, LIVE, SNAPSHOT)}
    ensures References(db, CHUNK) == 0
  {
    assert forall k | k in db.snapshots :: k in db.snapshots.Keys;
    ReferencedWhenNamed(db, CHUNK);
  }

  lemma FirstPass(w: World)
    requires OneLeft(w)
    ensures Unlisted(Next(w, LOSING_RUN[8]))
  {
    hide Inv, CountsExact, Retention.Prune, Retention.PrunedObjects, HighestPruned, References, Retention.ExpiredEvents;
    hide Retention.ZeroSince, Retention.ExpiredSnapshots;
    var next := Next(w, LOSING_RUN[8]);
    PruneKeepsInv(w, DAY, DAY, DAY, {CHUNK});
    PruneTables(w.db, DAY, DAY, DAY);
    FirstPassTables(w.db);
    ChunkRow(w.db);
    assert (WS, LIVE, SNAPSHOT) in next.db.snapshots.Keys;
    NobodyNames(next.db);
    ExactCount(next.db);
  }

  lemma ExactCount(db: Db)
    requires CountsExact(db) && References(db, CHUNK) == 0
    ensures CHUNK in db.objects ==> db.objects[CHUNK].refCount == 0
  {
    hide References;
  }

  lemma SecondPassTakesChunk(db: Db)
    requires db.eventRefs == {} && db.snapshotRefs == {} && db.snapshots.Keys == {(WS, LIVE, SNAPSHOT)}
    requires CHUNK in db.objects ==> db.objects[CHUNK].refCount == 0 && Retention.ZeroSince(db.objects[CHUNK]) <= DAY
    ensures CHUNK !in Retention.Prune(db, 2 * DAY, DAY, DAY).objects
  {
    hide Retention.AfterSnapshots, Retention.ZeroSince;
    ChunkRowStays(db);
  }

  lemma ChunkRowStays(db: Db)
    requires db.eventRefs == {} && db.snapshotRefs == {} && db.snapshots.Keys == {(WS, LIVE, SNAPSHOT)}
    ensures var mid := Retention.AfterSnapshots(db, 2 * DAY, DAY);
            CHUNK in mid.objects ==> CHUNK in db.objects && mid.objects[CHUNK] == db.objects[CHUNK]
  {
    hide Retention.ExpiredEvents, Retention.Obsolete;
    var mid := Retention.AfterEvents(db, 2 * DAY, DAY);
    var keys := Retention.ExpiredSnapshots(mid, DAY);
    assert forall k | k in keys :: k in db.snapshots.Keys;
    assert Retention.RowsNaming(keys, CHUNK) == {};
    assert Retention.RefsFromSnapshots(mid, Retention.ObjectsOf(keys), CHUNK) == {};
    assert Retention.RefsFrom(db, Retention.ExpiredEvents(db, DAY), CHUNK) == {};
  }

  lemma SecondPass(w: World)
    requires Unlisted(w)
    ensures var next := Next(w, LOSING_RUN[9]);
            && Inv(next) && Lists(next) && CHUNK !in next.db.objects && (WS, LIVE, SNAPSHOT) in next.db.snapshots
            && next.db.roots == w.db.roots
  {
    hide Inv, CountsExact, Retention.Prune, Retention.PrunedObjects, HighestPruned, Retention.ExpiredEvents;
    hide Retention.ZeroSince, Retention.ExpiredSnapshots;
    var next := Next(w, LOSING_RUN[9]);
    PruneKeepsInv(w, 2 * DAY, DAY, DAY, {CHUNK});
    PruneTables(w.db, 2 * DAY, DAY, DAY);
    SecondPassTakesChunk(w.db);
    var key := (WS, LIVE, SNAPSHOT);
    assert key in w.db.snapshots.Keys && (key.0, key.1) == (WS, LIVE);
    assert !Retention.Obsolete(w.db, key);
    assert key in next.db.snapshots.Keys;
  }

  lemma SnapshotStays(w: World, key: SnapshotKey)
    requires Inv(w) && key in w.db.snapshots
    ensures Downloadable(w, key.0, key.2)
  {
    hide CountsOk, LogsOk, RootsOk, HeadsOk, EventsOk, FloorsOk, HorizonOk;
  }

  /**
    The loss is reachable: after this run the live root still points to its snapshot, whose publisher listed
    the chunk, but a client that starts from the snapshot can no longer download it.
  */
  lemma SharedManifestIsLost()
    ensures var w := Run(EMPTY_WORLD, LOSING_RUN);
            && Reachable(w) && IsActive(w.db, WS, LIVE) && w.db.roots[(WS, LIVE)].snapshot == Some(SNAPSHOT)
            && (WS, LIVE, SNAPSHOT) in w.manifests && CHUNK in w.manifests[(WS, LIVE, SNAPSHOT)]
            && Downloadable(w, WS, SNAPSHOT) && !Downloadable(w, WS, CHUNK)
  {
    hide Run, Next, OneLeft, Inv;
    OneRemoved();
    RunNext(LOSING_RUN, 8);
    RunNext(LOSING_RUN, 9);
    assert LOSING_RUN[..10] == LOSING_RUN;
    FirstPass(Run(EMPTY_WORLD, LOSING_RUN[..8]));
    SecondPass(Run(EMPTY_WORLD, LOSING_RUN[..9]));
    ReachableByRun(LOSING_RUN);
    SnapshotStays(Run(EMPTY_WORLD, LOSING_RUN), (WS, LIVE, SNAPSHOT));
  }
}
