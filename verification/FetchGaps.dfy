/**
  Where a fetch is not complete. The floor drops to zero when a root without a snapshot is added, even
  after pruning, so a cursor below the pruned events is then answered with a page that skips them.
*/
module FetchGaps {
  import opened Records
  import opened EventLog
  import opened Tables
  import opened ServerState
  import opened SubmitProofs
  import opened HorizonProofs
  import opened ServerInvariant
  import opened RetentionTheorems
  import ET = EventTable
  import ST = SnapshotTable
  import Retention
  import WorkspacePurge

  /** `pruned` is not a mere bound: unless it is zero, the event of that seq really is gone. */
  ghost predicate PrunedIsMissing(w: World) {
    forall ws | ws in w.logs && ws in w.pruned && w.pruned[ws] != 0 ::
      w.pruned[ws] !in w.db.events && exists e :: e in w.logs[ws] && e.seqno == w.pruned[ws]
  }

  lemma StepKeepsMissing(w: World, step: Step)
    requires Inv(w) && PrunedIsMissing(w)
    ensures PrunedIsMissing(Next(w, step))
  {
    hide Inv, NamesOk, CountsOk, RootsOk, HeadsOk, FloorsOk, HorizonOk, LogOk, ET.Check, ET.Submitted,
         SnapshotTable.Save,
      Retention.Prune, Retention.PrunedObjects, WorkspacePurge.Purged, WorkspacePurge.Candidates, Highest;
    match step
    case CreateWorkspace(ws) =>
    case Upload(ws, o, at) =>
    case SubmitEvent(ws, device, req, at) => SubmitKeepsMissing(w, ws, device, req, at);
    case SaveSnapshot(ws, device, snap, at) => SaveKeepsMissing(w, ws, device, snap, at);
    case Prune(at, retention, zeroRetention, unlinked) => PruneKeepsMissing(w, at, retention, zeroRetention, unlinked);
    case Purge(ws, at) =>
      if ws in w.db.workspaces { PurgeFields(w.db, ws, WorkspacePurge.Candidates(w.db, ws), at); }
  }

  lemma SubmitKeepsMissing(w: World, ws: WorkspaceId, device: DeviceId, req: ET.Request, at: Time)
    requires Inv(w) && PrunedIsMissing(w)
    ensures PrunedIsMissing(AfterSubmit(w, ws, device, req, at))
  {
    hide NamesOk, CountsOk, RootsOk, HeadsOk, EventsOk, FloorsOk, HorizonOk, LogOk, ET.Check, AfterSubmit;
    if ET.Check(w.db, ws, req).None? {
      CheckedExists(w.db, ws, req);
      SubmitFields(w, ws, device, req, at);
      var next := AfterSubmit(w, ws, device, req, at);
      forall v | v in next.logs && v in next.pruned && next.pruned[v] != 0
        ensures next.pruned[v] !in next.db.events && exists e :: e in next.logs[v] && e.seqno == next.pruned[v]
      {
        var e :| e in w.logs[v] && e.seqno == w.pruned[v];
        assert e in next.logs[v];
        hide PrunedIsMissing;
        SeqnosAreOld(w, v, e);
      }
    } else {
      RefusedSubmit(w, ws, device, req, at);
    }
  }

  lemma SeqnosAreOld(w: World, ws: WorkspaceId, e: Event)
    requires KeysOk(w.db) && LogsOk(w) && EventsOk(w) && ws in w.logs && e in w.logs[ws]
    ensures e.seqno < w.db.nextSeq
  {
    hide LogOk, EventsOk;
    ReadEvents(w, ws);
  }

  lemma SaveKeepsMissing(w: World, ws: WorkspaceId, device: DeviceId, req: ST.Request, at: Time)
    requires PrunedIsMissing(w)
    ensures PrunedIsMissing(AfterSave(w, ws, device, req, at))
  {
    hide ST.Check, AfterSave;
    if ST.Check(w.db, ws, req).None? {
      SaveFields(w, ws, device, req, at);
    } else {
      RefusedSave(w, ws, device, req, at);
    }
  }

  lemma PruneKeepsMissing(w: World, at: Time, retention: int, zeroRetention: int, unlinked: set<ObjectId>)
    requires Inv(w) && PrunedIsMissing(w)
    ensures PrunedIsMissing(AfterPrune(w, at, retention, zeroRetention, unlinked))
  {
    hide NamesOk, CountsOk, RootsOk, HeadsOk, FloorsOk, BootstrapAfter, LogOk, Retention.Prune;
    hide Retention.PrunedObjects, HighestPruned, Retention.ExpiredEvents;
    var next := AfterPrune(w, at, retention, zeroRetention, unlinked);
    var gone := Retention.ExpiredEvents(w.db, at - retention);
    PruneFields(w, at, retention, zeroRetention);
    assert next.db.events == map s | s in w.db.events && s !in gone :: w.db.events[s];
    forall v | v in next.logs && v in next.pruned && next.pruned[v] != 0
      ensures next.pruned[v] !in next.db.events && exists e :: e in next.logs[v] && e.seqno == next.pruned[v]
    {
      HighestIsOldOrGone(w, v, gone);
      var p := HighestPruned(w, v, gone);
      if p == w.pruned[v] {
        var e :| e in w.logs[v] && e.seqno == w.pruned[v];
      } else {
        assert w.db.events[p] in w.logs[v];
      }
    }
  }

  lemma HighestIsOldOrGone(w: World, ws: WorkspaceId, gone: set<int>)
    requires ws in w.pruned && 0 <= w.pruned[ws]
    ensures var p := HighestPruned(w, ws, gone);
            p == w.pruned[ws] || (p in gone && p in w.db.events && w.db.events[p].ws == ws)
  {
    hide Highest;
    var mine := set s | s in gone && s in w.db.events && w.db.events[s].ws == ws;
    assert mine != {} ==> Highest(mine) in mine by { HighestIsMember(mine); }
    assert mine == {} ==> Highest(mine) == 0 by { HighestIsMember(mine); }
  }

  lemma HighestIsMember(s: set<int>)
    ensures s != {} ==> Highest(s) in s
    ensures s == {} ==> Highest(s) == 0
  {}

  lemma {:induction false} RunKeepsMissing(w: World, steps: seq<Step>)
    requires Inv(w) && PrunedIsMissing(w)
    ensures PrunedIsMissing(Run(w, steps))
    decreases |steps|
  {
    hide Inv, Next, PrunedIsMissing;
    if steps != [] {
      var n := |steps| - 1;
      RunKeepsMissing(w, steps[..n]);
      RunKeepsInv(w, steps[..n]);
      StepKeepsMissing(Run(w, steps[..n]), steps[n]);
    }
  }

  lemma {:induction false} AscendingIsStored(db: Db, seqs: set<int>, limit: nat, e: Event)
    requires forall s | s in seqs :: s in db.events
    requires e in ET.Ascending(db, seqs, limit)
    ensures exists s :: s in seqs && db.events[s] == e
    decreases limit
  {
    hide Least;
    var first := Least(seqs);
    assert first in seqs by { LeastIsMember(seqs); }
    if e != db.events[first] {
      AscendingIsStored(db, seqs - {first}, limit - 1, e);
    }
  }

  lemma LeastIsMember(s: set<int>)
    requires s != {}
    ensures Least(s) in s
  {}

  /**
    A fetch that is not answered with a resync returns the whole log above its cursor if and only if
    the cursor is not below the highest event ever pruned. The floor does not decide it.
  */
  lemma FetchCompleteIff(w: World, ws: WorkspaceId, after: int, limit: nat)
    requires Reachable(w) && ws in w.logs && ws in w.pruned && ws in w.db.workspaces
    requires 0 <= after && w.db.workspaces[ws].floor <= after && |w.logs[ws]| <= limit
    ensures |UpTo(w.logs[ws], after)| <= |w.logs[ws]|
    ensures ET.Fetch(w.db, ws, after, limit) == ET.Page(After(w.logs[ws], after), w.db.workspaces[ws].current)
            <==> w.pruned[ws] <= after
  {
    hide Reachable, NamesOk, CountsOk, RootsOk, HeadsOk, FloorsOk, HorizonOk, LogOk, EventsOk, ET.Ascending, After;
    hide Increasing;
    ReachableStatesAreSound(w);
    ReachableIsMissing(w);
    ReadLog(w, ws);
    AfterIsSuffix(w.logs[ws], after);
    if w.pruned[ws] <= after {
      FetchIsComplete(w, ws, after, limit);
    } else {
      var e :| e in w.logs[ws] && e.seqno == w.pruned[ws];
      assert e in After(w.logs[ws], after);
      if e in ET.Ascending(w.db, ET.Stored(w.db, ws, after), limit) {
        AscendingIsStored(w.db, ET.Stored(w.db, ws, after), limit, e);
      }
    }
  }

  /** Adding a root to a pruned workspace opens the gap: the floor falls to zero below pruned events. */
  lemma RootAddOpensGap(w: World, ws: WorkspaceId, device: DeviceId, req: ET.Request, at: Time, limit: nat)
    requires Reachable(w) && ws in w.logs && ws in w.pruned && w.pruned[ws] != 0
    requires req.kind.RootAdd? && ET.Check(w.db, ws, req).None?
    requires |w.logs[ws]| < limit
    ensures var next := AfterSubmit(w, ws, device, req, at);
            && ws in next.logs && ws in next.db.workspaces && next.db.workspaces[ws].floor == 0
            && |UpTo(next.logs[ws], 0)| <= |next.logs[ws]|
            && ET.Fetch(next.db, ws, 0, limit).Page?
            && ET.Fetch(next.db, ws, 0, limit) != ET.Page(After(next.logs[ws], 0), next.db.workspaces[ws].current)
  {
    hide Reachable, Inv, PrunedIsMissing, LogOk, EventsOk, ET.Check, ET.Ascending, After, AfterSubmit, UpTo;
    var next := AfterSubmit(w, ws, device, req, at);
    ReachableStatesAreSound(w);
    SubmitKeepsInv(w, ws, device, req, at);
    SubmitIsReachable(w, ws, device, req, at);
    SubmitFields(w, ws, device, req, at);
    ReadHorizon(w, next, ws);
    assert next.db.roots == ET.RootsAfter(w.db, ws, req);
    assert (ws, req.root) in ActiveRoots(next.db, ws);
    assert next.db.workspaces[ws].floor == 0;
    FetchCompleteIff(next, ws, 0, limit);
  }

  lemma ReachableIsMissing(w: World)
    requires Reachable(w)
    ensures PrunedIsMissing(w)
  {
    hide Run, Inv, PrunedIsMissing;
    var steps :| w == Run(EMPTY_WORLD, steps);
    NothingIsMissingAtFirst();
    RunKeepsMissing(EMPTY_WORLD, steps);
  }

  lemma SubmitIsReachable(w: World, ws: WorkspaceId, device: DeviceId, req: ET.Request, at: Time)
    requires Reachable(w)
    ensures Reachable(AfterSubmit(w, ws, device, req, at))
  {
    hide AfterSubmit, AfterCreate, AfterUpload, AfterSave, AfterPrune, AfterPurge;
    var steps :| w == Run(EMPTY_WORLD, steps);
    var longer := steps + [SubmitEvent(ws, device, req, at)];
    assert longer[..|longer| - 1] == steps;
    assert Run(EMPTY_WORLD, longer) == AfterSubmit(w, ws, device, req, at);
  }

  lemma ReadHorizon(w: World, next: World, ws: WorkspaceId)
    requires Inv(w) && Inv(next) && ws in w.logs && ws in next.logs
    ensures ws in w.pruned && 0 <= w.pruned[ws] && ws in next.db.workspaces
            && next.db.workspaces[ws].floor == RetainedFloor(next.db, ws)
  {}

  const SOME_WORKSPACE: WorkspaceId := WorkspaceId("w")
  const SOME_DEVICE: DeviceId := DeviceId("d")

  function Lifecycle(root: RootId, kind: EventType): ET.Request {
    ET.Request(root, PathId(""), kind, DirRoot, None, None, Descriptor(DirRoot, "docs"), [])
  }

  const FIRST_ROOT: RootId := RootId("r")
  const SECOND_ROOT: RootId := RootId("s")

  /** A root comes and goes, retention takes both events, and then another root is added. */
  const GAP_RUN: seq<Step> := [
    CreateWorkspace(SOME_WORKSPACE),
    SubmitEvent(SOME_WORKSPACE, SOME_DEVICE, Lifecycle(FIRST_ROOT, RootAdd), 0),
    SubmitEvent(SOME_WORKSPACE, SOME_DEVICE, Lifecycle(FIRST_ROOT, RootRemove), 0),
    Prune(0, 0, 0, {})]

  /** A workspace whose only root has been added, at seq 1. */
  lemma GapFirstAdd()
    ensures var w := Run(EMPTY_WORLD, GAP_RUN[..2]);
            && SOME_WORKSPACE in w.pruned && w.pruned[SOME_WORKSPACE] == 0
            && w.db.nextSeq == 2 && w.db.workspaces.Keys == {SOME_WORKSPACE}
            && w.db.workspaces[SOME_WORKSPACE].current == 1
            && w.db.roots.Keys == {(SOME_WORKSPACE, FIRST_ROOT)}
            && w.db.roots[(SOME_WORKSPACE, FIRST_ROOT)].removed.None?
            && SOME_WORKSPACE in w.logs && |w.logs[SOME_WORKSPACE]| == 1
  {
    hide RetainedFloor, Inv;
    var w1 := Next(EMPTY_WORLD, GAP_RUN[0]);
    assert GAP_RUN[..1][..0] == [] && GAP_RUN[..1] == [GAP_RUN[0]];
    assert Run(EMPTY_WORLD, GAP_RUN[..1]) == w1;
    assert GAP_RUN[..2][..1] == GAP_RUN[..1];
    assert Run(EMPTY_WORLD, GAP_RUN[..2]) == Next(w1, GAP_RUN[1]);
    assert ET.Check(w1.db, SOME_WORKSPACE, Lifecycle(FIRST_ROOT, RootAdd)).None?;
  }

  lemma GapPrefix()
    ensures var w := Run(EMPTY_WORLD, GAP_RUN[..3]);
            && SOME_WORKSPACE in w.pruned && SOME_WORKSPACE in w.db.workspaces
            && w.db.workspaces[SOME_WORKSPACE].current == 2
            && w.db.roots.Keys == {(SOME_WORKSPACE, FIRST_ROOT)}
            && w.db.roots[(SOME_WORKSPACE, FIRST_ROOT)].removed == Some(2)
            && 2 in w.db.events && w.db.events[2].ws == SOME_WORKSPACE && w.db.events[2].createdAt == 0
            && w.pruned[SOME_WORKSPACE] == 0 && SOME_WORKSPACE in w.logs && |w.logs[SOME_WORKSPACE]| == 2
  {
    hide RetainedFloor, Inv, Run;
    GapFirstAdd();
    var w2 := Run(EMPTY_WORLD, GAP_RUN[..2]);
    LastStep(EMPTY_WORLD, GAP_RUN[..3]);
    assert GAP_RUN[..3][..2] == GAP_RUN[..2];
    assert ET.Check(w2.db, SOME_WORKSPACE, Lifecycle(FIRST_ROOT, RootRemove)).None?;
  }

  lemma GapIsPruned()
    ensures var w := Run(EMPTY_WORLD, GAP_RUN);
            && Reachable(w) && Inv(w)
            && SOME_WORKSPACE in w.logs && SOME_WORKSPACE in w.pruned && |w.logs[SOME_WORKSPACE]| == 2
            && w.pruned[SOME_WORKSPACE] != 0
            && ET.Check(w.db, SOME_WORKSPACE, Lifecycle(SECOND_ROOT, RootAdd)).None?
  {
    hide Run, Retention.Prune, Retention.PrunedObjects, KeysOk, NamesOk, CountsOk, RootsOk, HeadsOk, EventsOk;
    hide HorizonOk, LogOk, Highest;
    var before := Run(EMPTY_WORLD, GAP_RUN[..3]);
    GapPrefix();
    ReachableByRun(GAP_RUN[..3]);
    ReachableStatesAreSound(Run(EMPTY_WORLD, GAP_RUN[..3]));
    ReachableByRun(GAP_RUN);
    ReachableStatesAreSound(Run(EMPTY_WORLD, GAP_RUN));
    assert Run(EMPTY_WORLD, GAP_RUN) == Next(before, GAP_RUN[3]) by { LastStep(EMPTY_WORLD, GAP_RUN); }
    PruneFields(before, 0, 0, 0);
    assert ActiveRoots(before.db, SOME_WORKSPACE) == {};
    assert before.db.workspaces[SOME_WORKSPACE].floor == 2;
    var gone := Retention.ExpiredEvents(before.db, 0);
    assert 2 in gone;
    PrunedCovers(before, SOME_WORKSPACE, gone, 2);
  }

  lemma NothingIsMissingAtFirst()
    ensures Inv(EMPTY_WORLD) && PrunedIsMissing(EMPTY_WORLD)
  {}

  lemma LastStep(w: World, steps: seq<Step>)
    requires steps != []
    ensures Run(w, steps) == Next(Run(w, steps[..|steps| - 1]), steps[|steps| - 1])
  {}

  /** The gap is reachable: after this run the first fetch of a new device silently misses events. */
  lemma GapIsReachable(limit: nat)
    requires 3 <= limit
    ensures var w := AfterSubmit(Run(EMPTY_WORLD, GAP_RUN), SOME_WORKSPACE, SOME_DEVICE,
            Lifecycle(SECOND_ROOT, RootAdd), 0);
            && SOME_WORKSPACE in w.logs && SOME_WORKSPACE in w.db.workspaces
            && |UpTo(w.logs[SOME_WORKSPACE], 0)| <= |w.logs[SOME_WORKSPACE]|
            && ET.Fetch(w.db, SOME_WORKSPACE, 0, limit).Page?
            && ET.Fetch(w.db, SOME_WORKSPACE, 0, limit) != ET.Page(After(w.logs[SOME_WORKSPACE], 0),
                w.db.workspaces[SOME_WORKSPACE].current)
  {
    hide Run, Reachable, Inv, AfterSubmit, ET.Fetch, After, UpTo;
    GapIsPruned();
    RootAddOpensGap(Run(EMPTY_WORLD, GAP_RUN), SOME_WORKSPACE, SOME_DEVICE, Lifecycle(SECOND_ROOT, RootAdd), 0, limit);
  }
}
