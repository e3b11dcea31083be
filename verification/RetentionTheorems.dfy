/**
  Retention over whole runs: the bootstrap cursor only moves forward within a workspace's lifetime, stays
  at or above the floor and everything ever pruned, and a fetch from it returns the log without a gap.
*/
module RetentionTheorems {
  import opened Records
  import opened EventLog
  import opened Tables
  import opened ServerState
  import opened SubmitProofs
  import opened HorizonProofs
  import opened ServerInvariant
  import ET = EventTable
  import ST = SnapshotTable
  import Retention
  import WorkspacePurge

  /** The events of a log above a cursor. */
  function After(log: seq<Event>, t: int): seq<Event>
    requires |UpTo(log, t)| <= |log|
  {
    log[|UpTo(log, t)|..]
  }

  function Take(s: seq<Event>, limit: nat): seq<Event> {
    if limit < |s| then s[..limit] else s
  }

  function Seqnos(log: seq<Event>): set<int> {
    set e | e in log :: e.seqno
  }

  lemma TakeCons(log: seq<Event>, limit: nat)
    requires log != [] && 0 < limit
    ensures Take(log, limit) == [log[0]] + Take(log[1..], limit - 1)
  {}

  lemma {:induction false} AscendingIsLog(db: Db, log: seq<Event>, limit: nat)
    requires Increasing(log)
    requires forall e | e in log :: e.seqno in db.events && db.events[e.seqno] == e
    ensures ET.Ascending(db, Seqnos(log), limit) == Take(log, limit)
    decreases limit
  {
    hide Least, Take, Seqnos;
    if log == [] || limit == 0 {
      EmptyTake(log, limit);
    } else {
      LeastIsFirst(log);
      TailSeqnos(log);
      AscendingIsLog(db, log[1..], limit - 1);
      TakeCons(log, limit);
      assert log[0] in log;
    }
  }

  lemma EmptyTake(log: seq<Event>, limit: nat)
    requires log == [] || limit == 0
    ensures Take(log, limit) == [] && (log == [] ==> Seqnos(log) == {})
  {}

  lemma LeastIsFirst(log: seq<Event>)
    requires Increasing(log) && log != []
    ensures Seqnos(log) != {} && Least(Seqnos(log)) == log[0].seqno
  {
    assert log[0] in log;
    assert log[0].seqno in Seqnos(log);
    forall s | s in Seqnos(log) ensures log[0].seqno <= s {
      var e :| e in log && e.seqno == s;
      var i :| 0 <= i < |log| && log[i] == e;
      assert i == 0 || log[0].seqno < log[i].seqno;
    }
    LeastIsUnique(Seqnos(log), log[0].seqno);
  }

  lemma TailSeqnos(log: seq<Event>)
    requires Increasing(log) && log != []
    ensures Seqnos(log) - {log[0].seqno} == Seqnos(log[1..])
  {
    var rest := log[1..];
    forall s | s in Seqnos(log) && s != log[0].seqno ensures s in Seqnos(rest) {
      var e :| e in log && e.seqno == s;
      var i :| 0 <= i < |log| && log[i] == e;
      assert rest[i - 1] == e;
    }
    forall s | s in Seqnos(rest) ensures s in Seqnos(log) && s != log[0].seqno {
      var e :| e in rest && e.seqno == s;
      var i :| 0 <= i < |rest| && rest[i] == e;
      assert log[i + 1] == e;
    }
  }

  lemma ReadEvents(w: World, ws: WorkspaceId)
    requires LogsOk(w) && EventsOk(w) && ws in w.logs
    ensures forall e | e in w.logs[ws] && w.pruned[ws] < e.seqno :: e.seqno in w.db.events && w.db.events[e.seqno] == e
    ensures forall s | s in w.db.events && w.db.events[s].ws == ws :: w.db.events[s] in w.logs[ws]
    ensures forall e | e in w.logs[ws] :: e.ws == ws && e.seqno <= w.db.workspaces[ws].current
  {
    hide Disciplined, Increasing;
    assert LogOk(w, ws);
    hide LogsOk, EventsOk;
    LatestIsHighest(w.logs[ws]);
  }

  lemma LatestIsHighest(log: seq<Event>)
    requires Increasing(log)
    ensures forall e | e in log :: e.seqno <= Latest(log)
  {
    forall e | e in log ensures e.seqno <= Latest(log) {
      var i :| 0 <= i < |log| && log[i] == e;
      var n := |log| - 1;
      assert i == n || log[i].seqno < log[n].seqno;
    }
  }

  /** The suffix of a log above a cursor holds exactly its events with a later seq. */
  lemma AfterIsSuffix(log: seq<Event>, after: int)
    requires Increasing(log)
    ensures |UpTo(log, after)| <= |log|
    ensures Increasing(After(log, after)) && |After(log, after)| <= |log|
    ensures forall e :: e in After(log, after) <==> e in log && after < e.seqno
  {
    hide UpTo;
    UpToIsPrefix(log, after);
    var n := |UpTo(log, after)|;
    var rest := After(log, after);
    forall e ensures e in rest <==> e in log && after < e.seqno {
      SuffixMembers(log, n, after, e);
    }
  }

  lemma SuffixMembers(log: seq<Event>, n: nat, after: int, e: Event)
    requires n <= |log|
    requires forall i | 0 <= i < |log| :: i < n <==> log[i].seqno <= after
    ensures e in log[n..] <==> e in log && after < e.seqno
  {
    if e in log[n..] {
      var i :| 0 <= i < |log[n..]| && log[n..][i] == e;
      assert log[n + i] == e;
    }
    if e in log && after < e.seqno {
      var i :| 0 <= i < |log| && log[i] == e;
      assert log[n..][i - n] == e;
    }
  }

  /** Above everything pruned, the stored events of a workspace are exactly its log. */
  lemma StoredIsLog(w: World, ws: WorkspaceId, after: int)
    requires KeysOk(w.db) && LogsOk(w) && EventsOk(w) && ws in w.logs && w.pruned[ws] <= after
    ensures |UpTo(w.logs[ws], after)| <= |w.logs[ws]|
    ensures ET.Stored(w.db, ws, after) == Seqnos(After(w.logs[ws], after))
    ensures Increasing(After(w.logs[ws], after))
    ensures forall e | e in After(w.logs[ws], after) :: e.seqno in w.db.events && w.db.events[e.seqno] == e
  {
    hide LogOk, EventsOk, Disciplined, After, Increasing;
    ReadLog(w, ws);
    ReadEvents(w, ws);
    AfterIsSuffix(w.logs[ws], after);
    hide LogsOk;
    var rest := After(w.logs[ws], after);
    forall s | s in ET.Stored(w.db, ws, after) ensures s in Seqnos(rest) {
      assert w.db.events[s] in rest;
    }
    forall s | s in Seqnos(rest) ensures s in ET.Stored(w.db, ws, after) {
      var e :| e in rest && e.seqno == s;
    }
  }

  /**
    A fetch that starts at or above everything pruned is complete: the first `limit` events of the
    log above the cursor, in order, none missing.
  */
  lemma FetchIsComplete(w: World, ws: WorkspaceId, after: int, limit: nat)
    requires Inv(w) && ws in w.logs && w.pruned[ws] <= after && w.db.workspaces[ws].floor <= after
    ensures |UpTo(w.logs[ws], after)| <= |w.logs[ws]|
    ensures ET.Fetch(w.db, ws, after, limit) ==
            ET.Page(Take(After(w.logs[ws], after), limit), w.db.workspaces[ws].current)
  {
    hide NamesOk, CountsOk, RootsOk, HeadsOk, FloorsOk, HorizonOk, LogOk, EventsOk, ET.Ascending;
    StoredIsLog(w, ws, after);
    AscendingIsLog(w.db, After(w.logs[ws], after), limit);
  }

  /** At the cursor a bootstrap hands out nothing is left to fetch only if the floor is there too. */
  lemma CursorAtHead(w: World, ws: WorkspaceId)
    requires Inv(w) && ws in w.logs && BootstrapAfter(w.db, ws) == w.db.workspaces[ws].current
    ensures w.db.workspaces[ws].floor == w.db.workspaces[ws].current
  {
    hide NamesOk, CountsOk, HeadsOk, EventsOk, LogOk, BootstrapAfter, HorizonOk;
    var current := w.db.workspaces[ws].current;
    BoundedBelow(w.db, ws, current);
    RowsFromRoots(w, ws);
    assert w.db.workspaces[ws].floor == RetainedFloor(w.db, ws);
    forall k | k in ActiveRoots(w.db, ws) ensures w.db.roots[k].snapshotSeq == Some(current) {
      assert current <= Contribution(w.db.roots[k]);
    }
  }

  /** The log's last event is stored unless everything was pruned. */
  lemma HeadIsStored(w: World, ws: WorkspaceId)
    requires Inv(w) && ws in w.logs && 0 < w.db.workspaces[ws].current && w.pruned[ws] < w.db.workspaces[ws].current
    ensures w.db.workspaces[ws].current in w.db.events && w.db.events[w.db.workspaces[ws].current].ws == ws
  {
    hide NamesOk, CountsOk, RootsOk, HeadsOk, FloorsOk, HorizonOk, Disciplined, Increasing;
    assert LogOk(w, ws);
    var log := w.logs[ws];
    assert log[|log| - 1] in log;
  }

  /**
    Wherever a client stands, above the horizon or below it: a fetch that is not answered with a resync
    returns an event if there is any newer one, so a catch-up never runs into its "no progress" error.
  */
  lemma FetchMakesProgress(w: World, ws: WorkspaceId, after: int, limit: nat)
    requires Reachable(w) && ws in w.logs && ws in w.db.workspaces && 0 < limit && 0 <= after
    requires w.db.workspaces[ws].floor <= after < w.db.workspaces[ws].current
    ensures ET.Fetch(w.db, ws, after, limit).Page? && ET.Fetch(w.db, ws, after, limit).events != []
  {
    hide NamesOk, CountsOk, RootsOk, HeadsOk, EventsOk, FloorsOk, LogOk, KeysOk, BootstrapAfter;
    hide Reachable;
    ReachableStatesAreSound(w);
    var current := w.db.workspaces[ws].current;
    CursorBelowHead(w, ws);
    if w.pruned[ws] == current {
      CursorAtHead(w, ws);
    } else {
      HeadIsStored(w, ws);
      assert current in ET.Stored(w.db, ws, after);
    }
  }

  lemma CursorBelowHead(w: World, ws: WorkspaceId)
    requires Inv(w) && ws in w.logs
    ensures BootstrapAfter(w.db, ws) <= w.db.workspaces[ws].current
  {
    hide NamesOk, CountsOk, HeadsOk, EventsOk, FloorsOk, LogOk, HorizonOk, BootstrapAfter, KeysOk;
    RowsFromRoots(w, ws);
    BoundedBelow(w.db, ws, BootstrapAfter(w.db, ws));
    if ActiveRoots(w.db, ws) == {} {
      NoRootsAtHead(w.db, ws);
    } else {
      var k := Pick(ActiveRoots(w.db, ws));
      assert BootstrapAfter(w.db, ws) <= Contribution(w.db.roots[k]);
    }
  }

  lemma NoRootsAtHead(db: Db, ws: WorkspaceId)
    requires ws in db.workspaces && ActiveRoots(db, ws) == {}
    ensures BootstrapAfter(db, ws) == db.workspaces[ws].current
  {}

  lemma QuietStepKeepsCursor(w: World, step: Step, ws: WorkspaceId)
    requires LogsOk(w) && ws in w.db.workspaces && (step.CreateWorkspace? || step.Upload?)
    ensures ws in Next(w, step).db.workspaces
    ensures BootstrapAfter(w.db, ws) == BootstrapAfter(Next(w, step).db, ws)
  {
    hide BootstrapAfter, RetainedFloor, LogsOk;
    var next := Next(w, step);
    QuietStepFields(w, step, ws);
    hide Next;
    OtherWorkspace(w.db, next.db, ws);
    SameRootsSameFloor(w.db, next.db, ws);
  }

  lemma QuietStepFields(w: World, step: Step, ws: WorkspaceId)
    requires ws in w.db.workspaces && (step.CreateWorkspace? || step.Upload?)
    ensures var db := Next(w, step).db;
            ws in db.workspaces && db.workspaces[ws] == w.db.workspaces[ws] && db.roots == w.db.roots
  {
    hide AfterCreate, AfterUpload, AfterSubmit, AfterSave, AfterPrune, AfterPurge;
    if step.Upload? {
      UploadFields(w, step.ws, step.obj, step.at);
    } else {
      CreateFields(w, step.ws, ws);
    }
  }

  lemma CreateFields(w: World, v: WorkspaceId, ws: WorkspaceId)
    requires ws in w.db.workspaces
    ensures var db := AfterCreate(w, v).db;
            ws in db.workspaces && db.workspaces[ws] == w.db.workspaces[ws] && db.roots == w.db.roots
  {}

  lemma PruneStepKeepsCursor(w: World, at: Time, retention: int, zeroRetention: int, unlinked: set<ObjectId>,
                             ws: WorkspaceId)
    requires ws in w.db.workspaces
    ensures var next := AfterPrune(w, at, retention, zeroRetention, unlinked);
            ws in next.db.workspaces && BootstrapAfter(w.db, ws) == BootstrapAfter(next.db, ws)
  {
    hide BootstrapAfter, RetainedFloor, Retention.Prune, Retention.PrunedObjects, HighestPruned;
    PruneFields(w, at, retention, zeroRetention);
    SameRootsKeepFloors(w.db, AfterPrune(w, at, retention, zeroRetention, unlinked).db);
  }

  lemma StepRaisesCursor(w: World, step: Step, ws: WorkspaceId)
    requires Inv(w) && ws in w.db.workspaces
    requires !(step.Purge? && step.ws == ws)
    ensures ws in Next(w, step).db.workspaces
    ensures BootstrapAfter(w.db, ws) <= BootstrapAfter(Next(w, step).db, ws)
  {
    hide BootstrapAfter, LogsOk, RootsOk, HeadsOk, EventsOk, CountsOk, NamesOk, FloorsOk, HorizonOk, KeysOk;
    hide AfterCreate, AfterUpload, AfterSubmit, AfterSave, AfterPrune, AfterPurge;
    match step
    case CreateWorkspace(v) => QuietStepKeepsCursor(w, step, ws);
    case Upload(v, o, at) => QuietStepKeepsCursor(w, step, ws);
    case SubmitEvent(v, device, req, at) => SubmitStepRaisesCursor(w, v, device, req, at, ws);
    case SaveSnapshot(v, device, snap, at) => SaveStepRaisesCursor(w, v, device, snap, at, ws);
    case Prune(at, retention, zeroRetention, unlinked) =>
      PruneStepKeepsCursor(w, at, retention, zeroRetention, unlinked, ws);
    case Purge(v, at) => PurgeStepKeepsCursor(w, v, at, ws);
  }

  lemma SubmitStepRaisesCursor(w: World, v: WorkspaceId, device: DeviceId, req: ET.Request, at: Time, ws: WorkspaceId)
    requires Inv(w) && ws in w.db.workspaces
    ensures var next := AfterSubmit(w, v, device, req, at);
            ws in next.db.workspaces && BootstrapAfter(w.db, ws) <= BootstrapAfter(next.db, ws)
  {
    hide BootstrapAfter, LogOk, RootsOk, HeadsOk, EventsOk, CountsOk, NamesOk, FloorsOk, HorizonOk, ET.Check;
    hide AfterSubmit;
    var next := AfterSubmit(w, v, device, req, at);
    if ET.Check(w.db, v, req).None? {
      CheckedExists(w.db, v, req);
      SubmitFields(w, v, device, req, at);
      if v == ws {
        RowsFromRoots(w, ws);
        hide LogsOk;
        SubmitRaisesCursor(w.db, next.db, ws, req);
      } else {
        OtherWorkspace(w.db, next.db, ws);
        SameRootsSameFloor(w.db, next.db, ws);
      }
    } else {
      RefusedSubmit(w, v, device, req, at);
    }
  }

  lemma SaveStepRaisesCursor(w: World, v: WorkspaceId, device: DeviceId, req: ST.Request, at: Time, ws: WorkspaceId)
    requires Inv(w) && ws in w.db.workspaces
    ensures var next := AfterSave(w, v, device, req, at);
            ws in next.db.workspaces && BootstrapAfter(w.db, ws) <= BootstrapAfter(next.db, ws)
  {
    hide BootstrapAfter, LogOk, RootsOk, HeadsOk, EventsOk, CountsOk, NamesOk, FloorsOk, HorizonOk, ST.Check;
    hide AfterSave, ST.Raise, WithFloor;
    var next := AfterSave(w, v, device, req, at);
    if ST.Check(w.db, v, req).None? {
      SaveFields(w, v, device, req, at);
      if v == ws {
        SaveRaisesCursor(w.db, next.db, ws, req);
      } else {
        OtherWorkspace(w.db, next.db, ws);
        SameRootsSameFloor(w.db, next.db, ws);
      }
    } else {
      RefusedSave(w, v, device, req, at);
    }
  }

  lemma PurgeStepKeepsCursor(w: World, v: WorkspaceId, at: Time, ws: WorkspaceId)
    requires ws in w.db.workspaces && v != ws
    ensures var next := AfterPurge(w, v, at);
            ws in next.db.workspaces && BootstrapAfter(w.db, ws) == BootstrapAfter(next.db, ws)
  {
    hide BootstrapAfter, WorkspacePurge.Purged, WorkspacePurge.Candidates;
    if v in w.db.workspaces {
      var next := AfterPurge(w, v, at);
      PurgeFields(w.db, v, WorkspacePurge.Candidates(w.db, v), at);
      OtherWorkspace(w.db, next.db, ws);
      SameRootsSameFloor(w.db, next.db, ws);
    }
  }

  /** A workspace that no step of the run purges lives through the run. */
  ghost predicate Unpurged(steps: seq<Step>, ws: WorkspaceId) {
    forall i | 0 <= i < |steps| :: !(steps[i].Purge? && steps[i].ws == ws)
  }

  lemma {:induction false} CursorNeverFallsBack(w: World, steps: seq<Step>, ws: WorkspaceId)
    requires Inv(w) && ws in w.db.workspaces && Unpurged(steps, ws)
    ensures ws in Run(w, steps).db.workspaces
    ensures BootstrapAfter(w.db, ws) <= BootstrapAfter(Run(w, steps).db, ws)
    decreases |steps|
  {
    hide Inv, Next, BootstrapAfter;
    if steps != [] {
      var n := |steps| - 1;
      CursorNeverFallsBack(w, steps[..n], ws);
      RunKeepsInv(w, steps[..n]);
      StepRaisesCursor(Run(w, steps[..n]), steps[n], ws);
    }
  }

  /**
    The retention horizon, over every run within one lifetime of a workspace: the cursor handed out at
    the end is not below the one handed out at the start, it is at or above the floor and everything
    pruned, and a fetch from it or from above is answered with the log itself, not with a resync. A
    client that kept an older cursor may find it below the floor.
  */
  lemma RetentionHorizon(w: World, steps: seq<Step>, ws: WorkspaceId, after: int, limit: nat)
    requires Inv(w) && ws in w.db.workspaces && Unpurged(steps, ws)
    requires ws in Run(w, steps).db.workspaces ==> BootstrapAfter(Run(w, steps).db, ws) <= after
    ensures var end := Run(w, steps);
            && ws in end.db.workspaces && ws in end.logs && ws in end.pruned
            && BootstrapAfter(w.db, ws) <= BootstrapAfter(end.db, ws)
            && end.db.workspaces[ws].floor <= BootstrapAfter(end.db, ws)
            && end.pruned[ws] <= BootstrapAfter(end.db, ws)
            && (forall e | e in end.logs[ws] && BootstrapAfter(end.db, ws) < e.seqno ::
                  e.seqno in end.db.events && end.db.events[e.seqno] == e)
            && |UpTo(end.logs[ws], after)| <= |end.logs[ws]|
            && ET.Fetch(end.db, ws, after, limit) ==
                ET.Page(Take(After(end.logs[ws], after), limit), end.db.workspaces[ws].current)
  {
    hide BootstrapAfter, RetainedFloor, LogOk, RootsOk, HeadsOk, EventsOk, CountsOk, NamesOk, KeysOk, Run, ET.Fetch;
    CursorNeverFallsBack(w, steps, ws);
    RunKeepsInv(w, steps);
    var end := Run(w, steps);
    RowsFromRoots(end, ws);
    FloorBelowCursor(end.db, ws);
    ReadEvents(end, ws);
    FetchIsComplete(end, ws, after, limit);
  }
}
