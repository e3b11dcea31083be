/**
  The bootstrap handler reads the active roots first and the head afterwards, in two statements of their
  own. Whatever commits in between, its answer is one moment's answer unless it lists no root although
  one is active by the second read. Then, and only then, the client misses a root.
*/
module BootstrapReads {
  import opened Records
  import opened EventLog
  import opened Tables
  import opened ServerState
  import opened SubmitProofs
  import opened HorizonProofs
  import opened ServerInvariant
  import opened RetentionTheorems
  import FetchGaps
  import ET = EventTable
  import ST = SnapshotTable

  /** The part of a bootstrap response that a client uses. */
  datatype Answer = Answer(listed: map<RootKey, RootRow>, after: int)

  /** The response of a handler that reads the roots in one state and the head in another. */
  ghost function Answered(rootsRead: Db, headRead: Db, ws: WorkspaceId): Answer
    requires ws in headRead.workspaces
  {
    var rows := ActiveRows(rootsRead, ws);
    Answer(rows, CursorFrom(rows, headRead.workspaces[ws].current))
  }

  /** The response of a handler whose two reads see the same state. */
  ghost function AnsweredAtOnce(db: Db, ws: WorkspaceId): Answer
    requires ws in db.workspaces
  {
    Answer(ActiveRows(db, ws), BootstrapAfter(db, ws))
  }

  /** A client with this answer knows the root, or receives its root_add when it fetches from the cursor. */
  ghost predicate Covers(answer: Answer, k: RootKey, created: int) {
    (k in answer.listed && answer.listed[k].created == created) || answer.after < created
  }

  /** What a step leaves of a workspace it does not purge: its log, possibly longer. */
  lemma StepGrowsLog(w: World, step: Step, ws: WorkspaceId)
    requires Inv(w) && ws in w.logs && !(step.Purge? && step.ws == ws)
    ensures ws in Next(w, step).logs && w.logs[ws] <= Next(w, step).logs[ws]
  {
    hide Inv, AfterSubmit, AfterSave, ET.Check, ST.Check;
    match step
    case SubmitEvent(v, device, req, at) =>
      SubmitGrowsLog(w, v, device, req, at, ws);
    case SaveSnapshot(v, device, snap, at) =>
      if ST.Check(w.db, v, snap).None? {
        SaveFields(w, v, device, snap, at);
      } else {
        RefusedSave(w, v, device, snap, at);
      }
    case _ => QuietStepGrowsLog(w, step, ws);
  }

  lemma SubmitGrowsLog(w: World, v: WorkspaceId, device: DeviceId, req: ET.Request, at: Time, ws: WorkspaceId)
    requires Inv(w) && ws in w.logs
    ensures var next := AfterSubmit(w, v, device, req, at); ws in next.logs && w.logs[ws] <= next.logs[ws]
  {
    hide AfterSubmit, ET.Check, ET.Committed, LogOk, KeysOk, NamesOk, CountsOk, RootsOk, HeadsOk, EventsOk;
    hide FloorsOk, HorizonOk;
    if ET.Check(w.db, v, req).None? {
      CheckedExists(w.db, v, req);
      SubmitFields(w, v, device, req, at);
    } else {
      RefusedSubmit(w, v, device, req, at);
    }
  }

  lemma QuietStepGrowsLog(w: World, step: Step, ws: WorkspaceId)
    requires Inv(w) && ws in w.logs && !(step.Purge? && step.ws == ws)
    requires !step.SubmitEvent? && !step.SaveSnapshot?
    ensures ws in Next(w, step).logs && w.logs[ws] <= Next(w, step).logs[ws]
  {
    hide LogOk, KeysOk, NamesOk, CountsOk, RootsOk, HeadsOk, EventsOk, FloorsOk, HorizonOk;
  }

  /** Within one lifetime of a workspace its log only grows. */
  lemma {:induction false} LogGrows(w: World, steps: seq<Step>, ws: WorkspaceId)
    requires Inv(w) && ws in w.logs && Unpurged(steps, ws)
    ensures ws in Run(w, steps).logs && w.logs[ws] <= Run(w, steps).logs[ws]
    decreases |steps|
  {
    hide Inv, Next;
    if steps != [] {
      var n := |steps| - 1;
      LogGrows(w, steps[..n], ws);
      RunKeepsInv(w, steps[..n]);
      StepGrowsLog(Run(w, steps[..n]), steps[n], ws);
    }
  }

  /** An incarnation opened within a prefix of the log was open at the end of that prefix. */
  lemma {:induction false} IncarnationBefore(log: seq<Event>, later: seq<Event>, root: RootId)
    requires Increasing(later) && log <= later
    requires Incarnation(later, root).Some? && 1 <= Incarnation(later, root).value <= Latest(log)
    ensures Incarnation(log, root) == Incarnation(later, root)
    decreases |later|
  {
    if log != later {
      var n := |later| - 1;
      assert later[|log| - 1].seqno < later[n].seqno;
      IncarnationBefore(log, later[..n], root);
    }
  }

  /** A root active later whose root_add the earlier state knows was active there, in the same incarnation. */
  lemma SurvivorWasActive(w: World, next: World, ws: WorkspaceId, root: RootId)
    requires Inv(w) && Inv(next) && ws in w.logs && ws in next.logs && w.logs[ws] <= next.logs[ws]
    requires ws in w.db.workspaces && IsActive(next.db, ws, root)
    requires next.db.roots[(ws, root)].created <= w.db.workspaces[ws].current
    ensures IsActive(w.db, ws, root) && w.db.roots[(ws, root)].created == next.db.roots[(ws, root)].created
  {
    hide KeysOk, NamesOk, CountsOk, HeadsOk, EventsOk, FloorsOk, HorizonOk, Increasing, Disciplined, LogOk;
    ReadLog(w, ws);
    ReadLog(next, ws);
    assert RootOk(w, ws, root) && RootOk(next, ws, root);
    IncarnationBefore(w.logs[ws], next.logs[ws], root);
  }

  /** A root active in a state was added at or below that state's head. */
  lemma CreatedBelowHead(w: World, ws: WorkspaceId, root: RootId)
    requires Inv(w) && ws in w.logs && ws in w.db.workspaces && IsActive(w.db, ws, root)
    ensures 1 <= w.db.roots[(ws, root)].created <= w.db.workspaces[ws].current
  {
    hide KeysOk, NamesOk, CountsOk, HeadsOk, EventsOk, FloorsOk, HorizonOk, LogOk;
    assert RootOk(w, ws, root);
  }

  /** The two states of a bootstrap's reads: any run may lie between them that does not purge the workspace. */
  ghost predicate Reads(w: World, steps: seq<Step>, ws: WorkspaceId) {
    Reachable(w) && ws in w.logs && Unpurged(steps, ws)
  }

  lemma ReadsAreSound(w: World, steps: seq<Step>, ws: WorkspaceId)
    requires Reads(w, steps, ws)
    ensures var next := Run(w, steps);
            && Inv(w) && Inv(next) && ws in w.db.workspaces && ws in next.db.workspaces
            && ws in w.logs && ws in next.logs && w.logs[ws] <= next.logs[ws]
  {
    hide Reachable, Run, LogOk, KeysOk, NamesOk, CountsOk, RootsOk, HeadsOk, EventsOk, FloorsOk, HorizonOk;
    ReachableStatesAreSound(w);
    RunKeepsInv(w, steps);
    LogGrows(w, steps, ws);
  }

  /**
    The answer is what a handler would give that made both reads at the first moment, or both at the
    second, if and only if some root was active at the first read or none is active at the second.
  */
  lemma AnswerIsOneMomentsIff(w: World, steps: seq<Step>, ws: WorkspaceId)
    requires Reads(w, steps, ws)
    ensures var next := Run(w, steps);
            && ws in w.db.workspaces && ws in next.db.workspaces
            && (Answered(w.db, next.db, ws) == AnsweredAtOnce(w.db, ws)
                || Answered(w.db, next.db, ws) == AnsweredAtOnce(next.db, ws) <==>
                ActiveRoots(w.db, ws) != {} || ActiveRoots(next.db, ws) == {})
  {
    hide Run, Inv, Reads, ActiveRoots, BootstrapAfter, CursorFrom;
    var next := Run(w, steps);
    ReadsAreSound(w, steps, ws);
    CursorFromRows(w.db, ws, next.db.workspaces[ws].current);
    CursorFromRows(next.db, ws, next.db.workspaces[ws].current);
    if ActiveRoots(w.db, ws) == {} {
      NoRootsAtHead(w.db, ws);
      if ActiveRoots(next.db, ws) == {} {
        NoRootsAtHead(next.db, ws);
      } else {
        NewRootRaisesHead(w, next, ws);
      }
    }
  }

  /** If no root was active and one is later, the head has moved past the first state's head. */
  lemma NewRootRaisesHead(w: World, next: World, ws: WorkspaceId)
    requires Inv(w) && Inv(next) && ws in w.logs && ws in next.logs && w.logs[ws] <= next.logs[ws]
    requires ws in w.db.workspaces && ws in next.db.workspaces
    requires ActiveRoots(w.db, ws) == {} && ActiveRoots(next.db, ws) != {}
    ensures w.db.workspaces[ws].current < next.db.workspaces[ws].current
  {
    hide Inv;
    var k := Pick(ActiveRoots(next.db, ws));
    CreatedBelowHead(next, ws, k.1);
    assert IsActive(w.db, ws, k.1) <==> k in ActiveRoots(w.db, ws);
    if next.db.workspaces[ws].current <= w.db.workspaces[ws].current {
      SurvivorWasActive(w, next, ws, k.1);
    }
  }

  /**
    Every root active at the second read is listed in its current incarnation or is announced by a
    root_add above the cursor, if and only if the same condition holds.
  */
  lemma NoRootIsMissedIff(w: World, steps: seq<Step>, ws: WorkspaceId)
    requires Reads(w, steps, ws)
    ensures var next := Run(w, steps);
            && ws in next.db.workspaces
            && ((forall k | k in ActiveRoots(next.db, ws) ::
                   Covers(Answered(w.db, next.db, ws), k, next.db.roots[k].created)) <==>
                ActiveRoots(w.db, ws) != {} || ActiveRoots(next.db, ws) == {})
  {
    hide Run, Inv, Reads, BootstrapAfter, CursorFrom;
    var next := Run(w, steps);
    ReadsAreSound(w, steps, ws);
    CursorFromRows(w.db, ws, next.db.workspaces[ws].current);
    CursorBelowHead(w, ws);
    var answer := Answered(w.db, next.db, ws);
    forall k | k in ActiveRoots(next.db, ws)
      ensures Covers(answer, k, next.db.roots[k].created) <==> ActiveRoots(w.db, ws) != {}
    {
      CreatedBelowHead(next, ws, k.1);
      if next.db.roots[k].created <= w.db.workspaces[ws].current {
        SurvivorWasActive(w, next, ws, k.1);
      }
    }
    if ActiveRoots(next.db, ws) != {} {
      var k := Pick(ActiveRoots(next.db, ws));
    }
  }

  /** A run in which the first root is added between the two reads: the answer neither lists nor announces it. */
  lemma RootAddedBetweenReadsIsMissed()
    ensures var ws := FetchGaps.SOME_WORKSPACE;
            var w := Run(EMPTY_WORLD, FetchGaps.GAP_RUN[..1]);
            var steps := FetchGaps.GAP_RUN[1..2];
            var next := Run(w, steps);
            var k := (ws, FetchGaps.FIRST_ROOT);
            && Reads(w, steps, ws) && ws in next.db.workspaces && k in ActiveRoots(next.db, ws)
            && Answered(w.db, next.db, ws) == Answer(map[], 1)
            && !Covers(Answered(w.db, next.db, ws), k, next.db.roots[k].created)
  {
    hide RetainedFloor, Inv, BootstrapAfter;
    var ws := FetchGaps.SOME_WORKSPACE;
    var w := Run(EMPTY_WORLD, FetchGaps.GAP_RUN[..1]);
    var steps := FetchGaps.GAP_RUN[1..2];
    FetchGaps.GapFirstAdd();
    ReachableByRun(FetchGaps.GAP_RUN[..1]);
    FetchGaps.LastStep(EMPTY_WORLD, FetchGaps.GAP_RUN[..1]);
    FetchGaps.LastStep(EMPTY_WORLD, FetchGaps.GAP_RUN[..2]);
    assert FetchGaps.GAP_RUN[..2][..1] == FetchGaps.GAP_RUN[..1];
    assert FetchGaps.GAP_RUN[..1][..0] == [] && steps[..0] == [];
    assert Run(w, steps) == Run(EMPTY_WORLD, FetchGaps.GAP_RUN[..2]);
    assert Reads(w, steps, ws);
    var next := Run(w, steps);
    assert ActiveRoots(w.db, ws) == {};
    CursorFromRows(w.db, ws, 1);
  }
}
