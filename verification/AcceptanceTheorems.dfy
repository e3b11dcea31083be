/**
  Optimistic concurrency, stated on the log alone: exactly which content events the server accepts,
  and what that means for the order of accepted events on one path.
*/
module AcceptanceTheorems {
  import opened Records
  import opened EventLog
  import opened Tables
  import opened ServerState
  import opened SubmitProofs
  import opened ServerInvariant
  import SnapshotTable
  import ET = EventTable

  /** The base a content event carries is not behind the path's head, and is zero if there is none. */
  ghost predicate NotBehind(log: seq<Event>, root: RootId, path: PathId, base: int) {
    match Head(log, root, path)
    case None => base == 0
    case Some(head) => head.seqno <= base
  }

  ghost predicate WellFormed(db: Db, ws: WorkspaceId, req: ET.Request) {
    && req.root.text != "" && ws in db.workspaces
    && (req.kind.DirPut? || req.kind.FilePut? || req.kind.Delete?)
    && (forall o | o in req.refs :: IsVisible(db, ws, o))
    && req.path.text != "" && req.base.Some?
  }

  /**
    A content event is accepted if and only if it is well-formed, its root is active, a bound it carries
    names that very incarnation, and no event on its path came after its base.
  */
  lemma ContentAcceptedIff(w: World, ws: WorkspaceId, req: ET.Request)
    requires Inv(w) && (req.kind.DirPut? || req.kind.FilePut? || req.kind.Delete?)
    ensures ws in w.db.workspaces <==> ws in w.logs
    ensures ET.Check(w.db, ws, req).None? <==>
            && WellFormed(w.db, ws, req)
            && Incarnation(w.logs[ws], req.root).Some?
            && (req.bound.Some? ==> req.bound == Incarnation(w.logs[ws], req.root))
            && NotBehind(w.logs[ws], req.root, req.path, req.base.value)
  {
    hide KeysOk, NamesOk, CountsOk, LogOk, EventsOk, FloorsOk, HorizonOk, Incarnation, Head, ET.FirstMissing;
    var missing := ET.FirstMissing(w.db, ws, req.refs);
    if WellFormed(w.db, ws, req) {
      assert RootOk(w, ws, req.root);
      assert missing.None?;
      var head := Head(w.logs[ws], req.root, req.path);
      assert (ws, req.root, req.path) in w.db.heads <==> head.Some?;
    }
  }

  /**
    The seq that a path-head mismatch names is the head of the path in the log, or 0 if it has none: what
    the refused client fetches is the event it was behind.
  */
  lemma MismatchNamesTheHead(w: World, ws: WorkspaceId, req: ET.Request, current: int)
    requires Inv(w) && (req.kind.DirPut? || req.kind.FilePut? || req.kind.Delete?)
    ensures ET.Check(w.db, ws, req) == Some(ET.PathHeadMismatch(current)) <==>
            && WellFormed(w.db, ws, req) && ws in w.logs
            && Incarnation(w.logs[ws], req.root).Some?
            && (req.bound.Some? ==> req.bound == Incarnation(w.logs[ws], req.root))
            && !NotBehind(w.logs[ws], req.root, req.path, req.base.value)
            && match Head(w.logs[ws], req.root, req.path)
               case None => current == 0
               case Some(head) => current == head.seqno
  {
    hide KeysOk, NamesOk, CountsOk, LogOk, EventsOk, FloorsOk, HorizonOk, Incarnation, Head, ET.FirstMissing;
    ContentAcceptedIff(w, ws, req);
    if ws in w.logs {
      assert RootOk(w, ws, req.root);
      var head := Head(w.logs[ws], req.root, req.path);
      assert (ws, req.root, req.path) in w.db.heads <==> head.Some?;
    }
  }

  /**
    A root_add is accepted if and only if it names a root, the workspace exists and may name its references,
    the kind is a directory or a file, and the root is not active in the log.
  */
  lemma RootAddAcceptedIff(w: World, ws: WorkspaceId, req: ET.Request)
    requires Reachable(w) && req.kind.RootAdd?
    ensures ET.Check(w.db, ws, req).None? <==>
            && req.root.text != "" && ws in w.logs && (forall o | o in req.refs :: (ws, o) in w.db.visible)
            && (req.rootKind == DirRoot || req.rootKind == FileRoot)
            && Incarnation(w.logs[ws], req.root).None?
  {
    hide KeysOk, NamesOk, CountsOk, LogOk, EventsOk, FloorsOk, HorizonOk, HeadsOk, Incarnation, ET.FirstMissing;
    hide Reachable;
    ReachableStatesAreSound(w);
    var missing := ET.FirstMissing(w.db, ws, req.refs);
    assert missing.None? <==> forall o | o in req.refs :: IsVisible(w.db, ws, o);
    if ws in w.logs { assert RootOk(w, ws, req.root); }
  }

  /**
    A root_remove is accepted if and only if it names a root, the workspace exists and may name its references,
    the root is active in the log, and a bound it carries names that very incarnation.
  */
  lemma RootRemoveAcceptedIff(w: World, ws: WorkspaceId, req: ET.Request)
    requires Reachable(w) && req.kind.RootRemove?
    ensures ET.Check(w.db, ws, req).None? <==>
            && req.root.text != "" && ws in w.logs && (forall o | o in req.refs :: (ws, o) in w.db.visible)
            && Incarnation(w.logs[ws], req.root).Some?
            && (req.bound.Some? ==> req.bound == Incarnation(w.logs[ws], req.root))
  {
    hide KeysOk, NamesOk, CountsOk, LogOk, EventsOk, FloorsOk, HorizonOk, HeadsOk, Incarnation, ET.FirstMissing;
    hide Reachable;
    ReachableStatesAreSound(w);
    var missing := ET.FirstMissing(w.db, ws, req.refs);
    assert missing.None? <==> forall o | o in req.refs :: IsVisible(w.db, ws, o);
    if ws in w.logs { assert RootOk(w, ws, req.root); }
  }

  /** The root's latest snapshot, if it has one, does not cover more than the base. */
  ghost predicate NotOlder(db: Db, ws: WorkspaceId, root: RootId, base: int) {
    (ws, root) in db.roots && db.roots[(ws, root)].snapshotSeq.Some? ==> db.roots[(ws, root)].snapshotSeq.value <= base
  }

  /**
    A snapshot is accepted if and only if its base lies in the log from the root_add of the root's current
    incarnation on, it is not older than the root's latest snapshot, and the workspace may name its objects.
  */
  lemma SnapshotAcceptedIff(w: World, ws: WorkspaceId, req: SnapshotTable.Request)
    requires Reachable(w)
    ensures SnapshotTable.Check(w.db, ws, req).None? <==>
            && ws in w.logs && Incarnation(w.logs[ws], req.root).Some?
            && Incarnation(w.logs[ws], req.root).value <= req.base <= Latest(w.logs[ws])
            && NotOlder(w.db, ws, req.root, req.base)
            && IsVisible(w.db, ws, req.obj) && forall o | o in req.refs :: IsVisible(w.db, ws, o)
  {
    hide NamesOk, CountsOk, EventsOk, FloorsOk, HorizonOk, HeadsOk, Incarnation, Disciplined, Increasing, Latest;
    hide Reachable;
    ReachableStatesAreSound(w);
    if ws in w.logs {
      assert RootOk(w, ws, req.root);
      assert LogOk(w, ws);
    }
    var missing := ET.FirstMissing(w.db, ws, req.refs);
    assert missing.None? <==> forall o | o in req.refs :: IsVisible(w.db, ws, o);
  }

  /** A lifecycle event or content event that names an incarnation lands in that incarnation only. */
  lemma BoundLandsInItsIncarnation(w: World, ws: WorkspaceId, req: ET.Request)
    requires Inv(w) && ET.Check(w.db, ws, req).None? && !req.kind.RootAdd? && req.bound.Some?
    ensures ws in w.logs && Incarnation(w.logs[ws], req.root) == req.bound
  {
    hide KeysOk, NamesOk, CountsOk, LogOk, EventsOk, FloorsOk, HorizonOk, HeadsOk, Incarnation, ET.FirstMissing;
    assert RootOk(w, ws, req.root);
  }

  /** Every content event of a log was in step with its path when it was appended. */
  ghost predicate Optimistic(log: seq<Event>) {
    forall i | 0 <= i < |log| && IsContent(log[i]) ::
      log[i].path.Some? && log[i].base.Some?
      && NotBehind(log[..i], log[i].root, log[i].path.value, log[i].base.value)
  }

  ghost predicate AllOptimistic(w: World) {
    forall ws | ws in w.logs :: Optimistic(w.logs[ws])
  }

  lemma OptimisticSnoc(log: seq<Event>, e: Event)
    requires Optimistic(log)
    requires IsContent(e) ==> e.path.Some? && e.base.Some? && NotBehind(log, e.root, e.path.value, e.base.value)
    ensures Optimistic(log + [e])
  {
    hide NotBehind;
    var next := log + [e];
    forall i | 0 <= i < |next| ensures next[..i] == if i < |log| then log[..i] else log {}
  }

  lemma AcceptedIsOptimistic(w: World, ws: WorkspaceId, device: DeviceId, req: ET.Request, at: Time)
    requires Inv(w) && ET.Check(w.db, ws, req).None?
    ensures ws in w.logs
    ensures var e := ET.NewEvent(w.db, ws, device, req, at);
            IsContent(e) ==> e.path.Some? && e.base.Some? && NotBehind(w.logs[ws], e.root, e.path.value, e.base.value)
  {
    hide KeysOk, NamesOk, CountsOk, LogOk, EventsOk, FloorsOk, HorizonOk, RootsOk, Head, ET.FirstMissing;
    var head := Head(w.logs[ws], req.root, req.path);
    assert (ws, req.root, req.path) in w.db.heads <==> head.Some?;
  }

  lemma StepKeepsOptimistic(w: World, step: Step)
    requires Inv(w) && AllOptimistic(w)
    ensures AllOptimistic(Next(w, step))
  {
    hide Inv, Optimistic, ET.Check, ET.Submitted, HighestPruned, SnapshotTable.Save;
    if step.SubmitEvent? && ET.Check(w.db, step.ws, step.req).None? {
      AcceptedIsOptimistic(w, step.ws, step.device, step.req, step.at);
      OptimisticSnoc(w.logs[step.ws], ET.NewEvent(w.db, step.ws, step.device, step.req, step.at));
    } else if step.CreateWorkspace? {
      assert Optimistic([]) by { EmptyIsOptimistic(); }
    }
  }

  lemma EmptyIsOptimistic()
    ensures Optimistic([])
  {}

  lemma {:induction false} RunKeepsOptimistic(w: World, steps: seq<Step>)
    requires Inv(w) && AllOptimistic(w)
    ensures AllOptimistic(Run(w, steps))
    decreases |steps|
  {
    hide Inv, Next, AllOptimistic;
    if steps != [] {
      var n := |steps| - 1;
      RunKeepsOptimistic(w, steps[..n]);
      RunKeepsInv(w, steps[..n]);
      StepKeepsOptimistic(Run(w, steps[..n]), steps[n]);
    }
  }

  /** No lifecycle event of the root lies in log[from..to]. */
  ghost predicate SameIncarnation(log: seq<Event>, root: RootId, from: int, to: int) {
    forall k | 0 <= from <= k < to && k < |log| :: !(log[k].root == root && IsLifecycle(log[k]))
  }

  /** Within an incarnation the head of a path never falls behind an event already accepted on it. */
  lemma {:induction false} HeadCoversEarlier(log: seq<Event>, i: int)
    requires 0 <= i < |log| && Increasing(log)
    requires IsContent(log[i]) && log[i].path.Some? && SameIncarnation(log, log[i].root, i, |log|)
    ensures var head := Head(log, log[i].root, log[i].path.value);
            head.Some? && log[i].seqno <= head.value.seqno
    decreases |log|
  {
    var n := |log| - 1;
    var last := log[n];
    if !(last.root == log[i].root && IsContent(last) && last.path == log[i].path) {
      assert log[..n][i] == log[i];
      HeadCoversEarlier(log[..n], i);
    }
  }

  /**
    Optimistic concurrency over every run: between the base and the seq of an accepted content event
    no other event was ever accepted on the same path of the same incarnation.
  */
  lemma NothingBetweenBaseAndSeq(w: World, ws: WorkspaceId, i: int, j: int)
    requires Reachable(w) && ws in w.logs
    requires 0 <= i < j < |w.logs[ws]| && IsContent(w.logs[ws][i]) && IsContent(w.logs[ws][j])
    requires w.logs[ws][i].root == w.logs[ws][j].root && w.logs[ws][i].path == w.logs[ws][j].path
    requires SameIncarnation(w.logs[ws], w.logs[ws][i].root, i, j)
    ensures w.logs[ws][j].base.Some? && w.logs[ws][i].seqno <= w.logs[ws][j].base.value
  {
    hide Inv, Reachable, LogOk;
    ReachableStatesAreSound(w);
    ReachableIsOptimistic(w);
    var log := w.logs[ws];
    assert Increasing(log) by { LogIsSound(w, ws); }
    assert Optimistic(log);
    HeadCoversEarlier(log[..j], i);
  }

  lemma ReachableIsOptimistic(w: World)
    requires Reachable(w)
    ensures AllOptimistic(w)
  {
    hide Run, Inv;
    var steps :| w == Run(EMPTY_WORLD, steps);
    EmptyIsSound();
    RunKeepsOptimistic(EMPTY_WORLD, steps);
  }

  lemma LogIsSound(w: World, ws: WorkspaceId)
    requires Inv(w) && ws in w.logs
    ensures Increasing(w.logs[ws]) && Disciplined(w.logs[ws]) && Latest(w.logs[ws]) == w.db.workspaces[ws].current
  {
    assert LogOk(w, ws);
  }
}
