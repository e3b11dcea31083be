/** Every step of the server keeps the invariant, so every reachable state satisfies it. */
module ServerInvariant {
  import opened Records
  import opened EventLog
  import opened Tables
  import opened ServerState
  import opened SubmitProofs
  import opened HorizonProofs
  import opened CountProofs
  import ET = EventTable
  import ST = SnapshotTable
  import Retention
  import WorkspacePurge

  lemma FloorsAfterRecompute(db: Db, next: Db, ws: WorkspaceId)
    requires ws in next.workspaces && next.workspaces.Keys == db.workspaces.Keys
    requires FloorsOk(db)
    requires forall v | v in db.workspaces && v != ws :: next.workspaces[v] == db.workspaces[v]
    requires forall k: RootKey | k.0 != ws ::
             (k in next.roots <==> k in db.roots) && (k in db.roots ==> next.roots[k] == db.roots[k])
    ensures FloorsOk(WithFloor(next, ws))
  {
    hide RetainedFloor, BootstrapAfter;
    var done := WithFloor(next, ws);
    forall v | v in done.workspaces ensures done.workspaces[v].floor == RetainedFloor(done, v) {
      OtherWorkspace(next, done, v);
      SameRootsSameFloor(next, done, v);
      if v != ws {
        OtherWorkspace(db, next, v);
        SameRootsSameFloor(db, next, v);
      }
    }
  }

  lemma FloorsAfterContent(db: Db, next: Db, ws: WorkspaceId, req: ET.Request)
    requires ws in db.workspaces && next.workspaces.Keys == db.workspaces.Keys
    requires FloorsOk(db)
    requires ET.Check(db, ws, req).None? && !req.kind.RootAdd? && !req.kind.RootRemove?
    requires next.roots == db.roots
    requires forall v | v in db.workspaces :: next.workspaces[v].floor == db.workspaces[v].floor
    requires forall v | v in db.workspaces && v != ws :: next.workspaces[v] == db.workspaces[v]
    ensures FloorsOk(next)
  {
    hide RetainedFloor, BootstrapAfter, ET.Check;
    forall v | v in next.workspaces ensures next.workspaces[v].floor == RetainedFloor(next, v) {
      if v == ws {
        ContentKeepsFloor(db, next, ws, req);
      } else {
        OtherWorkspace(db, next, v);
        SameRootsSameFloor(db, next, v);
      }
    }
  }

  lemma SubmitFloors(db: Db, ws: WorkspaceId, device: DeviceId, req: ET.Request, at: Time)
    requires FloorsOk(db) && ET.Check(db, ws, req).None?
    ensures FloorsOk(ET.Submitted(db, ws, device, req, at))
  {
    hide RetainedFloor, ET.FirstMissing, ET.CheckContent, ET.CheckRootAdd, ET.CheckRootRemove, ET.HeadsAfter, FloorsOk;
    var next := ET.Committed(db, ws, device, req, at);
    if req.kind.RootAdd? || req.kind.RootRemove? {
      FloorsAfterRecompute(db, next, ws);
    } else {
      FloorsAfterContent(db, next, ws, req);
    }
  }

  /** All conjuncts that do not look at the floor column survive its recompute. */
  lemma SubmitFields(w: World, ws: WorkspaceId, device: DeviceId, req: ET.Request, at: Time)
    requires ET.Check(w.db, ws, req).None? && ws in w.logs
    ensures ws in w.db.workspaces
    ensures var next := AfterSubmit(w, ws, device, req, at);
            var db := ET.Committed(w.db, ws, device, req, at);
            && Appends(w, next, ws, ET.NewEvent(w.db, ws, device, req, at))
            && next.db.(workspaces := db.workspaces) == db
            && next.blobs == w.blobs && next.manifests == w.manifests
            && next.db.workspaces.Keys == db.workspaces.Keys
            && (forall v | v in db.workspaces :: next.db.workspaces[v].current == db.workspaces[v].current)
  {
    hide RetainedFloor, ET.FirstMissing, ET.CheckContent, ET.CheckRootAdd, ET.CheckRootRemove, ET.HeadsAfter;
    hide ET.RootsAfter;
  }

  lemma SameTablesKeys(db: Db, next: Db)
    requires next.(workspaces := db.workspaces) == db && next.workspaces.Keys == db.workspaces.Keys
    requires forall v | v in db.workspaces :: next.workspaces[v].current == db.workspaces[v].current
    ensures KeysOk(db) ==> KeysOk(next)
    ensures NamesOk(db) ==> NamesOk(next)
  {}

  lemma SubmitHorizon(w: World, next: World, ws: WorkspaceId, device: DeviceId, req: ET.Request, at: Time)
    requires LogsOk(w) && RootsOk(w) && HorizonOk(w) && LogsOk(next)
    requires ET.Check(w.db, ws, req).None?
    requires Appends(w, next, ws, ET.NewEvent(w.db, ws, device, req, at))
    requires ws in w.db.workspaces && w.db.workspaces[ws].current < w.db.nextSeq
    requires next.db.roots == ET.RootsAfter(w.db, ws, req)
    ensures HorizonOk(next)
  {
    hide LogOk, RootsOk, ET.Check, BootstrapAfter;
    RowsFromRoots(w, ws);
    assert next.db.workspaces[ws].current == w.db.nextSeq;
    SubmitRaisesCursor(w.db, next.db, ws, req);
    forall v | v in next.logs ensures 0 <= next.pruned[v] <= BootstrapAfter(next.db, v) {
      if v != ws {
        assert forall k: RootKey | k.0 == v :: k != (ws, req.root);
        OtherWorkspace(w.db, next.db, v);
        SameRootsSameFloor(w.db, next.db, v);
      }
    }
  }

  lemma SubmitKeepsLogParts(w: World, next: World, ws: WorkspaceId, device: DeviceId, req: ET.Request, at: Time)
    requires KeysOk(w.db) && LogsOk(w) && RootsOk(w) && HeadsOk(w) && EventsOk(w) && HorizonOk(w)
    requires ET.Check(w.db, ws, req).None? && ws in w.logs
    requires next == AfterSubmit(w, ws, device, req, at)
    ensures LogsOk(next) && RootsOk(next) && HeadsOk(next) && EventsOk(next) && HorizonOk(next)
  {
    hide ET.Check, AfterSubmit, LogOk, RootsOk, HeadsOk, EventsOk, HorizonOk, Follows, ET.RootsAfter, ET.HeadsAfter;
    var e := ET.NewEvent(w.db, ws, device, req, at);
    SubmitFields(w, ws, device, req, at);
    assert next.db.workspaces.Keys == w.db.workspaces.Keys;
    assert w.db.workspaces[ws].current < w.db.nextSeq;
    AcceptedFollows(w, ws, device, req, at);
    AppendKeepsLogs(w, next, ws, e);
    AppendKeepsRoots(w, next, ws, device, req, at);
    AppendKeepsHeads(w, next, ws, device, req, at);
    AppendKeepsEvents(w, next, ws, e);
    SubmitHorizon(w, next, ws, device, req, at);
  }

  lemma SubmitKeepsRowParts(w: World, next: World, ws: WorkspaceId, device: DeviceId, req: ET.Request, at: Time)
    requires KeysOk(w.db) && NamesOk(w.db) && CountsOk(w.db)
    requires ET.Check(w.db, ws, req).None? && ws in w.logs
    requires next == AfterSubmit(w, ws, device, req, at)
    ensures KeysOk(next.db) && NamesOk(next.db) && CountsOk(next.db) && next.db.objects.Keys == w.db.objects.Keys
    ensures CountsExact(w.db) && Distinct(req.refs) ==> CountsExact(next.db)
  {
    hide ET.Check, AfterSubmit, CountsOk, CountsExact, ET.RootsAfter, ET.HeadsAfter;
    SubmitFields(w, ws, device, req, at);
    var db := ET.Committed(w.db, ws, device, req, at);
    assert forall r | r in w.db.eventRefs :: r.0 < w.db.nextSeq;
    SubmitKeepsCounts(w.db, next.db, req);
    hide KeysOk, NamesOk;
    CommitKeepsKeys(w.db, ws, device, req, at);
    CommitKeepsNames(w.db, ws, device, req, at);
    SameTablesKeys(db, next.db);
  }

  lemma SubmitKeepsInv(w: World, ws: WorkspaceId, device: DeviceId, req: ET.Request, at: Time)
    requires Inv(w)
    ensures Inv(AfterSubmit(w, ws, device, req, at))
  {
    hide KeysOk, NamesOk, CountsOk, RootsOk, HeadsOk, EventsOk, FloorsOk, HorizonOk, LogOk, ET.Submitted, ET.Check;
    if ET.Check(w.db, ws, req).None? {
      assert ws in w.logs by { CheckedExists(w.db, ws, req); }
      var next := AfterSubmit(w, ws, device, req, at);
      SubmitKeepsRowParts(w, next, ws, device, req, at);
      SubmitKeepsLogParts(w, next, ws, device, req, at);
      SubmitFields(w, ws, device, req, at);
      SubmitFloors(w.db, ws, device, req, at);
    }
  }

  lemma CheckedExists(db: Db, ws: WorkspaceId, req: ET.Request)
    requires ET.Check(db, ws, req).None?
    ensures ws in db.workspaces
  {}

  /** A refused submission leaves no trace. */
  lemma RefusedSubmit(w: World, ws: WorkspaceId, device: DeviceId, req: ET.Request, at: Time)
    requires ET.Check(w.db, ws, req).Some?
    ensures AfterSubmit(w, ws, device, req, at) == w
  {}

  /** The parts of the invariant that look only at the history and at the tables it determines. */
  ghost predicate SameHistory(w: World, next: World) {
    && next.logs == w.logs
    && next.pruned.Keys == w.pruned.Keys
    && next.db.workspaces.Keys == w.db.workspaces.Keys
    && (forall v | v in w.db.workspaces :: next.db.workspaces[v].current == w.db.workspaces[v].current)
  }

  lemma SameHistoryKeepsLogs(w: World, next: World)
    requires LogsOk(w) && SameHistory(w, next)
    ensures LogsOk(next)
  {
    hide Increasing, Disciplined;
    forall v | v in next.logs ensures LogOk(next, v) {
      assert LogOk(w, v);
    }
  }

  lemma SameHistoryKeepsRoots(w: World, next: World)
    requires LogsOk(w) && RootsOk(w) && SameHistory(w, next) && LogsOk(next)
    requires next.db.roots == w.db.roots && next.db.heads == w.db.heads
    ensures RootsOk(next)
    ensures HeadsOk(w) ==> HeadsOk(next)
  {
    hide LogOk, Incarnation, Head;
    forall v, root | v in next.logs ensures RootOk(next, v, root) {
      assert RootOk(w, v, root);
    }
  }

  lemma SaveFields(w: World, ws: WorkspaceId, device: DeviceId, req: ST.Request, at: Time)
    requires ST.Check(w.db, ws, req).None?
    ensures (ws, req.root) in w.db.roots && ws in w.db.workspaces
    ensures var next := AfterSave(w, ws, device, req, at);
            var db := ST.Committed(w.db, ws, device, req, at);
            && next.db.(workspaces := db.workspaces) == db
            && next.blobs == w.blobs && next.logs == w.logs && next.pruned == w.pruned
            && next.db.workspaces.Keys == db.workspaces.Keys == w.db.workspaces.Keys
            && (forall v | v in db.workspaces ::
                next.db.workspaces[v].current == db.workspaces[v].current == w.db.workspaces[v].current)
            && next.db == WithFloor(db, ws)
  {
    hide RetainedFloor, ET.FirstMissing, ST.Raise;
  }

  lemma SaveKeepsRoots(w: World, next: World, ws: WorkspaceId, req: ST.Request)
    requires LogsOk(w) && RootsOk(w) && SameHistory(w, next) && LogsOk(next)
    requires ST.Check(w.db, ws, req).None?
    requires next.db.roots == w.db.roots[(ws, req.root) := w.db.roots[(ws, req.root)].(snapshot := Some(req.obj),
             snapshotSeq := Some(req.base))]
    ensures RootsOk(next)
  {
    hide LogOk, Incarnation, ET.FirstMissing;
    forall v, root | v in next.logs ensures RootOk(next, v, root) {
      assert RootOk(w, v, root);
    }
  }

  lemma SaveHorizon(w: World, next: World, ws: WorkspaceId, req: ST.Request)
    requires LogsOk(w) && HorizonOk(w) && SameHistory(w, next) && LogsOk(next)
    requires ST.Check(w.db, ws, req).None? && ws in w.db.workspaces
    requires next.pruned == w.pruned
    requires next.db.roots == w.db.roots[(ws, req.root) := w.db.roots[(ws, req.root)].(snapshot := Some(req.obj),
             snapshotSeq := Some(req.base))]
    ensures HorizonOk(next)
  {
    hide LogOk, ST.Check, BootstrapAfter;
    SaveRaisesCursor(w.db, next.db, ws, req);
    forall v | v in next.logs ensures 0 <= next.pruned[v] <= BootstrapAfter(next.db, v) {
      if v != ws {
        OtherWorkspace(w.db, next.db, v);
        SameRootsSameFloor(w.db, next.db, v);
      }
    }
  }

  lemma SaveKeepsNames(db: Db, ws: WorkspaceId, device: DeviceId, req: ST.Request, at: Time)
    requires KeysOk(db) && NamesOk(db) && ST.Check(db, ws, req).None?
    ensures KeysOk(ST.Committed(db, ws, device, req, at)) && NamesOk(ST.Committed(db, ws, device, req, at))
  {
    hide ST.Raise;
    var next := ST.Committed(db, ws, device, req, at);
    forall r | r in next.snapshotRefs ensures r.1 in next.objects {
      if r !in db.snapshotRefs {
        assert r.1 in req.refs && IsVisible(db, ws, r.1);
      }
    }
  }

  lemma SaveKeepsLogParts(w: World, next: World, ws: WorkspaceId, device: DeviceId, req: ST.Request, at: Time)
    requires LogsOk(w) && RootsOk(w) && HeadsOk(w) && EventsOk(w) && HorizonOk(w)
    requires ST.Check(w.db, ws, req).None? && next == AfterSave(w, ws, device, req, at)
    ensures LogsOk(next) && RootsOk(next) && HeadsOk(next) && EventsOk(next) && HorizonOk(next)
  {
    hide ST.Check, LogOk, RootsOk, HorizonOk, ST.Raise, AfterSave;
    SaveFields(w, ws, device, req, at);
    SameHistoryKeepsLogs(w, next);
    SaveKeepsRoots(w, next, ws, req);
    SaveHorizon(w, next, ws, req);
  }

  lemma SaveKeepsInv(w: World, ws: WorkspaceId, device: DeviceId, req: ST.Request, at: Time)
    requires Inv(w)
    ensures Inv(AfterSave(w, ws, device, req, at))
  {
    hide KeysOk, NamesOk, CountsOk, CountsExact, RootsOk, HeadsOk, EventsOk, FloorsOk, HorizonOk, LogOk, ST.Check;
    hide AfterSave;
    var next := AfterSave(w, ws, device, req, at);
    if ST.Check(w.db, ws, req).None? {
      SaveFields(w, ws, device, req, at);
      var db := ST.Committed(w.db, ws, device, req, at);
      SaveKeepsLogParts(w, next, ws, device, req, at);
      SaveKeepsNames(w.db, ws, device, req, at);
      SaveKeepsCounts(w.db, ws, device, req, at);
      SameRowsKeepCounts(db, next.db);
      SameTablesKeys(db, next.db);
      FloorsAfterRecompute(w.db, db, ws);
    } else {
      RefusedSave(w, ws, device, req, at);
    }
  }

  lemma RefusedSave(w: World, ws: WorkspaceId, device: DeviceId, req: ST.Request, at: Time)
    requires ST.Check(w.db, ws, req).Some?
    ensures AfterSave(w, ws, device, req, at) == w
  {}

  /** A statement that touches neither roots nor workspace rows keeps floor and cursor. */
  lemma SameRootsKeepFloors(db: Db, next: Db)
    requires next.roots == db.roots && next.workspaces == db.workspaces
    ensures FloorsOk(db) ==> FloorsOk(next)
    ensures forall v | v in db.workspaces :: BootstrapAfter(next, v) == BootstrapAfter(db, v)
  {
    hide RetainedFloor, BootstrapAfter;
    forall v | v in db.workspaces
      ensures RetainedFloor(next, v) == RetainedFloor(db, v) && BootstrapAfter(next, v) == BootstrapAfter(db, v)
    {
      OtherWorkspace(db, next, v);
      SameRootsSameFloor(db, next, v);
    }
  }

  lemma UploadFields(w: World, ws: WorkspaceId, o: ObjectId, at: Time)
    ensures var next := AfterUpload(w, ws, o, at);
            && next.logs == w.logs && next.pruned == w.pruned && next.blobs == w.blobs + {o}
            && next.db.(objects := w.db.objects, visible := w.db.visible) == w.db
            && next.db.objects.Keys == w.db.objects.Keys + {o}
            && (forall p | p in w.db.objects :: next.db.objects[p] == w.db.objects[p])
            && (o !in w.db.objects ==> next.db.objects[o].refCount == 0)
            && (next.db.visible == w.db.visible || (ws in w.db.workspaces
                && next.db.visible == w.db.visible + {(ws, o)}))
  {}

  lemma UploadKeepsTables(db: Db, next: Db, ws: WorkspaceId, o: ObjectId)
    requires next.(objects := db.objects, visible := db.visible) == db
    requires next.objects.Keys == db.objects.Keys + {o}
    requires next.visible == db.visible || (ws in db.workspaces && next.visible == db.visible + {(ws, o)})
    ensures KeysOk(db) ==> KeysOk(next)
    ensures NamesOk(db) ==> NamesOk(next)
  {}

  lemma UploadKeepsCounts(db: Db, next: Db, o: ObjectId)
    requires KeysOk(db) && NamesOk(db)
    requires next.(objects := db.objects, visible := db.visible) == db
    requires next.objects.Keys == db.objects.Keys + {o}
    requires forall p | p in db.objects :: next.objects[p] == db.objects[p]
    requires o !in db.objects ==> next.objects[o].refCount == 0
    ensures CountsOk(db) ==> CountsOk(next)
    ensures CountsExact(db) ==> CountsExact(next)
  {
    hide References, KeysOk, NamesOk;
    if o !in db.objects {
      UnstoredIsUnreferenced(db, o);
    }
    forall p ensures References(next, p) == References(db, p) {
      SameRowsSameReferences(db, next, p);
    }
  }

  lemma UploadKeepsInv(w: World, ws: WorkspaceId, o: ObjectId, at: Time)
    requires Inv(w)
    ensures Inv(AfterUpload(w, ws, o, at))
    ensures CountsExact(w.db) ==> CountsExact(AfterUpload(w, ws, o, at).db)
  {
    hide RootsOk, EventsOk, HorizonOk, HeadsOk, LogOk, BootstrapAfter, FloorsOk, KeysOk, NamesOk, CountsOk;
    hide CountsExact, AfterUpload;
    var next := AfterUpload(w, ws, o, at);
    UploadFields(w, ws, o, at);
    SameHistoryKeepsLogs(w, next);
    SameHistoryKeepsRoots(w, next);
    SameRootsKeepFloors(w.db, next.db);
    SameEvents(w, next);
    UploadKeepsTables(w.db, next.db, ws, o);
    UploadKeepsCounts(w.db, next.db, o);
  }

  lemma UnstoredIsUnreferenced(db: Db, o: ObjectId)
    requires KeysOk(db) && NamesOk(db) && o !in db.objects
    ensures References(db, o) == 0
  {
    hide References;
    ReferencedWhenNamed(db, o);
  }

  lemma SameEvents(w: World, next: World)
    requires LogsOk(w) && EventsOk(w) && HorizonOk(w) && SameHistory(w, next) && LogsOk(next)
    requires next.db.events == w.db.events && next.pruned == w.pruned
    requires forall v | v in w.db.workspaces :: BootstrapAfter(next.db, v) == BootstrapAfter(w.db, v)
    ensures EventsOk(next) && HorizonOk(next)
  {
    hide LogOk, BootstrapAfter;
  }

  lemma CreateKeepsInv(w: World, ws: WorkspaceId)
    requires Inv(w)
    ensures Inv(AfterCreate(w, ws))
    ensures CountsExact(w.db) ==> CountsExact(AfterCreate(w, ws).db)
  {
    hide References, RootsOk, HeadsOk, EventsOk, HorizonOk, FloorsOk, LogOk;
    if ws !in w.db.workspaces {
      var next := AfterCreate(w, ws);
      CreateKeepsLogs(w, next, ws);
      CreateKeepsRoots(w, next, ws);
      CreateKeepsFloors(w, next, ws);
      hide KeysOk, NamesOk, LogsOk;
      SameRowsKeepCounts(w.db, next.db);
    }
  }

  lemma CreateKeepsLogs(w: World, next: World, ws: WorkspaceId)
    requires KeysOk(w.db) && LogsOk(w) && EventsOk(w) && ws !in w.db.workspaces
    requires next == AfterCreate(w, ws)
    ensures LogsOk(next) && EventsOk(next)
  {
    hide KeysOk, EventsOk, Increasing, Disciplined;
    forall v | v in next.logs ensures LogOk(next, v) {
      if v != ws { assert LogOk(w, v); } else { EmptyLog(); }
    }
    CreateKeepsStored(w, next, ws);
  }

  lemma EmptyLog()
    ensures Increasing([]) && Disciplined([])
  {}

  lemma CreateKeepsStored(w: World, next: World, ws: WorkspaceId)
    requires KeysOk(w.db) && LogsOk(w) && EventsOk(w) && ws !in w.db.workspaces
    requires next == AfterCreate(w, ws) && LogsOk(next)
    ensures EventsOk(next)
  {
    hide LogOk;
  }

  lemma CreateKeepsRoots(w: World, next: World, ws: WorkspaceId)
    requires KeysOk(w.db) && LogsOk(w) && RootsOk(w) && HeadsOk(w) && ws !in w.db.workspaces
    requires next == AfterCreate(w, ws) && LogsOk(next)
    ensures RootsOk(next) && HeadsOk(next)
  {
    hide LogOk;
    forall v, root | v in next.logs ensures RootOk(next, v, root) {
      if v != ws { assert RootOk(w, v, root); }
    }
  }

  lemma CreateKeepsFloors(w: World, next: World, ws: WorkspaceId)
    requires KeysOk(w.db) && LogsOk(w) && FloorsOk(w.db) && HorizonOk(w) && ws !in w.db.workspaces
    requires next == AfterCreate(w, ws) && LogsOk(next)
    ensures FloorsOk(next.db) && HorizonOk(next)
  {
    hide LogOk, RetainedFloor, BootstrapAfter;
    assert ActiveRoots(next.db, ws) == {};
    assert RetainedFloor(next.db, ws) == BootstrapAfter(next.db, ws) == 0 by { NoRootsNoFloor(next.db, ws); }
    forall v | v in w.db.workspaces
      ensures next.db.workspaces[v].floor == RetainedFloor(next.db, v)
              && BootstrapAfter(next.db, v) == BootstrapAfter(w.db, v)
    {
      OtherWorkspace(w.db, next.db, v);
      SameRootsSameFloor(w.db, next.db, v);
    }
  }

  lemma NoRootsNoFloor(db: Db, ws: WorkspaceId)
    requires ws in db.workspaces && ActiveRoots(db, ws) == {}
    ensures RetainedFloor(db, ws) == BootstrapAfter(db, ws) == db.workspaces[ws].current
  {}

  lemma PruneFields(w: World, at: Time, retention: int, zeroRetention: int)
    ensures var db := Retention.Prune(w.db, at, retention, zeroRetention);
            && db.roots == w.db.roots && db.workspaces == w.db.workspaces && db.heads == w.db.heads
            && db.nextSeq == w.db.nextSeq
            && db.events == Retention.AfterEvents(w.db, at, retention).events
            && db.objects.Keys == w.db.objects.Keys - Retention.PrunedObjects(w.db, at, retention, zeroRetention)
  {
    hide Retention.Lowered, Retention.ExpiredEvents, Retention.ExpiredSnapshots, Retention.Obsolete;
  }

  /** No pruning pass takes an event above the workspace's floor. */
  lemma PrunedBelowFloor(w: World, ws: WorkspaceId, cutoff: Time)
    requires KeysOk(w.db) && LogsOk(w) && RootsOk(w) && FloorsOk(w.db) && HorizonOk(w) && ws in w.logs
    ensures var gone := Retention.ExpiredEvents(w.db, cutoff);
            w.pruned[ws] <= HighestPruned(w, ws, gone) <= BootstrapAfter(w.db, ws)
  {
    hide LogOk, RetainedFloor, BootstrapAfter, RootsOk;
    RowsFromRoots(w, ws);
    FloorBelowCursor(w.db, ws);
    assert 0 <= w.pruned[ws] <= BootstrapAfter(w.db, ws);
    assert w.db.workspaces[ws].floor == RetainedFloor(w.db, ws);
  }

  /** Taking a set of events away keeps the table a suffix of the log once `pruned` covers the set. */
  lemma DroppedKeepsEvents(w: World, next: World, gone: set<int>)
    requires LogsOk(w) && EventsOk(w) && SameHistory(w, next) && LogsOk(next)
    requires next.db.events == map s | s in w.db.events && s !in gone :: w.db.events[s]
    requires forall v | v in w.pruned :: w.pruned[v] <= next.pruned[v]
    requires forall s | s in gone && s in w.db.events && w.db.events[s].ws in w.pruned ::
             s <= next.pruned[w.db.events[s].ws]
    ensures EventsOk(next)
  {
    hide LogOk;
    forall v, e | v in next.logs && e in next.logs[v] && next.pruned[v] < e.seqno
      ensures e.seqno in next.db.events && next.db.events[e.seqno] == e
    {
      assert w.db.events[e.seqno] == e;
      LogIsOfItsWorkspace(w, v, e);
    }
  }

  lemma PrunedCovers(w: World, ws: WorkspaceId, gone: set<int>, s: int)
    requires ws in w.pruned && s in gone && s in w.db.events && w.db.events[s].ws == ws
    ensures s <= HighestPruned(w, ws, gone)
  {
    hide Highest;
    var mine := set x | x in gone && x in w.db.events && w.db.events[x].ws == ws;
    HighestBounds(mine, s);
  }

  lemma PruneKeepsEvents(w: World, next: World, at: Time, retention: int)
    requires KeysOk(w.db) && LogsOk(w) && EventsOk(w) && SameHistory(w, next) && LogsOk(next)
    requires next.db.events == Retention.AfterEvents(w.db, at, retention).events
    requires next.pruned == map ws | ws in w.pruned ::
             HighestPruned(w, ws, Retention.ExpiredEvents(w.db, at - retention))
    ensures EventsOk(next)
  {
    hide LogOk, EventsOk, KeysOk, HighestPruned, Retention.Lowered, Retention.RefsFrom, Retention.ExpiredEvents;
    var gone := Retention.ExpiredEvents(w.db, at - retention);
    forall v | v in w.pruned ensures w.pruned[v] <= next.pruned[v] {
      PrunedGrows(w, v, gone);
    }
    forall s | s in gone && s in w.db.events && w.db.events[s].ws in w.pruned
        ensures s <= next.pruned[w.db.events[s].ws] {
      PrunedCovers(w, w.db.events[s].ws, gone, s);
    }
    DroppedKeepsEvents(w, next, gone);
  }

  lemma PrunedGrows(w: World, ws: WorkspaceId, gone: set<int>)
    requires ws in w.pruned
    ensures w.pruned[ws] <= HighestPruned(w, ws, gone)
  {}

  lemma HighestBounds(s: set<int>, x: int)
    requires x in s
    ensures x <= Highest(s)
  {}

  lemma LogIsOfItsWorkspace(w: World, ws: WorkspaceId, e: Event)
    requires LogsOk(w) && ws in w.logs && e in w.logs[ws]
    ensures e.ws == ws
  {
    assert LogOk(w, ws);
  }

  lemma PruneHorizon(w: World, next: World, cutoff: Time)
    requires KeysOk(w.db) && LogsOk(w) && RootsOk(w) && FloorsOk(w.db) && HorizonOk(w) && LogsOk(next)
    requires next.logs == w.logs && next.db.roots == w.db.roots && next.db.workspaces == w.db.workspaces
    requires next.pruned == map ws | ws in w.pruned :: HighestPruned(w, ws, Retention.ExpiredEvents(w.db, cutoff))
    ensures HorizonOk(next)
  {
    hide LogOk, RootsOk, BootstrapAfter, HighestPruned, KeysOk, FloorsOk;
    SameRootsKeepFloors(w.db, next.db);
    forall v | v in next.logs ensures 0 <= next.pruned[v] <= BootstrapAfter(next.db, v) {
      PrunedBelowFloor(w, v, cutoff);
      assert 0 <= w.pruned[v];
    }
  }

  lemma StagesKeepNames(db: Db, at: Time, retention: int)
    requires KeysOk(db) && NamesOk(db)
    ensures KeysOk(Retention.AfterSnapshots(db, at, retention)) && NamesOk(Retention.AfterSnapshots(db, at, retention))
  {
    hide Retention.Lowered, Retention.ExpiredSnapshots, Retention.ExpiredEvents, Retention.RefsFrom;
    hide Retention.RowsNaming, Retention.RefsFromSnapshots;
  }

  lemma StagesKeepCounts(db: Db, at: Time, retention: int)
    ensures CountsOk(db) ==> CountsOk(Retention.AfterSnapshots(db, at, retention))
    ensures CountsExact(db) ==> CountsExact(Retention.AfterSnapshots(db, at, retention))
  {
    hide CountsOk, CountsExact, Retention.WithoutEvents, Retention.WithoutSnapshots;
    EventsPrunedKeepsCounts(db, Retention.ExpiredEvents(db, at - retention), at);
    var mid := Retention.AfterEvents(db, at, retention);
    SnapshotsPrunedKeepsCounts(mid, Retention.ExpiredSnapshots(mid, at - retention), at);
  }

  /** Garbage collection is safe: what it deletes is named by no event, snapshot or snapshot reference. */
  lemma PrunedObjectsAreUnreferenced(db: Db, at: Time, retention: int, zeroRetention: int, o: ObjectId)
    requires CountsOk(db)
    requires o in Retention.PrunedObjects(db, at, retention, zeroRetention)
    ensures var next := Retention.Prune(db, at, retention, zeroRetention);
            && o !in next.objects
            && (forall r | r in next.eventRefs :: r.1 != o)
            && (forall k | k in next.snapshots :: k.2 != o)
            && (forall r | r in next.snapshotRefs :: r.1 != o)
  {
    hide References, Retention.AfterSnapshots;
    StagesKeepCounts(db, at, retention);
    var mid := Retention.AfterSnapshots(db, at, retention);
    assert References(mid, o) <= mid.objects[o].refCount;
    ReferencedWhenNamed(mid, o);
  }

  lemma PruneKeepsNames(db: Db, at: Time, retention: int, zeroRetention: int)
    requires KeysOk(db) && NamesOk(db) && CountsOk(db)
    ensures KeysOk(Retention.Prune(db, at, retention, zeroRetention))
            && NamesOk(Retention.Prune(db, at, retention, zeroRetention))
  {
    hide CountsOk, Retention.AfterSnapshots, Retention.ExpiredObjects;
    StagesKeepNames(db, at, retention);
    var mid := Retention.AfterSnapshots(db, at, retention);
    var next := Retention.Prune(db, at, retention, zeroRetention);
    var gone := Retention.PrunedObjects(db, at, retention, zeroRetention);
    forall o | o in gone
      ensures && (forall r | r in next.eventRefs :: r.1 != o)
              && (forall k | k in next.snapshots :: k.2 != o)
              && (forall r | r in next.snapshotRefs :: r.1 != o)
    {
      PrunedObjectsAreUnreferenced(db, at, retention, zeroRetention, o);
    }
  }

  lemma PruneKeepsCounts(db: Db, at: Time, retention: int, zeroRetention: int)
    ensures CountsOk(db) ==> CountsOk(Retention.Prune(db, at, retention, zeroRetention))
    ensures CountsExact(db) ==> CountsExact(Retention.Prune(db, at, retention, zeroRetention))
  {
    hide CountsOk, CountsExact, Retention.AfterSnapshots;
    StagesKeepCounts(db, at, retention);
    SameRowsKeepCounts(Retention.AfterSnapshots(db, at, retention), Retention.Prune(db, at, retention, zeroRetention));
  }

  lemma PruneKeepsInv(w: World, at: Time, retention: int, zeroRetention: int, unlinked: set<ObjectId>)
    requires Inv(w)
    ensures Inv(AfterPrune(w, at, retention, zeroRetention, unlinked))
    ensures CountsExact(w.db) ==> CountsExact(AfterPrune(w, at, retention, zeroRetention, unlinked).db)
  {
    hide KeysOk, NamesOk, CountsOk, CountsExact, RootsOk, HeadsOk, EventsOk, FloorsOk, HorizonOk, LogOk;
    hide Retention.Prune, Retention.PrunedObjects, Retention.ExpiredEvents, Retention.AfterEvents, HighestPruned;
    var next := AfterPrune(w, at, retention, zeroRetention, unlinked);
    PruneFields(w, at, retention, zeroRetention);
    SameHistoryKeepsLogs(w, next);
    SameHistoryKeepsRoots(w, next);
    PruneKeepsEvents(w, next, at, retention);
    PruneHorizon(w, next, at - retention);
    SameRootsKeepFloors(w.db, next.db);
    PruneKeepsNames(w.db, at, retention, zeroRetention);
    PruneKeepsCounts(w.db, at, retention, zeroRetention);
  }

  lemma PurgeFields(db: Db, ws: WorkspaceId, candidates: set<ObjectId>, at: Time)
    ensures var next := WorkspacePurge.Purged(db, ws, candidates, at);
            next.(objects := db.objects) == WorkspacePurge.WithoutWorkspace(db, ws)
            && next.objects.Keys <= db.objects.Keys
  {
    hide WorkspacePurge.WithoutWorkspace, References;
    assert WorkspacePurge.WithoutWorkspace(db, ws).objects == db.objects by { BareObjects(db, ws); }
  }

  lemma BareObjects(db: Db, ws: WorkspaceId)
    ensures WorkspacePurge.WithoutWorkspace(db, ws).objects == db.objects
  {}

  /** A purge deletes only objects that no workspace sees and no row names. */
  lemma PurgedObjectsAreUnreferenced(db: Db, ws: WorkspaceId, candidates: set<ObjectId>, at: Time, o: ObjectId)
    requires o in db.objects
    ensures var next := WorkspacePurge.Purged(db, ws, candidates, at);
            o !in next.objects ==>
              && o in candidates
              && (forall v | v in next.visible :: v.1 != o)
              && (forall r | r in next.eventRefs :: r.1 != o)
              && (forall k | k in next.snapshots :: k.2 != o)
              && (forall r | r in next.snapshotRefs :: r.1 != o)
  {
    hide References, WorkspacePurge.WithoutWorkspace;
    BareObjects(db, ws);
    var next := WorkspacePurge.Purged(db, ws, candidates, at);
    ReferencedWhenNamed(WorkspacePurge.Recounted(WorkspacePurge.WithoutWorkspace(db, ws), at), o);
  }

  lemma PurgeKeepsNames(db: Db, ws: WorkspaceId, at: Time)
    requires KeysOk(db) && NamesOk(db)
    ensures var next := WorkspacePurge.Purged(db, ws, WorkspacePurge.Candidates(db, ws), at);
            KeysOk(next) && NamesOk(next)
  {
    hide WorkspacePurge.Candidates, WorkspacePurge.Purged;
    var candidates := WorkspacePurge.Candidates(db, ws);
    var next := WorkspacePurge.Purged(db, ws, candidates, at);
    PurgeFields(db, ws, candidates, at);
    BareKeepsNames(db, next, ws);
    forall o | o in db.objects && o !in next.objects
      ensures (forall v | v in next.visible :: v.1 != o) && (forall r | r in next.snapshotRefs :: r.1 != o)
    {
      PurgedObjectsAreUnreferenced(db, ws, candidates, at, o);
    }
  }

  lemma BareKeepsNames(db: Db, next: Db, ws: WorkspaceId)
    requires KeysOk(db) && NamesOk(db)
    requires next.(objects := db.objects) == WorkspacePurge.WithoutWorkspace(db, ws)
    ensures && 1 <= next.nextSeq
            && (forall v | v in next.workspaces :: 0 <= next.workspaces[v].current < next.nextSeq)
            && (forall k | k in next.roots :: k.0 in next.workspaces)
            && (forall k | k in next.heads :: k.0 in next.workspaces)
            && (forall s | s in next.events ::
                next.events[s].seqno == s && next.events[s].ws in next.workspaces && 1 <= s < next.nextSeq)
            && (forall v | v in next.visible :: v.0 in next.workspaces && v.1 in db.objects)
            && (forall r | r in next.eventRefs :: r.0 in next.events && (next.events[r.0].ws, r.1) in next.visible)
            && (forall k | k in next.snapshots :: k.0 in next.workspaces && (k.0, k.2) in next.visible)
            && (forall r | r in next.snapshotRefs :: r.1 in db.objects)
  {
    hide WorkspacePurge.OwnSnapshotObjects, WorkspacePurge.SharedSnapshotObjects;
  }

  lemma PurgeKeepsLogs(w: World, next: World, ws: WorkspaceId)
    requires LogsOk(w) && RootsOk(w) && HeadsOk(w) && EventsOk(w)
    requires next.logs == w.logs - {ws} && next.pruned == w.pruned - {ws}
    requires next.db.(objects := w.db.objects) == WorkspacePurge.WithoutWorkspace(w.db, ws)
    ensures LogsOk(next) && RootsOk(next) && HeadsOk(next) && EventsOk(next)
  {
    hide Increasing, Disciplined, Incarnation, Head;
    assert LogsOk(next) by {
      forall v | v in next.logs ensures LogOk(next, v) { assert LogOk(w, v); }
    }
    PurgeKeepsRoots(w, next, ws);
    PurgeKeepsEvents(w, next, ws);
  }

  lemma PurgeKeepsRoots(w: World, next: World, ws: WorkspaceId)
    requires LogsOk(w) && RootsOk(w) && HeadsOk(w) && LogsOk(next)
    requires next.logs == w.logs - {ws}
    requires next.db.(objects := w.db.objects) == WorkspacePurge.WithoutWorkspace(w.db, ws)
    ensures RootsOk(next) && HeadsOk(next)
  {
    hide LogOk, Incarnation, Head;
    forall v, root | v in next.logs ensures RootOk(next, v, root) { assert RootOk(w, v, root); }
  }

  lemma PurgeKeepsEvents(w: World, next: World, ws: WorkspaceId)
    requires LogsOk(w) && EventsOk(w) && LogsOk(next)
    requires next.logs == w.logs - {ws} && next.pruned == w.pruned - {ws}
    requires next.db.(objects := w.db.objects) == WorkspacePurge.WithoutWorkspace(w.db, ws)
    ensures EventsOk(next)
  {
    hide LogOk;
    forall v, e | v in next.logs && e in next.logs[v] && next.pruned[v] < e.seqno
      ensures e.seqno in next.db.events && next.db.events[e.seqno] == e
    {
      LogIsOfItsWorkspace(w, v, e);
      assert w.db.events[e.seqno] == e;
    }
  }

  lemma PurgeFloors(w: World, next: World, ws: WorkspaceId)
    requires LogsOk(w) && FloorsOk(w.db) && HorizonOk(w) && LogsOk(next)
    requires next.logs == w.logs - {ws} && next.pruned == w.pruned - {ws}
    requires next.db.(objects := w.db.objects) == WorkspacePurge.WithoutWorkspace(w.db, ws)
    ensures FloorsOk(next.db) && HorizonOk(next)
  {
    hide LogOk, RetainedFloor, BootstrapAfter;
    forall v | v in next.db.workspaces
      ensures RetainedFloor(next.db, v) == RetainedFloor(w.db, v)
              && BootstrapAfter(next.db, v) == BootstrapAfter(w.db, v)
    {
      OtherWorkspace(w.db, next.db, v);
      SameRootsSameFloor(w.db, next.db, v);
    }
  }

  lemma PurgeKeepsInv(w: World, ws: WorkspaceId, at: Time)
    requires Inv(w)
    ensures Inv(AfterPurge(w, ws, at))
    ensures ws in w.db.workspaces || CountsExact(w.db) ==> CountsExact(AfterPurge(w, ws, at).db)
  {
    hide KeysOk, NamesOk, References, RootsOk, HeadsOk, EventsOk, FloorsOk, HorizonOk, LogOk, WorkspacePurge.Purged;
    hide WorkspacePurge.Candidates;
    if ws in w.db.workspaces {
      var next := AfterPurge(w, ws, at);
      PurgeFields(w.db, ws, WorkspacePurge.Candidates(w.db, ws), at);
      PurgeKeepsNames(w.db, ws, at);
      PurgeMakesCountsExact(w.db, ws, WorkspacePurge.Candidates(w.db, ws), at);
      PurgeKeepsLogs(w, next, ws);
      PurgeFloors(w, next, ws);
    }
  }

  /** The invariant holds of the empty server and is kept by every step. */
  lemma StepKeepsInv(w: World, step: Step)
    requires Inv(w)
    ensures Inv(Next(w, step))
  {
    hide Inv, AfterCreate, AfterUpload, AfterSubmit, AfterSave, AfterPrune, AfterPurge;
    match step
    case CreateWorkspace(ws) => CreateKeepsInv(w, ws);
    case Upload(ws, o, at) => UploadKeepsInv(w, ws, o, at);
    case SubmitEvent(ws, device, req, at) => SubmitKeepsInv(w, ws, device, req, at);
    case SaveSnapshot(ws, device, snap, at) => SaveKeepsInv(w, ws, device, snap, at);
    case Prune(at, retention, zeroRetention, unlinked) => PruneKeepsInv(w, at, retention, zeroRetention, unlinked);
    case Purge(ws, at) => PurgeKeepsInv(w, ws, at);
  }

  lemma {:induction false} RunKeepsInv(w: World, steps: seq<Step>)
    requires Inv(w)
    ensures Inv(Run(w, steps))
    decreases |steps|
  {
    hide Inv, Next;
    if steps != [] {
      RunKeepsInv(w, steps[..|steps| - 1]);
      StepKeepsInv(Run(w, steps[..|steps| - 1]), steps[|steps| - 1]);
    }
  }

  /** Every state the server can reach satisfies the invariant. */
  lemma ReachableStatesAreSound(w: World)
    requires Reachable(w)
    ensures Inv(w)
  {
    hide Run, Inv;
    var steps :| w == Run(EMPTY_WORLD, steps);
    EmptyIsSound();
    RunKeepsInv(EMPTY_WORLD, steps);
  }

  lemma EmptyIsSound()
    ensures Inv(EMPTY_WORLD)
  {}

  lemma ReachableByRun(steps: seq<Step>)
    ensures Reachable(Run(EMPTY_WORLD, steps))
  {
    hide Run;
  }
}
