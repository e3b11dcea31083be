/** An accepted submission keeps every part of the server invariant. */
module SubmitProofs {
  import opened Records
  import opened EventLog
  import opened Tables
  import opened ServerState
  import ET = EventTable

  /** The checks an event passed, read off the log it is appended to. */
  ghost predicate Follows(log: seq<Event>, e: Event) {
    && (e.kind.RootAdd? ==> Incarnation(log, e.root).None?)
    && (e.kind.RootRemove? ==> Incarnation(log, e.root).Some?)
    && (IsContent(e) ==> Incarnation(log, e.root).Some? && e.path.Some?)
    && (IsContent(e) || IsLifecycle(e))
    && Latest(log) < e.seqno && 1 <= e.seqno
  }

  lemma AcceptedFollows(w: World, ws: WorkspaceId, device: DeviceId, req: ET.Request, at: Time)
    requires LogsOk(w) && RootsOk(w) && ET.Check(w.db, ws, req).None?
    requires 1 <= w.db.nextSeq
    requires ws in w.db.workspaces ==> w.db.workspaces[ws].current < w.db.nextSeq
    ensures ws in w.logs && Follows(w.logs[ws], ET.NewEvent(w.db, ws, device, req, at))
  {
    hide LogOk;
    hide Incarnation;
    assert RootOk(w, ws, req.root);
    assert Latest(w.logs[ws]) == w.db.workspaces[ws].current by { assert LogOk(w, ws); ReadLog(w, ws); }
  }

  lemma ReadLog(w: World, ws: WorkspaceId)
    requires LogsOk(w) && ws in w.logs
    ensures Latest(w.logs[ws]) == w.db.workspaces[ws].current
    ensures Increasing(w.logs[ws]) && Disciplined(w.logs[ws])
  {
    assert LogOk(w, ws);
  }

  /** `next` extends the log of `ws` by `e` and moves the workspace head there. */
  ghost predicate Appends(w: World, next: World, ws: WorkspaceId, e: Event) {
    && ws in w.logs
    && next.logs == w.logs[ws := w.logs[ws] + [e]]
    && next.pruned == w.pruned
    && next.db.workspaces.Keys == w.db.workspaces.Keys
    && (forall v | v in w.db.workspaces :: next.db.workspaces[v].current == if v == ws then e.seqno
        else w.db.workspaces[v].current)
  }

  lemma AppendKeepsLogs(w: World, next: World, ws: WorkspaceId, e: Event)
    requires LogsOk(w) && Appends(w, next, ws, e) && Follows(w.logs[ws], e) && e.ws == ws
    ensures LogsOk(next)
  {
    hide Disciplined, Follows;
    forall v | v in next.logs ensures LogOk(next, v) {
      assert LogOk(w, v);
      if v == ws {
        AppendedLog(w.logs[ws], e);
      }
    }
  }

  lemma AppendedLog(log: seq<Event>, e: Event)
    requires Increasing(log) && Disciplined(log) && Follows(log, e)
    ensures Increasing(log + [e]) && Disciplined(log + [e]) && Latest(log + [e]) == e.seqno && 1 <= e.seqno
  {
    DisciplinedSnoc(log, e);
    IncreasingSnoc(log, e);
  }

  lemma AppendFolds(log: seq<Event>, e: Event, root: RootId, path: PathId)
    ensures Incarnation(log + [e], root) ==
            if e.root == root && e.kind.RootAdd? then Some(e.seqno)
            else if e.root == root && e.kind.RootRemove? then None else Incarnation(log, root)
    ensures Head(log + [e], root, path) ==
            if e.root == root && IsLifecycle(e) then None
            else if e.root == root && IsContent(e) && e.path == Some(path) then Some(e) else Head(log, root, path)
  {
    assert (log + [e])[..|log|] == log;
  }

  lemma AppendKeepsRoots(w: World, next: World, ws: WorkspaceId, device: DeviceId, req: ET.Request, at: Time)
    requires LogsOk(w) && RootsOk(w) && LogsOk(next)
    requires ET.Check(w.db, ws, req).None?
    requires Appends(w, next, ws, ET.NewEvent(w.db, ws, device, req, at))
    requires w.db.workspaces[ws].current < w.db.nextSeq && 1 <= w.db.nextSeq
    requires next.db.roots == ET.RootsAfter(w.db, ws, req)
    ensures RootsOk(next)
  {
    hide LogOk, Incarnation, Disciplined, ET.CheckContent;
    var e := ET.NewEvent(w.db, ws, device, req, at);
    forall v, root | v in next.logs ensures RootOk(next, v, root) {
      assert RootOk(w, v, root);
      if v == ws {
        AppendFolds(w.logs[ws], e, root, PathId(""));
      }
    }
  }

  lemma AppendKeepsHeads(w: World, next: World, ws: WorkspaceId, device: DeviceId, req: ET.Request, at: Time)
    requires HeadsOk(w)
    requires ET.Check(w.db, ws, req).None?
    requires Appends(w, next, ws, ET.NewEvent(w.db, ws, device, req, at))
    requires next.db.heads == ET.HeadsAfter(w.db, ws, req)
    ensures HeadsOk(next)
  {
    hide Head, ET.CheckRootAdd, ET.CheckRootRemove;
    var e := ET.NewEvent(w.db, ws, device, req, at);
    forall v, root, path | v in next.logs
      ensures var head := Head(next.logs[v], root, path);
              ((v, root, path) in next.db.heads <==> head.Some?)
              && (head.Some? ==> next.db.heads[(v, root, path)] == HeadOf(head.value))
    {
      if v == ws {
        AppendFolds(w.logs[ws], e, root, path);
      }
    }
  }

  lemma AppendKeepsStored(w: World, next: World, ws: WorkspaceId, e: Event, v: WorkspaceId, f: Event)
    requires LogsOk(w) && EventsOk(w) && Appends(w, next, ws, e)
    requires next.db.events == w.db.events[e.seqno := e]
    requires forall s | s in w.db.events :: s < e.seqno
    requires v in next.logs && f in next.logs[v] && next.pruned[v] < f.seqno
    ensures f.seqno in next.db.events && next.db.events[f.seqno] == f
  {
    hide LogOk;
    if f != e || v != ws {
      assert f in w.logs[v];
      assert w.db.events[f.seqno] == f;
    }
  }

  lemma AppendKeepsOrigins(w: World, next: World, ws: WorkspaceId, e: Event, k: int)
    requires LogsOk(w) && EventsOk(w) && Appends(w, next, ws, e) && e.ws == ws
    requires next.db.events == w.db.events[e.seqno := e] && k in next.db.events
    ensures next.db.events[k].ws in next.logs && next.db.events[k] in next.logs[next.db.events[k].ws]
  {
    hide LogOk;
    if k == e.seqno {
      assert next.logs[ws][|w.logs[ws]|] == e;
    } else {
      var f := w.db.events[k];
      var i :| 0 <= i < |w.logs[f.ws]| && w.logs[f.ws][i] == f;
      assert next.logs[f.ws][i] == f;
    }
  }

  lemma AppendKeepsEvents(w: World, next: World, ws: WorkspaceId, e: Event)
    requires LogsOk(w) && EventsOk(w) && LogsOk(next)
    requires Appends(w, next, ws, e) && e.ws == ws
    requires next.db.events == w.db.events[e.seqno := e]
    requires forall s | s in w.db.events :: s < e.seqno
    ensures EventsOk(next)
  {
    hide LogOk, Appends;
    forall v, f | v in next.logs && f in next.logs[v] && next.pruned[v] < f.seqno
      ensures f.seqno in next.db.events && next.db.events[f.seqno] == f
    {
      AppendKeepsStored(w, next, ws, e, v, f);
    }
    forall k | k in next.db.events
      ensures next.db.events[k].ws in next.logs && next.db.events[k] in next.logs[next.db.events[k].ws]
    {
      AppendKeepsOrigins(w, next, ws, e, k);
    }
  }

  lemma CommitKeepsKeys(db: Db, ws: WorkspaceId, device: DeviceId, req: ET.Request, at: Time)
    requires KeysOk(db) && ET.Check(db, ws, req).None?
    ensures KeysOk(ET.Committed(db, ws, device, req, at))
  {
    hide ET.FirstMissing;
  }

  lemma CommitKeepsNames(db: Db, ws: WorkspaceId, device: DeviceId, req: ET.Request, at: Time)
    requires KeysOk(db) && NamesOk(db) && ET.Check(db, ws, req).None?
    ensures NamesOk(ET.Committed(db, ws, device, req, at))
  {
    hide ET.CheckRootAdd, ET.CheckRootRemove, ET.CheckContent, ET.RootsAfter, ET.HeadsAfter;
    var next := ET.Committed(db, ws, device, req, at);
    forall r | r in next.eventRefs ensures r.0 in next.events && (next.events[r.0].ws, r.1) in next.visible {
      if r !in db.eventRefs {
        assert r.1 in req.refs && IsVisible(db, ws, r.1);
      }
    }
  }
}
