/**
  The server's store as the object the handlers and the admin commands share. Each method changes the
  tables statement by statement, as the SQL does, and is proved to perform one step of the server's
  state machine, which the ghost field `world` follows.
*/
module Store {
  import opened Records
  import opened EventLog
  import opened Tables
  import opened ServerState
  import opened ServerInvariant
  import opened HorizonProofs
  import opened StoreLemmas
  import ET = EventTable
  import ST = SnapshotTable
  import Retention
  import WorkspacePurge
  import CountProofs

  class Store {
    var nextSeq: int
    var workspaces: map<WorkspaceId, WorkspaceRow>
    var roots: map<RootKey, RootRow>
    var heads: map<HeadKey, HeadRow>
    var events: map<int, Event>
    var eventRefs: set<(int, ObjectId)>
    var snapshots: map<SnapshotKey, SnapshotRow>
    var snapshotRefs: set<(ObjectId, ObjectId)>
    var objects: map<ObjectId, ObjectRow>
    var visible: set<(WorkspaceId, ObjectId)>
    var blobs: set<ObjectId>
    ghost var world: World

    ghost function State(): Db
      reads this
    {
      Db(nextSeq, workspaces, roots, heads, events, eventRefs, snapshots, snapshotRefs, objects, visible)
    }

    ghost predicate Valid()
      reads this
    {
      world.db == State() && world.blobs == blobs && Inv(world)
    }

    constructor ()
      ensures Valid() && world == EMPTY_WORLD
    {
      nextSeq, workspaces, roots, heads, events := 1, map[], map[], map[], map[];
      eventRefs, snapshots, snapshotRefs, objects, visible, blobs := {}, map[], {}, map[], {}, {};
      world := EMPTY_WORLD;
    }

    method IncrementRef(o: ObjectId)
      modifies this`objects
      ensures objects == if o in old(objects) then old(objects)[o := Incremented(old(objects)[o])] else old(objects)
    {
      if o in objects {
        objects := objects[o := ObjectRow(objects[o].refCount + 1, None, objects[o].createdAt)];
      }
    }

    method DecrementRef(o: ObjectId, now: Time)
      modifies this`objects
      ensures objects == if o in old(objects) then old(objects)[o := Retention.Lowered(old(objects)[o], 1, now)]
              else old(objects)
    {
      if o in objects {
        var row := objects[o];
        objects := objects[o := ObjectRow(if row.refCount > 0 then row.refCount - 1 else 0,
                                          if row.refCount <= 1 then Some(now) else row.zeroRefAt,
                                          row.createdAt)];
      }
    }

    /** The active roots of a workspace, each once. */
    method ActiveRootKeys(ws: WorkspaceId) returns (keys: seq<RootKey>)
      ensures forall i, j | 0 <= i < j < |keys| :: keys[i] != keys[j]
      ensures (set k | k in keys) == ActiveRoots(State(), ws)
      ensures forall i | 0 <= i < |keys| :: keys[i] in ActiveRoots(State(), ws)
    {
      keys := [];
      var rest := set k | k in roots && k.0 == ws && roots[k].removed.None?;
      while rest != {}
        invariant forall i, j | 0 <= i < j < |keys| :: keys[i] != keys[j]
        invariant forall k | k in keys :: k !in rest
        invariant (set k | k in keys) + rest == ActiveRoots(State(), ws)
      {
        var k :| k in rest;
        keys, rest := keys + [k], rest - {k};
      }
      assert forall i | 0 <= i < |keys| :: keys[i] in set k | k in keys;
    }

    /** The loop with zero as its "not set yet" mark computes the retained floor, since no snapshot seq is zero. */
    method ComputeFloor(ws: WorkspaceId) returns (floor: int)
      requires ws in workspaces
      requires forall k | k in ActiveRoots(State(), ws) && roots[k].snapshotSeq.Some? :: 1 <= roots[k].snapshotSeq.value
      ensures floor == RetainedFloor(State(), ws)
    {
      hide RetainedFloor;
      var keys := ActiveRootKeys(ws);
      if |keys| == 0 {
        NoActiveRoots(State(), ws);
        return workspaces[ws].current;
      }
      floor := 0;
      var i := 0;
      while i < |keys|
        invariant 0 <= i <= |keys|
        invariant forall j | 0 <= j < i :: roots[keys[j]].snapshotSeq.Some? && floor <= roots[keys[j]].snapshotSeq.value
        invariant if i == 0 then floor == 0 else exists j :: 0 <= j < i && roots[keys[j]].snapshotSeq == Some(floor)
      {
        var row := roots[keys[i]];
        if row.snapshotSeq.None? {
          SomeRootWithoutSnapshot(State(), ws, keys[i]);
          return 0;
        }
        if row.snapshotSeq.value < floor || floor == 0 {
          floor := row.snapshotSeq.value;
        }
        i := i + 1;
      }
      var j :| 0 <= j < |keys| && roots[keys[j]].snapshotSeq == Some(floor);
      forall k | k in ActiveRoots(State(), ws)
        ensures roots[k].snapshotSeq.Some? && floor <= roots[k].snapshotSeq.value {
        assert k in set x | x in keys;
      }
      LeastSnapshot(State(), ws, keys[j]);
    }

    method RecomputeRetainedFloor(ws: WorkspaceId)
      requires ws in workspaces
      requires forall k | k in ActiveRoots(State(), ws) && roots[k].snapshotSeq.Some? :: 1 <= roots[k].snapshotSeq.value
      modifies this`workspaces
      ensures State() == WithFloor(old(State()), ws)
    {
      hide RetainedFloor;
      var floor := ComputeFloor(ws);
      workspaces := workspaces[ws := workspaces[ws].(floor := floor)];
    }

    /** The first listed object the workspace may not name. */
    method MissingRef(ws: WorkspaceId, refs: seq<ObjectId>) returns (missing: Option<ObjectId>)
      ensures missing == ET.FirstMissing(State(), ws, refs)
    {
      var i := 0;
      while i < |refs|
        invariant 0 <= i <= |refs|
        invariant ET.FirstMissing(State(), ws, refs) == ET.FirstMissing(State(), ws, refs[i..])
      {
        if (ws, refs[i]) !in visible {
          return Some(refs[i]);
        }
        i := i + 1;
      }
      return None;
    }

    method RefuseLifecycle(ws: WorkspaceId, req: ET.Request) returns (refusal: Option<ET.Refusal>)
      requires req.kind.RootAdd? || req.kind.RootRemove?
      ensures refusal == if req.kind.RootAdd? then ET.CheckRootAdd(State(), ws, req)
              else ET.CheckRootRemove(State(), ws, req)
    {
      var known := (ws, req.root) in roots;
      if req.kind.RootAdd? {
        if !req.rootKind.DirRoot? && !req.rootKind.FileRoot? { return Some(ET.RootKindRequired); }
        if known && roots[(ws, req.root)].removed.None? { return Some(ET.RootAlreadyActive); }
        return None;
      }
      if !known { return Some(ET.UnknownRoot); }
      var row := roots[(ws, req.root)];
      if req.bound.Some? && req.bound.value != row.created { return Some(ET.IncarnationMismatch(row.created)); }
      if row.removed.Some? { return Some(ET.RootAlreadyRemoved); }
      return None;
    }

    method RefuseContent(ws: WorkspaceId, req: ET.Request) returns (refusal: Option<ET.Refusal>)
      ensures refusal == ET.CheckContent(State(), ws, req)
    {
      if req.path.text == "" || req.base.None? { return Some(ET.PathAndBaseRequired); }
      if (ws, req.root) !in roots { return Some(ET.UnknownRoot); }
      var row := roots[(ws, req.root)];
      if row.removed.Some? { return Some(ET.RootRemoved); }
      if req.bound.Some? && req.bound.value != row.created { return Some(ET.IncarnationMismatch(row.created)); }
      if (ws, req.root, req.path) !in heads {
        if req.base.value != 0 { return Some(ET.PathHeadMismatch(0)); }
        return None;
      }
      var head := heads[(ws, req.root, req.path)].seqno;
      if head > req.base.value { return Some(ET.PathHeadMismatch(head)); }
      return None;
    }

    method Refuse(ws: WorkspaceId, req: ET.Request) returns (refusal: Option<ET.Refusal>)
      ensures refusal == ET.Check(State(), ws, req)
    {
      if req.root.text == "" { return Some(ET.RootIdRequired); }
      if req.kind.Unsupported? { return Some(ET.UnsupportedEventType); }
      if ws !in workspaces { return Some(ET.UnknownWorkspace); }
      var missing := MissingRef(ws, req.refs);
      if missing.Some? { return Some(ET.MissingObjectRef(missing.value)); }
      if req.kind.RootAdd? || req.kind.RootRemove? {
        refusal := RefuseLifecycle(ws, req);
      } else {
        refusal := RefuseContent(ws, req);
      }
    }

    /** A root added again starts over; a root that goes loses its snapshot; both lose their path heads. */
    method WriteRootOrHead(ws: WorkspaceId, req: ET.Request)
      requires req.kind.RootRemove? ==> (ws, req.root) in roots
      modifies this`roots, this`heads
      ensures roots == ET.RootsAfter(old(State()), ws, req)
      ensures heads == ET.HeadsAfter(old(State()), ws, req)
    {
      var s := nextSeq;
      if req.kind.RootAdd? || req.kind.RootRemove? {
        if req.kind.RootAdd? {
          roots := roots[(ws, req.root) := RootRow(req.rootKind, req.payload, s, None, None, None)];
        } else {
          var row := roots[(ws, req.root)];
          roots := roots[(ws, req.root) := row.(removed := Some(s), snapshot := None, snapshotSeq := None)];
        }
        heads := map k | k in heads && !(k.0 == ws && k.1 == req.root) :: heads[k];
      } else {
        heads := heads[(ws, req.root, req.path) := HeadRow(ET.EntryKindOf(req.kind), s, req.kind.Delete?)];
      }
    }

    /** One row per distinct id, one increment per listed id. */
    method WriteEventRefs(s: int, refs: seq<ObjectId>)
      modifies this`eventRefs, this`objects
      ensures eventRefs == old(eventRefs) + (set o | o in refs :: (s, o))
      ensures objects == ET.ObjectsReferencedBy(old(objects), refs)
    {
      var i := 0;
      while i < |refs|
        invariant 0 <= i <= |refs|
        invariant eventRefs == old(eventRefs) + (set o | o in refs[..i] :: (s, o))
        invariant objects == ET.ObjectsReferencedBy(old(objects), refs[..i])
      {
        hide ET.ObjectsReferencedBy;
        ReferencedSnoc(old(objects), refs, i);
        assert objects.Keys == old(objects).Keys by { ReferencedKeys(old(objects), refs[..i]); }
        IncrementRef(refs[i]);
        eventRefs := eventRefs + {(s, refs[i])};
        assert refs[..i + 1] == refs[..i] + [refs[i]];
        i := i + 1;
      }
      assert refs[..|refs|] == refs;
    }

    method SubmitEvent(ws: WorkspaceId, device: DeviceId, req: ET.Request, now: Time) returns (outcome: ET.Outcome)
      requires Valid()
      modifies this
      ensures Valid() && world == AfterSubmit(old(world), ws, device, req, now)
      ensures outcome == ET.Submit(old(State()), ws, device, req, now).0
    {
      hide ET.Check, ET.RootsAfter, ET.HeadsAfter, ET.ObjectsReferencedBy, RetainedFloor, Inv, ET.Committed;
      ghost var w := world;
      var refusal := Refuse(ws, req);
      SubmitKeepsInv(w, ws, device, req, now);
      if refusal.Some? {
        outcome := ET.Refused(refusal.value);
        return;
      }
      AcceptedFacts(w, ws, device, req, now);
      outcome := ET.Accepted(nextSeq);
      CommitSubmission(ws, device, req, now);
      if req.kind.RootAdd? || req.kind.RootRemove? {
        RecomputeRetainedFloor(ws);
      }
      world := AfterSubmit(w, ws, device, req, now);
    }

    /** The transaction itself. */
    method CommitSubmission(ws: WorkspaceId, device: DeviceId, req: ET.Request, now: Time)
      requires ws in workspaces && (req.kind.RootRemove? ==> (ws, req.root) in roots)
      modifies this
      ensures State() == ET.Committed(old(State()), ws, device, req, now)
      ensures blobs == old(blobs) && world == old(world)
    {
      hide ET.ObjectsReferencedBy, ET.RootsAfter, ET.HeadsAfter;
      var s := nextSeq;
      var path := if req.path.text == "" then None else Some(req.path);
      events := events[s := Event(s, ws, req.root, path, req.kind, req.base, device, req.payload, now)];
      SameRowsAfter(old(State()), State(), ws, req);
      WriteRootOrHead(ws, req);
      WriteEventRefs(s, req.refs);
      workspaces := workspaces[ws := workspaces[ws].(current := s)];
      nextSeq := s + 1;
    }

    /**
      ORDER BY seq LIMIT limit: the least stored seq above the last one taken, until the page is full. A
      second query attaches to each event the objects it names.
    */
    method FetchEvents(ws: WorkspaceId, after: int, limit: nat)
      returns (fetched: ET.Fetched, refs: seq<set<ObjectId>>)
      ensures fetched == ET.Fetch(State(), ws, after, limit)
      ensures fetched.Page? ==> |refs| == |fetched.events|
                                && forall i | 0 <= i < |refs| :: forall o ::
                                    o in refs[i] <==> (fetched.events[i].seqno, o) in eventRefs
    {
      hide Least, ET.Fetch;
      refs := [];
      fetched := FetchPage(ws, after, limit);
      if fetched.Page? {
        for i := 0 to |fetched.events|
          invariant |refs| == i
          invariant forall j | 0 <= j < i :: forall o :: o in refs[j] <==> (fetched.events[j].seqno, o) in eventRefs
        {
          var named := set r | r in eventRefs && r.0 == fetched.events[i].seqno :: r.1;
          assert forall o | (fetched.events[i].seqno, o) in eventRefs :: (fetched.events[i].seqno, o).1 in named;
          refs := refs + [named];
        }
      }
    }

    method FetchPage(ws: WorkspaceId, after: int, limit: nat) returns (fetched: ET.Fetched)
      ensures fetched == ET.Fetch(State(), ws, after, limit)
    {
      hide Least;
      if ws !in workspaces { return ET.NoWorkspace; }
      var row := workspaces[ws];
      if after < row.floor { return ET.ResyncRequired(row.floor); }
      var rest := set s | s in events && events[s].ws == ws && after < s <= row.current;
      var page: seq<Event> := [];
      while rest != {} && |page| < limit
        invariant forall s | s in rest :: s in events
        invariant |page| <= limit
        invariant ET.Ascending(State(), ET.Stored(State(), ws, after), limit) == page
                  + ET.Ascending(State(), rest, limit - |page|)
        decreases limit - |page|
      {
        var s := LeastOf(rest);
        page, rest := page + [events[s]], rest - {s};
      }
      return ET.Page(page, row.current);
    }

    method LeastOf(seqs: set<int>) returns (m: int)
      requires seqs != {}
      ensures m in seqs && m == Least(seqs)
    {
      m := AnyOf(seqs);
      var rest := seqs - {m};
      while rest != {}
        invariant m in seqs && rest <= seqs
        invariant forall s | s in seqs && s !in rest :: m <= s
      {
        var s := AnyOf(rest);
        if s < m { m := s; }
        rest := rest - {s};
      }
      LeastIsUnique(seqs, m);
    }

    /** The first read of a bootstrap: the rows of the active roots, in some order. */
    method ReadActiveRoots(ws: WorkspaceId) returns (order: seq<RootKey>, rows: map<RootKey, RootRow>)
      ensures rows == ActiveRows(State(), ws) && (set k | k in order) == rows.Keys
      ensures forall i, j | 0 <= i < j < |order| :: order[i] != order[j]
    {
      order := ActiveRootKeys(ws);
      rows := map k | k in roots && k.0 == ws && roots[k].removed.None? :: roots[k];
    }

    /** What a bootstrap answers, from the rows of its first read and the head of its second. */
    method AnswerBootstrap(order: seq<RootKey>, rows: map<RootKey, RootRow>, current: int)
      returns (listed: seq<RootKey>, after: int)
      requires (set k | k in order) == rows.Keys
      ensures listed == order && after == CursorFrom(rows, current)
    {
      assert forall i | 0 <= i < |order| :: order[i] in set k | k in order;
      listed, after := [], current;
      var minSet := false;
      for i := 0 to |order|
        invariant listed == order[..i] && minSet == (0 < i)
        invariant !minSet ==> after == current
        invariant minSet ==> exists j :: 0 <= j < i && after == Contribution(rows[order[j]])
        invariant minSet ==> forall j | 0 <= j < i :: after <= Contribution(rows[order[j]])
      {
        var row := rows[order[i]];
        listed := listed + [order[i]];
        var contrib := row.created - 1;
        if row.snapshotSeq.Some? { contrib := row.snapshotSeq.value; }
        if !minSet || contrib < after {
          after, minSet := contrib, true;
        }
      }
      assert forall k | k in rows :: k in set x | x in order;
      if minSet {
        var j :| 0 <= j < |order| && after == Contribution(rows[order[j]]);
        LeastOfRows(rows, order[j], current);
      } else {
        assert rows == map[];
      }
    }

    /** The roots a bootstrap lists and the cursor it hands out, if nothing commits between its two reads. */
    method Bootstrap(ws: WorkspaceId) returns (listed: seq<RootKey>, after: int, current: int)
      requires ws in workspaces
      ensures (set k | k in listed) == ActiveRoots(State(), ws)
      ensures forall i, j | 0 <= i < j < |listed| :: listed[i] != listed[j]
      ensures after == BootstrapAfter(State(), ws) && current == workspaces[ws].current
    {
      hide BootstrapAfter, CursorFrom;
      var order, rows := ReadActiveRoots(ws);
      current := workspaces[ws].current;
      listed, after := AnswerBootstrap(order, rows, current);
      CursorFromRows(State(), ws, current);
      if ActiveRoots(State(), ws) == {} { NoActiveRootsNoCursor(State(), ws); }
    }

    method RefuseSnapshot(ws: WorkspaceId, req: ST.Request) returns (refusal: Option<ST.Refusal>)
      ensures refusal == ST.Check(State(), ws, req)
    {
      if (ws, req.root) !in roots { return Some(ST.UnknownRoot); }
      var row := roots[(ws, req.root)];
      if row.removed.Some? { return Some(ST.RootRemoved); }
      if req.base < row.created { return Some(ST.PredatesIncarnation); }
      if row.snapshotSeq.Some? && req.base < row.snapshotSeq.value { return Some(ST.StaleSnapshot); }
      if ws !in workspaces { return Some(ST.UnknownWorkspace); }
      if req.base > workspaces[ws].current { return Some(ST.BeyondHead); }
      if (ws, req.obj) !in visible { return Some(ST.MissingObject); }
      var missing := MissingRef(ws, req.refs);
      if missing.Some? { return Some(ST.MissingObjectRef(missing.value)); }
      return None;
    }

    /** INSERT OR IGNORE per listed id, raising the count only where a row was really added. */
    method WriteSnapshotRefs(obj: ObjectId, refs: seq<ObjectId>)
      modifies this`snapshotRefs, this`objects
      ensures snapshotRefs == old(snapshotRefs) + (set o | o in refs :: (obj, o))
      ensures objects == IncrementedIn(old(objects), NewRefs(old(snapshotRefs), obj, refs))
    {
      var i := 0;
      while i < |refs|
        invariant 0 <= i <= |refs|
        invariant snapshotRefs == old(snapshotRefs) + (set o | o in refs[..i] :: (obj, o))
        invariant objects == IncrementedIn(old(objects), NewRefs(old(snapshotRefs), obj, refs[..i]))
      {
        assert refs[..i + 1] == refs[..i] + [refs[i]];
        NewRefsSnoc(old(objects), old(snapshotRefs), obj, refs[..i], refs[i]);
        if (obj, refs[i]) !in snapshotRefs {
          snapshotRefs := snapshotRefs + {(obj, refs[i])};
          IncrementRef(refs[i]);
        }
        i := i + 1;
      }
      assert refs[..|refs|] == refs;
    }

    method CommitSnapshot(ws: WorkspaceId, device: DeviceId, req: ST.Request, now: Time)
      requires (ws, req.root) in roots
      modifies this
      ensures State() == ST.Committed(old(State()), ws, device, req, now)
      ensures blobs == old(blobs) && world == old(world)
    {
      hide NewRefs, IncrementedIn;
      var key := (ws, req.root, req.obj);
      var inserted := key !in snapshots;
      if inserted {
        snapshots := snapshots[key := SnapshotRow(req.base, device, now)];
      }
      roots := roots[(ws, req.root) := roots[(ws, req.root)].(snapshot := Some(req.obj),
          snapshotSeq := Some(req.base))];
      if inserted {
        IncrementRef(req.obj);
      }
      ghost var counted := objects;
      WriteSnapshotRefs(req.obj, req.refs);
      RaisedIsIncremented(old(State()), ws, req, counted, now, device);
    }

    method SaveSnapshot(ws: WorkspaceId, device: DeviceId, req: ST.Request, now: Time)
      returns (refusal: Option<ST.Refusal>)
      requires Valid()
      modifies this
      ensures Valid() && world == AfterSave(old(world), ws, device, req, now)
      ensures refusal == ST.Save(old(State()), ws, device, req, now).0
    {
      hide ST.Check, RetainedFloor, Inv, ST.Committed;
      ghost var w := world;
      refusal := RefuseSnapshot(ws, req);
      SaveKeepsInv(w, ws, device, req, now);
      if refusal.None? {
        SavedFacts(w, ws, device, req, now);
        CommitSnapshot(ws, device, req, now);
        RecomputeRetainedFloor(ws);
        world := AfterSave(w, ws, device, req, now);
      }
    }

    method CreateWorkspace(ws: WorkspaceId) returns (created: bool)
      requires Valid()
      modifies this
      ensures Valid() && world == AfterCreate(old(world), ws)
      ensures created == (ws !in old(workspaces))
    {
      hide Inv;
      ghost var w := world;
      CreateKeepsInv(w, ws);
      created := ws !in workspaces;
      if created {
        workspaces := workspaces[ws := WorkspaceRow(0, 0)];
        world := AfterCreate(w, ws);
      }
    }

    /** Put links the blob into the store, then writes its row, then makes it visible to the workspace. */
    method PutObject(ws: WorkspaceId, o: ObjectId, now: Time) returns (ok: bool)
      requires Valid()
      modifies this
      ensures Valid() && world == AfterUpload(old(world), ws, o, now)
      ensures ok == (ws in workspaces) && (ok ==> IsVisible(State(), ws, o))
    {
      hide Inv;
      ghost var w := world;
      UploadKeepsInv(w, ws, o, now);
      blobs := blobs + {o};
      if o !in objects {
        objects := objects[o := ObjectRow(0, Some(now), now)];
      }
      ok := ws in workspaces;
      if ok {
        visible := visible + {(ws, o)};
      }
      world := AfterUpload(w, ws, o, now);
    }

    method DecrementAll(os: set<ObjectId>, now: Time)
      modifies this`objects
      ensures objects == LoweredOnce(old(objects), os, now)
    {
      var rest := os;
      while rest != {}
        invariant rest <= os
        invariant objects == LoweredOnce(old(objects), os - rest, now)
      {
        var o :| o in rest;
        DecrementRef(o, now);
        rest := rest - {o};
      }
      assert os - rest == os;
    }

    /** One expired event: its references go down, then its rows go. */
    method PruneEvent(s: int, now: Time)
      modifies this`events, this`eventRefs, this`objects
      ensures State() == Retention.WithoutEvents(old(State()), {s}, now)
    {
      hide Retention.Lowered, LoweredOnce, Retention.WithoutEvents;
      var refs := set r | r in eventRefs && r.0 == s :: r.1;
      OneEvent(State(), s, refs, now);
      DecrementAll(refs, now);
      eventRefs := set r | r in eventRefs && r.0 != s;
      events := events - {s};
    }

    method PruneWorkspaceEvents(seqs: set<int>, now: Time)
      modifies this`events, this`eventRefs, this`objects
      ensures State() == Retention.WithoutEvents(old(State()), seqs, now)
    {
      hide Retention.WithoutEvents;
      ghost var db := State();
      var rest := seqs;
      WithoutNoEvents(db, now);
      assert seqs - rest == {};
      while rest != {}
        invariant rest <= seqs
        invariant State() == Retention.WithoutEvents(db, seqs - rest, now)
      {
        var s := AnyOf(rest);
        WithoutOneMoreEvent(db, seqs - rest, s, now);
        assert seqs - (rest - {s}) == (seqs - rest) + {s};
        PruneEvent(s, now);
        rest := rest - {s};
      }
      assert seqs - rest == seqs;
    }

    /** The floors are read once, up front; each workspace's events are then taken in turn. */
    method PruneEvents(now: Time, retention: int)
      modifies this`events, this`eventRefs, this`objects
      ensures State() == Retention.AfterEvents(old(State()), now, retention)
    {
      hide Retention.WithoutEvents;
      ghost var db := State();
      var floors := workspaces;
      var rest := floors.Keys;
      var cutoff := now - retention;
      ghost var done: set<int> := {};
      WithoutNoEvents(db, now);
      while rest != {}
        invariant rest <= floors.Keys && floors == db.workspaces && workspaces == db.workspaces
        invariant State() == Retention.WithoutEvents(db, done, now)
        invariant done == set s | s in Retention.ExpiredEvents(db, cutoff) && db.events[s].ws !in rest
      {
        var ws :| ws in rest;
        var seqs := set s | s in events && events[s].ws == ws && s <= floors[ws].floor && events[s].createdAt <= cutoff;
        assert forall s :: s in events <==> s in db.events && s !in done by { LeftEvents(db, done, now); }
        assert forall s | s in events :: events[s] == db.events[s] by { LeftEvents(db, done, now); }
        TwoBatches(db, done, seqs, now);
        PruneWorkspaceEvents(seqs, now);
        done, rest := done + seqs, rest - {ws};
      }
      assert done == Retention.ExpiredEvents(db, cutoff);
    }

    /** One obsolete snapshot: its own count and its references' counts go down, then its rows go. */
    method PruneSnapshot(k: SnapshotKey, now: Time)
      modifies this`snapshots, this`snapshotRefs, this`objects
      ensures State() == Retention.WithoutSnapshots(old(State()), {k}, now)
    {
      hide Retention.Lowered, LoweredOnce, Retention.WithoutSnapshots;
      var refs := set r | r in snapshotRefs && r.0 == k.2 :: r.1;
      OneSnapshot(State(), k, refs, now);
      DecrementAll({k.2}, now);
      DecrementAll(refs, now);
      snapshotRefs := set r | r in snapshotRefs && r.0 != k.2;
      snapshots := snapshots - {k};
    }

    method PruneSnapshots(now: Time, retention: int)
      modifies this`snapshots, this`snapshotRefs, this`objects
      ensures State() == Retention.WithoutSnapshots(old(State()),
              Retention.ExpiredSnapshots(old(State()), now - retention), now)
    {
      hide Retention.WithoutSnapshots;
      ghost var db := State();
      var keys := set k | k in snapshots && snapshots[k].createdAt <= now - retention &&
        ((k.0, k.1) in roots ==>
           roots[(k.0, k.1)].removed.Some? || (roots[(k.0, k.1)].snapshot.Some?
               && roots[(k.0, k.1)].snapshot.value != k.2));
      assert keys == Retention.ExpiredSnapshots(db, now - retention);
      var rest := keys;
      WithoutNoSnapshots(db, now);
      assert keys - rest == {};
      while rest != {}
        invariant rest <= keys
        invariant State() == Retention.WithoutSnapshots(db, keys - rest, now)
      {
        var k :| k in rest;
        WithoutOneMoreSnapshot(db, keys - rest, k, now);
        assert keys - (rest - {k}) == (keys - rest) + {k};
        PruneSnapshot(k, now);
        rest := rest - {k};
      }
      assert keys - rest == keys;
    }

    method PruneObjects(now: Time, zeroRetention: int) returns (pruned: set<ObjectId>)
      modifies this`objects, this`visible
      ensures pruned == Retention.ExpiredObjects(old(State()), now - zeroRetention)
      ensures State() == Retention.WithoutObjects(old(State()), pruned)
    {
      pruned := set o | o in objects && objects[o].refCount == 0
                        && (if objects[o].zeroRefAt.Some? then objects[o].zeroRefAt.value
                            else objects[o].createdAt) <= now - zeroRetention;
      var rest := pruned;
      while rest != {}
        invariant rest <= pruned
        invariant objects == map o | o in old(objects) && o !in pruned - rest :: old(objects)[o]
        invariant visible == set v | v in old(visible) && v.1 !in pruned - rest
      {
        var o :| o in rest;
        objects := objects - {o};
        visible := set v | v in visible && v.1 != o;
        rest := rest - {o};
      }
    }

    /** The pruning pass, then the unlinking of the blobs it reports; `unlinked` are those that succeed. */
    method CollectGarbage(now: Time, retention: int, zeroRetention: int, unlinked: set<ObjectId>)
      returns (pruned: set<ObjectId>)
      requires Valid()
      modifies this
      ensures Valid() && world == AfterPrune(old(world), now, retention, zeroRetention, unlinked)
      ensures pruned == Retention.PrunedObjects(old(State()), now, retention, zeroRetention)
    {
      hide Inv, Retention.AfterEvents, Retention.WithoutSnapshots, Retention.WithoutObjects, Retention.ExpiredObjects;
      hide Retention.ExpiredSnapshots, Retention.ExpiredEvents, HighestPruned;
      ghost var w := world;
      PruneKeepsInv(w, now, retention, zeroRetention, unlinked);
      PruneEvents(now, retention);
      PruneSnapshots(now, retention);
      pruned := PruneObjects(now, zeroRetention);
      blobs := blobs - pruned * unlinked;
      world := AfterPrune(w, now, retention, zeroRetention, unlinked);
    }

    /** The reference rows of the workspace go before the events and snapshots that own them. */
    method DropReferences(ws: WorkspaceId)
      modifies this`eventRefs, this`events, this`snapshotRefs, this`snapshots
      ensures var next := WorkspacePurge.WithoutWorkspace(old(State()), ws);
              eventRefs == next.eventRefs && events == next.events && snapshotRefs == next.snapshotRefs
                  && snapshots == next.snapshots
    {
      eventRefs := set r | r in eventRefs && !(r.0 in events && events[r.0].ws == ws);
      events := map s | s in events && events[s].ws != ws :: events[s];
      var own := set k | k in snapshots && k.0 == ws :: k.2;
      var shared := set k | k in snapshots && k.0 != ws :: k.2;
      assert own == WorkspacePurge.OwnSnapshotObjects(old(State()), ws);
      assert shared == WorkspacePurge.SharedSnapshotObjects(old(State()), ws);
      snapshotRefs := set r | r in snapshotRefs && r.0 !in own - shared;
      snapshots := map k | k in snapshots && k.0 != ws :: snapshots[k];
    }

    method DropRootsAndRows(ws: WorkspaceId)
      modifies this`heads, this`roots, this`visible, this`workspaces
      ensures var next := WorkspacePurge.WithoutWorkspace(old(State()), ws);
              heads == next.heads && roots == next.roots && visible == next.visible && workspaces == next.workspaces
    {
      hide WorkspacePurge.OwnSnapshotObjects, WorkspacePurge.SharedSnapshotObjects;
      heads := map k | k in heads && k.0 != ws :: heads[k];
      roots := map k | k in roots && k.0 != ws :: roots[k];
      visible := set v | v in visible && v.0 != ws;
      workspaces := map v | v in workspaces && v != ws :: workspaces[v];
    }

    /** Deletes everything the workspace owns, in the order of the statements. */
    method DropWorkspaceRows(ws: WorkspaceId)
      modifies this
      ensures State() == WorkspacePurge.WithoutWorkspace(old(State()), ws)
      ensures blobs == old(blobs) && world == old(world)
    {
      hide WorkspacePurge.WithoutWorkspace;
      ghost var db := State();
      DropReferences(ws);
      SeparateDrops(db, State(), ws);
      DropRootsAndRows(ws);
    }

    method RecountObjects(now: Time)
      modifies this`objects
      ensures State() == WorkspacePurge.Recounted(old(State()), now)
    {
      objects := map o | o in objects ::
        var n := |set r | r in eventRefs && r.1 == o :: r.0| + |set k | k in snapshots && k.2 == o|
                 + |set r | r in snapshotRefs && r.1 == o :: r.0|;
        ObjectRow(n,
                  if n != 0 then None else if objects[o].zeroRefAt.Some? then objects[o].zeroRefAt else Some(now),
                  objects[o].createdAt);
      assert objects == WorkspacePurge.Recounted(old(State()), now).objects;
    }

    /** The candidate loop: each is deleted only if nothing names it any more. */
    method DeleteCandidates(candidates: set<ObjectId>) returns (deleted: set<ObjectId>)
      modifies this`objects
      ensures deleted == WorkspacePurge.Deletable(old(State()), candidates)
      ensures objects == map o | o in old(objects) && o !in deleted :: old(objects)[o]
    {
      hide References;
      var rest := candidates;
      deleted := {};
      while rest != {}
        invariant rest <= candidates
        invariant deleted == WorkspacePurge.Deletable(old(State()), candidates - rest)
        invariant objects == map o | o in old(objects) && o !in deleted :: old(objects)[o]
      {
        var o :| o in rest;
        var named := (exists v | v in visible :: v.1 == o) || (exists r | r in eventRefs :: r.1 == o)
                     || (exists k | k in snapshots :: k.2 == o) || (exists r | r in snapshotRefs :: r.1 == o);
        UnreferencedWhenUnnamed(old(State()), o);
        if !named && o in objects {
          objects := objects - {o};
          deleted := deleted + {o};
        }
        assert candidates - (rest - {o}) == (candidates - rest) + {o};
        rest := rest - {o};
      }
      assert candidates - rest == candidates;
    }

    /** The database side of a purge, with the blobs of what it deleted removed from the store. */
    method PurgeWorkspace(ws: WorkspaceId, now: Time) returns (found: bool, deleted: set<ObjectId>)
      requires Valid()
      modifies this
      ensures Valid() && world == AfterPurge(old(world), ws, now)
      ensures found == (ws in old(workspaces)) && deleted == old(objects).Keys - objects.Keys
    {
      hide Inv, WorkspacePurge.WithoutWorkspace, WorkspacePurge.Recounted, WorkspacePurge.Deletable;
      hide WorkspacePurge.Candidates;
      ghost var w := world;
      PurgeKeepsInv(w, ws, now);
      found, deleted := ws in workspaces, {};
      if found {
        var candidates := set o | o in objects && (ws, o) in visible && forall v | v in visible && v.1 == o ::
            v.0 == ws;
        assert candidates == WorkspacePurge.Candidates(w.db, ws) by { SameCandidates(w.db, ws, candidates); }
        DropWorkspaceRows(ws);
        RecountObjects(now);
        RecountedKeys(w.db, ws, now);
        deleted := DeleteCandidates(candidates);
        assert deleted <= w.db.objects.Keys by {
          DeletableAreStored(WorkspacePurge.Recounted(WorkspacePurge.WithoutWorkspace(w.db, ws), now), candidates);
        }
        blobs := blobs - deleted;
        world := AfterPurge(w, ws, now);
      }
    }
  }

  lemma SeparateDrops(db: Db, mid: Db, ws: WorkspaceId)
    requires mid == db.(events := mid.events, eventRefs := mid.eventRefs, snapshots := mid.snapshots,
             snapshotRefs := mid.snapshotRefs)
    ensures var one := WorkspacePurge.WithoutWorkspace(db, ws);
            var two := WorkspacePurge.WithoutWorkspace(mid, ws);
            && two.heads == one.heads && two.roots == one.roots && two.visible == one.visible
            && two.workspaces == one.workspaces
            && one.nextSeq == db.nextSeq && one.objects == db.objects
  {
    hide WorkspacePurge.OwnSnapshotObjects, WorkspacePurge.SharedSnapshotObjects;
  }

  lemma LeftEvents(db: Db, done: set<int>, now: Time)
    ensures Retention.WithoutEvents(db, done, now).events == map s | s in db.events && s !in done :: db.events[s]
  {}

  lemma TwoBatches(db: Db, done: set<int>, seqs: set<int>, now: Time)
    requires done !! seqs
    ensures Retention.WithoutEvents(Retention.WithoutEvents(db, done, now), seqs, now) ==
            Retention.WithoutEvents(db, done + seqs, now)
    decreases |seqs|
  {
    hide Retention.WithoutEvents;
    if seqs == {} {
      WithoutNoEvents(Retention.WithoutEvents(db, done, now), now);
      assert done + seqs == done;
    } else {
      var s := Pick(seqs);
      var rest := seqs - {s};
      TwoBatches(db, done, rest, now);
      WithoutOneMoreEvent(db, done + rest, s, now);
      WithoutOneMoreEvent(Retention.WithoutEvents(db, done, now), rest, s, now);
      assert rest + {s} == seqs && (done + rest) + {s} == done + seqs;
    }
  }

  lemma UnreferencedWhenUnnamed(db: Db, o: ObjectId)
    ensures WorkspacePurge.Unreferenced(db, o) <==>
            && (forall v | v in db.visible :: v.1 != o) && (forall r | r in db.eventRefs :: r.1 != o)
            && (forall k | k in db.snapshots :: k.2 != o) && (forall r | r in db.snapshotRefs :: r.1 != o)
  {
    hide References;
    CountProofs.ReferencedWhenNamed(db, o);
  }

  lemma SameCandidates(db: Db, ws: WorkspaceId, candidates: set<ObjectId>)
    requires candidates == set o | o in db.objects && (ws, o) in db.visible && forall v | v in db.visible && v.1 == o ::
             v.0 == ws
    ensures candidates == WorkspacePurge.Candidates(db, ws)
  {}

  lemma RecountedKeys(db: Db, ws: WorkspaceId, now: Time)
    ensures WorkspacePurge.Recounted(WorkspacePurge.WithoutWorkspace(db, ws), now).objects.Keys == db.objects.Keys
  {}

  lemma DeletableAreStored(db: Db, candidates: set<ObjectId>)
    ensures WorkspacePurge.Deletable(db, candidates) <= db.objects.Keys
  {}

  lemma NoActiveRootsNoCursor(db: Db, ws: WorkspaceId)
    requires ws in db.workspaces && ActiveRoots(db, ws) == {}
    ensures BootstrapAfter(db, ws) == db.workspaces[ws].current
  {}

  lemma LeastOfRows(rows: map<RootKey, RootRow>, k: RootKey, current: int)
    requires k in rows && forall r | r in rows :: Contribution(rows[k]) <= Contribution(rows[r])
    ensures CursorFrom(rows, current) == Contribution(rows[k])
  {
    LeastIsUnique(RowContributions(rows), Contribution(rows[k]));
  }

  /** The listed ids whose reference row did not exist before. */
  function NewRefs(rows: set<(ObjectId, ObjectId)>, obj: ObjectId, refs: seq<ObjectId>): set<ObjectId> {
    set o | o in refs && (obj, o) !in rows
  }

  function IncrementedIn(objects: map<ObjectId, ObjectRow>, os: set<ObjectId>): map<ObjectId, ObjectRow> {
    map o | o in objects :: if o in os then Incremented(objects[o]) else objects[o]
  }

  lemma NewRefsSnoc(objects: map<ObjectId, ObjectRow>, rows: set<(ObjectId, ObjectId)>, obj: ObjectId,
                    refs: seq<ObjectId>, o: ObjectId)
    ensures NewRefs(rows, obj, refs + [o]) == if (obj, o) in rows then NewRefs(rows, obj, refs)
            else NewRefs(rows, obj, refs) + {o}
    ensures var before := IncrementedIn(objects, NewRefs(rows, obj, refs));
            IncrementedIn(objects, NewRefs(rows, obj, refs + [o])) ==
            if (obj, o) in rows || o in refs || o !in objects then before else before[o := Incremented(before[o])]
  {}

  lemma RaisedIsIncremented(db: Db, ws: WorkspaceId, req: ST.Request, counted: map<ObjectId, ObjectRow>, now: Time,
                            device: DeviceId)
    requires (ws, req.root) in db.roots
    requires counted == if (ws, req.root, req.obj) !in db.snapshots && req.obj in db.objects
                        then db.objects[req.obj := Incremented(db.objects[req.obj])] else db.objects
    ensures ST.Committed(db, ws, device, req, now).objects ==
            IncrementedIn(counted, NewRefs(db.snapshotRefs, req.obj, req.refs))
  {}

  lemma SavedFacts(w: World, ws: WorkspaceId, device: DeviceId, req: ST.Request, now: Time)
    requires Inv(w) && ST.Check(w.db, ws, req).None?
    ensures (ws, req.root) in w.db.roots
    ensures var db := ST.Committed(w.db, ws, device, req, now);
            ws in db.workspaces
            && forall k | k in ActiveRoots(db, ws) && db.roots[k].snapshotSeq.Some? ::
                1 <= db.roots[k].snapshotSeq.value
  {
    hide KeysOk, NamesOk, CountsOk, LogOk, RootsOk, HeadsOk, EventsOk, FloorsOk, HorizonOk, ET.FirstMissing, ST.Raise;
    RowsFromRoots(w, ws);
  }

  lemma ReferencedKeys(objects: map<ObjectId, ObjectRow>, refs: seq<ObjectId>)
    ensures ET.ObjectsReferencedBy(objects, refs).Keys == objects.Keys
  {}

  lemma AcceptedFacts(w: World, ws: WorkspaceId, device: DeviceId, req: ET.Request, now: Time)
    requires Inv(w) && ET.Check(w.db, ws, req).None?
    ensures ws in w.db.workspaces && ws in w.logs
    ensures req.kind.RootRemove? ==> (ws, req.root) in w.db.roots
    ensures var db := ET.Committed(w.db, ws, device, req, now);
            ws in db.workspaces
            && forall k | k in ActiveRoots(db, ws) && db.roots[k].snapshotSeq.Some? ::
                1 <= db.roots[k].snapshotSeq.value
  {
    hide KeysOk, NamesOk, CountsOk, LogOk, RootsOk, HeadsOk, EventsOk, FloorsOk, HorizonOk, ET.FirstMissing;
    CheckedExists(w.db, ws, req);
    RowsFromRoots(w, ws);
  }

  lemma NoActiveRoots(db: Db, ws: WorkspaceId)
    requires ws in db.workspaces && ActiveRoots(db, ws) == {}
    ensures RetainedFloor(db, ws) == db.workspaces[ws].current
  {}

  lemma SomeRootWithoutSnapshot(db: Db, ws: WorkspaceId, k: RootKey)
    requires ws in db.workspaces && k in ActiveRoots(db, ws) && db.roots[k].snapshotSeq.None?
    ensures RetainedFloor(db, ws) == 0
  {}

  lemma SameRowsAfter(db: Db, next: Db, ws: WorkspaceId, req: ET.Request)
    requires next.roots == db.roots && next.heads == db.heads && next.nextSeq == db.nextSeq
    ensures ET.RootsAfter(next, ws, req) == ET.RootsAfter(db, ws, req)
    ensures ET.HeadsAfter(next, ws, req) == ET.HeadsAfter(db, ws, req)
  {}

  lemma LeastSnapshot(db: Db, ws: WorkspaceId, k: RootKey)
    requires ws in db.workspaces && k in ActiveRoots(db, ws)
    requires forall l | l in ActiveRoots(db, ws) ::
               db.roots[l].snapshotSeq.Some? && db.roots[k].snapshotSeq.Some?
                   && db.roots[k].snapshotSeq.value <= db.roots[l].snapshotSeq.value
    ensures RetainedFloor(db, ws) == db.roots[k].snapshotSeq.value
  {
    assert db.roots[k].snapshotSeq.value in SnapshotSeqs(db, ws);
    LeastIsUnique(SnapshotSeqs(db, ws), db.roots[k].snapshotSeq.value);
  }
}
