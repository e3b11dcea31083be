/**
  The retained floor and the bootstrap cursor: what each is bounded by, and how the operations that
  touch roots and snapshots move them.
*/
module HorizonProofs {
  import opened Records
  import opened EventLog
  import opened Tables
  import opened ServerState
  import ET = EventTable
  import ST = SnapshotTable

  /** x is a lower bound of everything the bootstrap cursor is the minimum of. */
  ghost predicate Bounded(db: Db, ws: WorkspaceId, x: int)
    requires ws in db.workspaces
  {
    && (ActiveRoots(db, ws) == {} ==> x <= db.workspaces[ws].current)
    && (forall k | k in ActiveRoots(db, ws) :: x <= Contribution(db.roots[k]))
  }

  lemma BoundedBelow(db: Db, ws: WorkspaceId, x: int)
    requires ws in db.workspaces
    ensures Bounded(db, ws, x) <==> x <= BootstrapAfter(db, ws)
  {
    if ActiveRoots(db, ws) != {} {
      var k := Pick(ActiveRoots(db, ws));
      var cs := Contributions(db, ws);
      assert Contribution(db.roots[k]) in cs;
      var least := Least(cs);
      assert BootstrapAfter(db, ws) == least;
      assert forall r | r in ActiveRoots(db, ws) :: Contribution(db.roots[r]) in cs;
    }
  }

  /** Rows and head of one moment give that moment's cursor; with rows at all, the head does not matter. */
  lemma CursorFromRows(db: Db, ws: WorkspaceId, current: int)
    requires ws in db.workspaces
    ensures ActiveRoots(db, ws) == {} <==> ActiveRows(db, ws) == map[]
    ensures CursorFrom(ActiveRows(db, ws), current) ==
            if ActiveRoots(db, ws) == {} then current else BootstrapAfter(db, ws)
  {
    var rows := ActiveRows(db, ws);
    assert rows.Keys == ActiveRoots(db, ws);
    assert RowContributions(rows) == Contributions(db, ws);
  }

  /** Two databases that agree on a workspace's active roots and head agree on its floor and cursor. */
  lemma SameRootsSameFloor(db: Db, next: Db, ws: WorkspaceId)
    requires ws in db.workspaces && ws in next.workspaces
    requires ActiveRoots(next, ws) == ActiveRoots(db, ws)
    requires forall k | k in ActiveRoots(db, ws) :: next.roots[k] == db.roots[k]
    requires ActiveRoots(db, ws) == {} ==> next.workspaces[ws].current == db.workspaces[ws].current
    ensures RetainedFloor(next, ws) == RetainedFloor(db, ws)
    ensures BootstrapAfter(next, ws) == BootstrapAfter(db, ws)
  {
    assert SnapshotSeqs(next, ws) == SnapshotSeqs(db, ws);
    assert Contributions(next, ws) == Contributions(db, ws);
    if ActiveRoots(db, ws) != {} {
      var k := Pick(ActiveRoots(db, ws));
      assert Contribution(db.roots[k]) in Contributions(db, ws);
    }
  }

  /** The floor never runs ahead of the cursor a bootstrap hands out. */
  lemma FloorBelowCursor(db: Db, ws: WorkspaceId)
    requires ws in db.workspaces
    requires forall k | k in ActiveRoots(db, ws) :: 1 <= db.roots[k].created
    requires forall k | k in ActiveRoots(db, ws) && db.roots[k].snapshotSeq.Some? :: 1 <= db.roots[k].snapshotSeq.value
    ensures RetainedFloor(db, ws) <= BootstrapAfter(db, ws)
  {
    var active := ActiveRoots(db, ws);
    if active == {} {
    } else if exists k | k in active :: db.roots[k].snapshotSeq.None? {
      assert Bounded(db, ws, 0);
      BoundedBelow(db, ws, 0);
    } else {
      var k := Pick(active);
      assert db.roots[k].snapshotSeq.value in SnapshotSeqs(db, ws);
      var x := Least(SnapshotSeqs(db, ws));
      assert RetainedFloor(db, ws) == x;
      forall r | r in active ensures x <= Contribution(db.roots[r]) {
        assert db.roots[r].snapshotSeq.value in SnapshotSeqs(db, ws);
      }
      BoundedBelow(db, ws, x);
    }
  }

  /** Roots of one workspace never influence another. */
  lemma OtherWorkspace(db: Db, next: Db, ws: WorkspaceId)
    requires ws in db.workspaces && ws in next.workspaces
    requires forall k: RootKey | k.0 == ws ::
             (k in next.roots <==> k in db.roots) && (k in db.roots ==> next.roots[k] == db.roots[k])
    ensures ActiveRoots(next, ws) == ActiveRoots(db, ws)
    ensures forall k | k in ActiveRoots(db, ws) :: next.roots[k] == db.roots[k]
  {}

  /** What the roots table promises about the roots of one workspace. */
  ghost predicate RootRowsOk(db: Db, ws: WorkspaceId)
    requires ws in db.workspaces
  {
    forall k | k in db.roots && k.0 == ws ::
      var row := db.roots[k];
      && 1 <= row.created <= db.workspaces[ws].current
      && (row.removed.Some? ==> row.snapshotSeq.None?)
      && (row.snapshotSeq.Some? ==> row.created <= row.snapshotSeq.value <= db.workspaces[ws].current)
  }

  lemma RowsFromRoots(w: World, ws: WorkspaceId)
    requires LogsOk(w) && RootsOk(w) && ws in w.logs
    ensures RootRowsOk(w.db, ws)
  {
    hide LogOk, Incarnation;
    forall k | k in w.db.roots && k.0 == ws
      ensures 1 <= w.db.roots[k].created <= w.db.workspaces[ws].current
      ensures w.db.roots[k].removed.Some? ==> w.db.roots[k].snapshotSeq.None?
      ensures w.db.roots[k].snapshotSeq.Some? ==>
              w.db.roots[k].created <= w.db.roots[k].snapshotSeq.value <= w.db.workspaces[ws].current
    {
      assert RootOk(w, ws, k.1);
    }
  }

  /** A submission never lowers the cursor: a root it adds starts above everything accepted so far. */
  lemma SubmitRaisesCursor(db: Db, next: Db, ws: WorkspaceId, req: ET.Request)
    requires ws in db.workspaces && ws in next.workspaces
    requires ET.Check(db, ws, req).None?
    requires RootRowsOk(db, ws)
    requires db.workspaces[ws].current < db.nextSeq == next.workspaces[ws].current
    requires next.roots == ET.RootsAfter(db, ws, req)
    ensures BootstrapAfter(db, ws) <= BootstrapAfter(next, ws)
  {
    hide ET.FirstMissing, BootstrapAfter;
    var x := BootstrapAfter(db, ws);
    BoundedBelow(db, ws, x);
    assert x <= db.workspaces[ws].current by {
      if ActiveRoots(db, ws) != {} {
        var k := Pick(ActiveRoots(db, ws));
        assert x <= Contribution(db.roots[k]);
      }
    }
    forall k | k in ActiveRoots(next, ws) ensures x <= Contribution(next.roots[k]) {
      if k != (ws, req.root) {
        assert k in ActiveRoots(db, ws);
      } else if !req.kind.RootAdd? {
        assert k in ActiveRoots(db, ws);
      }
    }
    BoundedBelow(next, ws, x);
  }

  /** A content event leaves floor and cursor alone: it needs an active root, and roots do not change. */
  lemma ContentKeepsFloor(db: Db, next: Db, ws: WorkspaceId, req: ET.Request)
    requires ws in db.workspaces && ws in next.workspaces
    requires ET.Check(db, ws, req).None? && !req.kind.RootAdd? && !req.kind.RootRemove?
    requires next.roots == db.roots
    ensures RetainedFloor(next, ws) == RetainedFloor(db, ws)
  {
    hide ET.FirstMissing, RetainedFloor, BootstrapAfter;
    assert (ws, req.root) in ActiveRoots(db, ws);
    assert ActiveRoots(next, ws) == ActiveRoots(db, ws);
    SameRootsSameFloor(db, next, ws);
  }

  /** An accepted snapshot moves its root's contribution forward, so the cursor with it. */
  lemma SaveRaisesCursor(db: Db, next: Db, ws: WorkspaceId, req: ST.Request)
    requires ws in db.workspaces && ws in next.workspaces
    requires ST.Check(db, ws, req).None?
    requires next.workspaces[ws].current == db.workspaces[ws].current
    requires next.roots == db.roots[(ws, req.root) := db.roots[(ws, req.root)].(snapshot := Some(req.obj),
             snapshotSeq := Some(req.base))]
    ensures BootstrapAfter(db, ws) <= BootstrapAfter(next, ws)
  {
    hide ET.FirstMissing, BootstrapAfter;
    var x := BootstrapAfter(db, ws);
    BoundedBelow(db, ws, x);
    assert (ws, req.root) in ActiveRoots(db, ws);
    forall k | k in ActiveRoots(next, ws) ensures x <= Contribution(next.roots[k]) {
      assert k in ActiveRoots(db, ws);
    }
    assert (ws, req.root) in ActiveRoots(next, ws);
    BoundedBelow(next, ws, x);
  }
}
