/**
  What a bootstrap and a root_add make of each root of a client. A root whose target already holds something
  else is blocked: nothing of it is loaded, and its index is left alone until a later one decides anew.
*/
module RootDecisions {
  import opened Records
  import opened EventLog
  import opened Tables
  import opened ServerState
  import opened Clients
  import opened ClientProofs
  import opened ConsumeProofs
  import opened BootstrapProofs
  import opened UploadProofs
  import opened SnapshotExactness
  import opened Replication
  import opened ReplicationProofs
  import opened ReplicationInvariant
  import opened ReplicationTheorems
  import ET = EventTable
  import ST = SnapshotTable

  /** The client already follows the root as one of this kind, so its target is not looked at again. */
  predicate LiveAs(c: Client, root: RootId, kind: RootKind) {
    root in c.roots && c.roots[root].state == Active && c.roots[root].kind == kind
  }

  ghost predicate SameRows(c: Client, next: Client, root: RootId) {
    forall p: PathId ::
      ((root, p) in next.index <==> (root, p) in c.index)
      && ((root, p) in c.index ==> next.index[(root, p)] == c.index[(root, p)])
  }

  ghost predicate SameRootsBut(c: Client, next: Client, root: RootId) {
    forall r | r != root ::
      (r in next.roots <==> r in c.roots) && (r in c.roots ==> next.roots[r] == c.roots[r])
  }

  ghost function ClientAfter(s: System, action: Action, device: DeviceId): Client
    requires device in Replication.Step(s, action).clients
  {
    Replication.Step(s, action).clients[device]
  }

  /**
    What a bootstrap makes of a root. One that the server lists is live if and only if it was live with that
    kind or its target is free, and is blocked otherwise; a blocked one keeps its rows, as one without a
    snapshot does. One that the server does not list is removed with its rows, if it was there at all.
  */
  lemma BootstrapDecides(s: System, device: DeviceId, occupied: set<RootId>, staged: set<RootId>, root: RootId)
    requires device in s.clients && !IsUploading(s.clients[device])
    requires s.ws in s.world.db.workspaces && s.ws in s.world.logs
    ensures device in Replication.Step(s, Bootstrap(device, occupied, staged)).clients
    ensures var c, n := s.clients[device], ClientAfter(s, Bootstrap(device, occupied, staged), device);
            if IsActive(s.world.db, s.ws, root) then
              var row := s.world.db.roots[(s.ws, root)];
              && root in n.roots && n.roots[root].kind == row.kind
              && (n.roots[root].state == Active <==> LiveAs(c, root, row.kind) || root !in occupied)
              && (n.roots[root].state == Active || n.roots[root].state == Blocked)
              && (n.roots[root].state == Blocked || row.snapshot.None? ==> SameRows(c, n, root))
            else
              && (root in n.roots <==> root in c.roots) && NoEntries(n, root)
              && (root in n.roots ==> n.roots[root].state == Removed)
  {
    hide BootstrapAfter, Replaced;
    var c := s.clients[device];
    var after := BootstrapAfter(s.world.db, s.ws);
    ListedIffActive(s, root);
    RebuiltDecides(c, device, Listing(s), after, occupied, staged, Replaced(Log(s), Listing(s), after), root);
  }

  /**
    What it loads. The cursor is the least contribution of the roots. A live root records the base of its
    snapshot, and its rows are the snapshot's entries: each keeps its earlier seq where neither a directory
    row nor a file's hash changed and the root is not staged, and takes the base otherwise.
  */
  lemma BootstrapLoads(s: System, device: DeviceId, occupied: set<RootId>, staged: set<RootId>, root: RootId)
    requires Replication.Reachable(s) && device in s.clients && !IsUploading(s.clients[device])
    requires IsActive(s.world.db, s.ws, root) && s.ws in s.world.db.workspaces
    requires var row := s.world.db.roots[(s.ws, root)];
             row.snapshot.Some? && (LiveAs(s.clients[device], root, row.kind) || root !in occupied)
    ensures device in Replication.Step(s, Bootstrap(device, occupied, staged)).clients
    ensures var c, n := s.clients[device], ClientAfter(s, Bootstrap(device, occupied, staged), device);
            var row := s.world.db.roots[(s.ws, root)];
            && n.cursor == BootstrapAfter(s.world.db, s.ws)
            && row.snapshot.value in s.published && root in n.roots
            && Some(n.roots[root].snapshotSeq) == row.snapshotSeq
            && var entries := s.published[row.snapshot.value].snapshot.entries;
               && (forall p: PathId :: (root, p) in n.index <==> p in entries)
               && (forall p: PathId | p in entries ::
                     && n.index[(root, p)].value == entries[p]
                     && n.index[(root, p)].tag ==
                        if root !in staged && (root, p) in c.index && SameEntry(c.index[(root, p)].value, entries[p])
                        then c.index[(root, p)].tag else n.roots[root].snapshotSeq)
  {
    hide BootstrapAfter, Replaced, Replication.Reachable, SysInv, Replication.Step, Rebuilt, Listing;
    var c := s.clients[device];
    var row := s.world.db.roots[(s.ws, root)];
    ReachableSystemsAreSound(s);
    LatestIsPublished(s, root);
    ListedSnapshot(s, root);
    BootstrapStep(s, device, occupied, staged);
    RebuiltLoads(c, device, Listing(s), BootstrapAfter(s.world.db, s.ws), occupied, staged,
                 Replaced(Log(s), Listing(s), BootstrapAfter(s.world.db, s.ws)), root);
  }

  /** What a snapshot entry has in common with a row whose seq it keeps. */
  predicate SameEntry(prior: Content, value: Content) {
    || (prior.Dir? && value.Dir? && prior.mode == value.mode && prior.mtime == value.mtime)
    || (prior.File? && value.File? && prior.hash == value.hash)
  }

  lemma LatestIsPublished(s: System, root: RootId)
    requires SysInv(s) && IsActive(s.world.db, s.ws, root) && s.world.db.roots[(s.ws, root)].snapshot.Some?
    ensures s.ws in s.world.logs
    ensures var row := s.world.db.roots[(s.ws, root)];
            && row.snapshot.value in s.published
            && Some(s.published[row.snapshot.value].snapshot.base) == row.snapshotSeq
  {
    hide WorldOk, PeerOk, SnapshotOk;
    assert RowSnapshotOk(Log(s), s.published, root, RowOf(s.world, s.ws, root).value);
  }

  lemma ListedSnapshot(s: System, root: RootId)
    requires IsActive(s.world.db, s.ws, root)
    ensures root in Listing(s) && Listing(s)[root] == ListedRow(s, root)
  {
    assert (s.ws, root) in ActiveRoots(s.world.db, s.ws);
  }

  lemma BootstrapStep(s: System, device: DeviceId, occupied: set<RootId>, staged: set<RootId>)
    requires device in s.clients && !IsUploading(s.clients[device])
    requires s.ws in s.world.db.workspaces && s.ws in s.world.logs
    ensures var after := BootstrapAfter(s.world.db, s.ws);
            var next := Replication.Step(s, Bootstrap(device, occupied, staged));
            && device in next.clients
            && next.clients[device] == Rebuilt(s.clients[device], device, Listing(s), after, occupied, staged,
                                               Replaced(Log(s), Listing(s), after))
  {
    hide BootstrapAfter, Replaced, Rebuilt, Listing;
  }

  lemma RebuiltLoads(c: Client, me: DeviceId, listing: map<RootId, Listed>, after: int, occupied: set<RootId>,
                     staged: set<RootId>, replaced: set<RootId>, root: RootId)
    requires root in listing && listing[root].snapshot.Some?
    requires LiveAs(c, root, listing[root].kind) || root !in occupied
    ensures var n := Rebuilt(c, me, listing, after, occupied, staged, replaced);
            var snap := listing[root].snapshot.value;
            && n.cursor == after && root in n.roots && n.roots[root].snapshotSeq == snap.base
            && (forall p: PathId :: (root, p) in n.index <==> p in snap.entries)
            && (forall p: PathId | p in snap.entries ::
                  && n.index[(root, p)].value == snap.entries[p]
                  && n.index[(root, p)].tag ==
                     if root !in staged && (root, p) in c.index && SameEntry(c.index[(root, p)].value, snap.entries[p])
                     then c.index[(root, p)].tag else snap.base)
  {
    forall p: PathId ensures (root, p) in SnapshotKeys(listing) <==> p in listing[root].snapshot.value.entries {}
  }

  lemma ListedIffActive(s: System, root: RootId)
    ensures root in Listing(s) <==> IsActive(s.world.db, s.ws, root)
    ensures IsActive(s.world.db, s.ws, root) ==>
              var row := s.world.db.roots[(s.ws, root)];
              Listing(s)[root].kind == row.kind && (row.snapshot.None? ==> Listing(s)[root].snapshot.None?)
  {
    assert IsActive(s.world.db, s.ws, root) <==> (s.ws, root) in ActiveRoots(s.world.db, s.ws);
  }

  lemma RebuiltDecides(c: Client, me: DeviceId, listing: map<RootId, Listed>, after: int, occupied: set<RootId>,
                       staged: set<RootId>, replaced: set<RootId>, root: RootId)
    ensures var n := Rebuilt(c, me, listing, after, occupied, staged, replaced);
            if root in listing then
              var kind := listing[root].kind;
              && root in n.roots && n.roots[root].kind == kind
              && (n.roots[root].state == Active <==> LiveAs(c, root, kind) || root !in occupied)
              && (n.roots[root].state == Active || n.roots[root].state == Blocked)
              && (n.roots[root].state == Blocked || listing[root].snapshot.None? ==> SameRows(c, n, root))
            else
              && (root in n.roots <==> root in c.roots) && NoEntries(n, root)
              && (root in n.roots ==> n.roots[root].state == Removed)
  {
    hide SnapshotEntry;
  }

  /**
    What catch-up makes of a root_add. An own one whose root is live already is passed over. Any other decides
    as a bootstrap does: live if and only if it was live with that kind or the target is free. No row changes.
  */
  lemma RootAddDecides(s: System, device: DeviceId, e: Event, occupied: bool)
    requires device in s.clients && !IsUploading(s.clients[device]) && Delivers(s, s.clients[device], e)
    requires e.kind.RootAdd?
    ensures device in Replication.Step(s, Consume(device, e, occupied)).clients
    ensures var c, n := s.clients[device], ClientAfter(s, Consume(device, e, occupied), device);
            var kind := if e.payload.Descriptor? then e.payload.kind else DirRoot;
            && n.index == c.index && n.cursor == e.seqno
            && if e.author == device && e.root in c.roots && c.roots[e.root].state == Active then n.roots == c.roots
               else
                 && e.root in n.roots && n.roots[e.root].kind == kind
                 && (n.roots[e.root].state == Active <==> LiveAs(c, e.root, kind) || !occupied)
                 && (n.roots[e.root].state == Active || n.roots[e.root].state == Blocked)
                 && SameRootsBut(c, n, e.root)
  {
    hide Consumed, Replication.Step;
    ConsumeStep(s, device, e, occupied);
    ConsumedRootAdd(s.clients[device], device, e, occupied);
  }

  /** What the machine's step leaves of the client's cursor, roots and rows. */
  lemma ConsumeStep(s: System, device: DeviceId, e: Event, occupied: bool)
    requires device in s.clients && !IsUploading(s.clients[device]) && Delivers(s, s.clients[device], e)
    ensures device in Replication.Step(s, Consume(device, e, occupied)).clients
    ensures var n, next := ClientAfter(s, Consume(device, e, occupied), device),
                Consumed(s.clients[device], device, e, occupied);
            n.cursor == next.cursor && n.roots == next.roots && n.index == next.index
    ensures s.clients[device].cursor < e.seqno
  {
    hide IsNext, Consumed;
  }

  lemma ConsumedRootAdd(c: Client, me: DeviceId, e: Event, occupied: bool)
    requires e.kind.RootAdd? && c.cursor < e.seqno
    ensures var n := Consumed(c, me, e, occupied);
            var kind := if e.payload.Descriptor? then e.payload.kind else DirRoot;
            && n.index == c.index && n.cursor == e.seqno
            && if e.author == me && e.root in c.roots && c.roots[e.root].state == Active then n.roots == c.roots
               else
                 && e.root in n.roots && n.roots[e.root].kind == kind
                 && (n.roots[e.root].state == Active <==> LiveAs(c, e.root, kind) || !occupied)
                 && (n.roots[e.root].state == Active || n.roots[e.root].state == Blocked)
                 && SameRootsBut(c, n, e.root)
  {}

  /** Only these let a client's blocked root in again. */
  ghost predicate DecidesAnew(action: Action, device: DeviceId, root: RootId) {
    || (action.Bootstrap? && action.device == device)
    || (action.Consume? && action.device == device && action.e.root == root && action.e.kind.RootAdd?)
    || (action.AddStart? && action.device == device && action.root == root)
  }

  /** The root is still blocked with the rows it had, or it was removed with them. */
  ghost predicate Shut(was: Client, c: Client, root: RootId) {
    && root in c.roots
    && match c.roots[root].state
       case Blocked => SameRows(was, c, root)
       case Removed => NoEntries(c, root)
       case Active => false
  }

  ghost predicate StaysShut(was: Client, next: System, device: DeviceId, root: RootId) {
    device in next.clients && Shut(was, next.clients[device], root)
  }

  lemma SameRootStaysShut(was: Client, c: Client, next: Client, root: RootId)
    requires Shut(was, c, root) && root in next.roots && next.roots[root] == c.roots[root] && SameRows(c, next, root)
    ensures Shut(was, next, root)
  {}

  lemma OtherEventLeaves(c: Client, e: Event, blocked: bool, root: RootId)
    requires root in c.roots && (e.root != root || (IsContent(e) && !IsLive(c, root)))
    ensures root in Applied(c, e, blocked).roots && Applied(c, e, blocked).roots[root] == c.roots[root]
    ensures SameRows(c, Applied(c, e, blocked), root)
  {}

  lemma RemovalShuts(c: Client, root: RootId)
    requires root in c.roots
    ensures root in MarkedRemoved(c, root).roots && MarkedRemoved(c, root).roots[root].state == Removed
    ensures NoEntries(MarkedRemoved(c, root), root)
  {}

  lemma RemovalLeavesOthers(c: Client, removed: RootId, root: RootId)
    requires root in c.roots && removed != root
    ensures root in MarkedRemoved(c, removed).roots && MarkedRemoved(c, removed).roots[root] == c.roots[root]
    ensures SameRows(c, MarkedRemoved(c, removed), root)
  {}

  lemma ConsumeStaysShut(s: System, was: Client, d: DeviceId, e: Event, blocked: bool, device: DeviceId, root: RootId)
    requires StaysShut(was, s, device, root) && d in s.clients && SysInv(s)
    requires d == device ==> !(e.root == root && e.kind.RootAdd?)
    ensures StaysShut(was, AfterConsume(s, d, e, blocked), device, root)
  {
    hide Applied, Materialized, SysInv, IsNext, SameRows, NoEntries, MarkedRemoved;
    var c := s.clients[d];
    if d == device && !IsUploading(c) && Delivers(s, c, e) {
      EventIsKnown(s, e);
      var applied := Applied(c, e, blocked);
      if e.root == root && e.kind.RootRemove? {
        AppliedRemoval(c, e, blocked);
        RemovalShuts(c, root);
      } else {
        OtherEventLeaves(c, e, blocked, root);
        SameRootStaysShut(was, c, applied, root);
      }
      var n := AfterConsume(s, d, e, blocked).clients[d];
      assert (n.roots == c.roots && n.index == c.index) || (n.roots == applied.roots && n.index == applied.index);
      SameStateStaysShut(was, c, n, root);
      SameStateStaysShut(was, applied, n, root);
    }
  }

  lemma AppliedRemoval(c: Client, e: Event, blocked: bool)
    requires e.kind.RootRemove?
    ensures Applied(c, e, blocked) == MarkedRemoved(c, e.root)
  {}

  lemma SameStateStaysShut(was: Client, c: Client, next: Client, root: RootId)
    ensures Shut(was, c, root) && next.roots == c.roots && next.index == c.index ==> Shut(was, next, root)
  {}

  lemma EventIsKnown(s: System, e: Event)
    requires SysInv(s) && e in Log(s)
    ensures IsContent(e) || IsLifecycle(e)
  {
    hide SnapshotsOk, PeerOk, WorldOk, Incarnation;
    ReadWorld(s);
    var i :| 0 <= i < |Log(s)| && Log(s)[i] == e;
  }

  lemma SubmitStaysShut(s: System, was: Client, d: DeviceId, r: RootId, path: PathId, value: Content,
                        bound: Option<int>, refs: seq<ObjectId>, at: Time, heard: bool, device: DeviceId, root: RootId)
    requires StaysShut(was, s, device, root) && d in s.clients && SysInv(s)
    ensures StaysShut(was, AfterContent(s, d, r, path, value, bound, refs, at, heard), device, root)
  {
    hide WorldOk, SnapshotsOk, PeerOk, Accepts, AfterSubmit, AfterConflict, ContentRequest, SameRows, NoEntries;
    var c := s.clients[d];
    var req := ContentRequest(r, path, value, IndexTag(c, r, path), bound, refs);
    if d == device && IsLive(c, r) && c.adding.None? {
      if Accepts(s, req) {
        var n := WithEntry(c, r, path, Entry(value, s.world.db.nextSeq));
        EntryLeavesOthers(c, r, path, Entry(value, s.world.db.nextSeq), root);
        SameRootStaysShut(was, c, n, root);
      } else {
        RefusedIsRefused(s, req);
        ConflictLeavesOthers(s, c, req, root);
        var refusal := ET.Check(s.world.db, s.ws, req).value;
        assert req.root == r by { RequestRoot(r, path, value, IndexTag(c, r, path), bound, refs); }
        SameRootStaysShut(was, c, AfterConflict(s, c, refusal), root);
      }
    }
  }

  lemma RequestRoot(r: RootId, path: PathId, value: Content, base: int, bound: Option<int>, refs: seq<ObjectId>)
    ensures ContentRequest(r, path, value, base, bound, refs).root == r
  {}

  lemma EntryLeavesOthers(c: Client, r: RootId, path: PathId, entry: Entry, root: RootId)
    requires r != root
    ensures WithEntry(c, r, path, entry).roots == c.roots && SameRows(c, WithEntry(c, r, path, entry), root)
  {}

  lemma ConflictLeavesOthers(s: System, c: Client, req: ET.Request, root: RootId)
    requires s.ws in s.world.logs && WorldOk(s) && ET.Check(s.world.db, s.ws, req).Some?
    requires root in c.roots && !IsLive(c, root)
    ensures var n := AfterConflict(s, c, ET.Check(s.world.db, s.ws, req).value);
            root in n.roots && n.roots[root] == c.roots[root] && SameRows(c, n, root)
  {
    hide WorldOk, ET.Check, Head, Applied;
    var refusal := ET.Check(s.world.db, s.ws, req).value;
    if refusal.PathHeadMismatch? && Fetchable(s, refusal.current) {
      ConflictingHead(s, req);
      HeadIsInLog(Log(s), req.root, req.path);
      OtherEventLeaves(c, s.world.db.events[refusal.current], false, root);
    }
  }

  lemma TouchStaysShut(s: System, was: Client, d: DeviceId, r: RootId, path: PathId, mtime: int, device: DeviceId,
                       root: RootId)
    requires StaysShut(was, s, device, root) && d in s.clients
    ensures StaysShut(was, AfterTouch(s, d, r, path, mtime), device, root)
  {
    var c := s.clients[d];
    var n := AfterTouch(s, d, r, path, mtime).clients[d];
    if d == device { SameRootStaysShut(was, c, n, root); }
  }

  lemma StartStaysShut(s: System, was: Client, d: DeviceId, r: RootId, kind: RootKind, home: string, at: Time,
                       device: DeviceId, root: RootId)
    requires StaysShut(was, s, device, root) && d in s.clients && !(d == device && r == root)
    ensures StaysShut(was, AfterStart(s, d, r, kind, home, at), device, root)
  {
    hide Accepts, AfterSubmit, AddRequest;
  }

  lemma EntryStaysShut(s: System, was: Client, d: DeviceId, path: PathId, value: Content, refs: seq<ObjectId>,
                       at: Time, heard: bool, device: DeviceId, root: RootId)
    requires StaysShut(was, s, device, root) && d in s.clients
    ensures StaysShut(was, AfterEntry(s, d, path, value, refs, at, heard), device, root)
  {
    hide Accepts, AfterSubmit, ContentRequest;
  }

  lemma UploadEndStaysShut(s: System, was: Client, d: DeviceId, complete: bool, device: DeviceId, root: RootId)
    requires StaysShut(was, s, device, root) && d in s.clients && SysInv(s)
    ensures StaysShut(was, AfterUploadEnd(s, d, complete), device, root)
  {
    hide UploadedIndex, WorldOk, SnapshotsOk, ClientOk, Unpublished, OwnAdd, UploadedOk;
    var c := s.clients[d];
    if d == device && IsUploading(c) {
      assert PeerOk(s, d, c);
      var a := c.adding.value;
      assert IsLive(c, a.root);
      var n := AfterUploadEnd(s, d, complete).clients[d];
      forall p: PathId
        ensures ((root, p) in n.index <==> (root, p) in c.index)
                && ((root, p) in c.index ==> n.index[(root, p)] == c.index[(root, p)])
      {
        OtherRowsStay(c.index, a.root, a.entries, (root, p));
      }
      SameRootStaysShut(was, c, n, root);
    }
  }

  lemma PublishStaysShut(s: System, was: Client, d: DeviceId, obj: ObjectId, refs: seq<ObjectId>, at: Time,
                         device: DeviceId, root: RootId)
    requires StaysShut(was, s, device, root) && d in s.clients
    ensures StaysShut(was, AfterPublish(s, d, obj, refs, at), device, root)
  {
    hide Eligible, AfterSave, ST.Check;
    if s.clients[d].adding.Some? && Eligible(s.clients[d], s.clients[d].adding.value) {
      ReadEligible(s.clients[d], s.clients[d].adding.value);
    }
  }

  lemma RemovalStaysShut(s: System, was: Client, d: DeviceId, r: RootId, device: DeviceId, root: RootId)
    requires StaysShut(was, s, device, root) && d in s.clients
    ensures StaysShut(was, WithClient(s, d, MarkedRemoved(s.clients[d], r)), device, root)
  {
    hide MarkedRemoved, SameRows, NoEntries;
    var c := s.clients[d];
    if d == device {
      if r == root {
        RemovalShuts(c, root);
      } else {
        RemovalLeavesOthers(c, r, root);
        SameRootStaysShut(was, c, MarkedRemoved(c, r), root);
      }
    }
  }

  lemma StepStaysShut(s: System, was: Client, action: Action, device: DeviceId, root: RootId)
    requires SysInv(s) && StaysShut(was, s, device, root) && !DecidesAnew(action, device, root)
    ensures StaysShut(was, Replication.Step(s, action), device, root)
  {
    hide SysInv, AfterContent, AfterTouch, AfterConsume, AfterBootstrap, AfterStart, AfterEntry, AfterUploadEnd;
    hide AfterPublish, Submitted, MarkedRemoved, ServerState.Next, SameRows, NoEntries;
    match action
    case Foreign(step) =>
    case RemoveRemote(d, r, bound, at) => SubmittedTracks(s, d, RemoveRequest(r, bound), at);
    case RemoveLocal(d, r) => if d in s.clients { RemovalStaysShut(s, was, d, r, device, root); }
    case Submit(d, r, path, value, bound, refs, at, heard) =>
      if d in s.clients { SubmitStaysShut(s, was, d, r, path, value, bound, refs, at, heard, device, root); }
    case Touch(d, r, path, mtime) => if d in s.clients { TouchStaysShut(s, was, d, r, path, mtime, device, root); }
    case Consume(d, e, blocked) => if d in s.clients { ConsumeStaysShut(s, was, d, e, blocked, device, root); }
    case Bootstrap(d, occupied, staged) =>
      if d in s.clients { BootstrapTouchesItsClient(s, d, occupied, staged, device); }
    case AddStart(d, r, kind, home, at) =>
      if d in s.clients { StartStaysShut(s, was, d, r, kind, home, at, device, root); }
    case UploadNext(d, path, value, refs, at, heard) =>
      if d in s.clients { EntryStaysShut(s, was, d, path, value, refs, at, heard, device, root); }
    case UploadEnd(d, complete) => if d in s.clients { UploadEndStaysShut(s, was, d, complete, device, root); }
    case Publish(d, obj, refs, at) => if d in s.clients { PublishStaysShut(s, was, d, obj, refs, at, device, root); }
    case AddEnd(d) =>
      if d in s.clients { SameStateStaysShut(was, s.clients[d], s.clients[d].(adding := None), root); }
  }

  lemma BootstrapTouchesItsClient(s: System, d: DeviceId, occupied: set<RootId>, staged: set<RootId>, device: DeviceId)
    requires d in s.clients && device in s.clients && d != device
    ensures var next := AfterBootstrap(s, d, occupied, staged);
            device in next.clients && next.clients[device] == s.clients[device]
  {
    hide Rebuilt, Listing, BootstrapAfter, Replaced;
  }

  /**
    Over every run, whatever the other clients and the server do: until a bootstrap, a root_add for the root or
    adding it locally decides anew, no event and no rescan changes a row of a blocked root. It stays blocked
    with the rows it had, or is removed and has none.
  */
  lemma {:induction false} BlockedRootIsLeftAlone(s: System, actions: seq<Action>, device: DeviceId, root: RootId)
    requires Replication.Reachable(s) && device in s.clients
    requires root in s.clients[device].roots && s.clients[device].roots[root].state == Blocked
    requires forall a | a in actions :: !DecidesAnew(a, device, root)
    ensures StaysShut(s.clients[device], Replication.Run(s, actions), device, root)
    decreases |actions|
  {
    hide Replication.Reachable, SysInv, Replication.Step, DecidesAnew;
    if actions == [] {
    } else {
      var n := |actions| - 1;
      assert actions[n] in actions;
      BlockedRootIsLeftAlone(s, actions[..n], device, root);
      ReachableSystemsAreSound(s);
      RunKeepsSys(s, actions[..n]);
      StepStaysShut(Replication.Run(s, actions[..n]), s.clients[device], actions[n], device, root);
    }
  }
}
