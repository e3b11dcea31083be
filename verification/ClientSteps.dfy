/** What one delivered event and one refused submission change in a client, field by field. */
module ClientSteps {
  import opened Records
  import opened EventLog
  import opened Tables
  import opened ServerState
  import opened Clients
  import opened ClientProofs
  import opened ConsumeProofs
  import opened Replication
  import opened ReplicationProofs
  import opened RootDecisions
  import opened SnapshotExactness
  import opened AcceptanceTheorems
  import opened RetentionTheorems
  import opened FetchGaps
  import ET = EventTable

  /** Whether the client's state already covers an own content event: a loaded snapshot or a row not older than it. */
  predicate Covered(c: Client, e: Event) {
    || (e.root in c.roots && c.roots[e.root].snapshotSeq >= e.seqno)
    || (e.path.Some? && (e.root, e.path.value) in c.index && c.index[(e.root, e.path.value)].tag >= e.seqno)
  }

  /**
    A delivered content event of a live root becomes the row of its path unless the client wrote it and already
    covers it: reapplying an own event could set a newer local edit back. No other row and no root changes.
  */
  lemma ContentDecides(s: System, device: DeviceId, e: Event, occupied: bool)
    requires device in s.clients && !IsUploading(s.clients[device]) && Delivers(s, s.clients[device], e)
    requires IsContent(e) && e.path.Some?
    ensures device in Replication.Step(s, Consume(device, e, occupied)).clients
    ensures var c, n := s.clients[device], ClientAfter(s, Consume(device, e, occupied), device);
            var key := (e.root, e.path.value);
            && n.cursor == e.seqno && n.roots == c.roots
            && (forall k | k != key :: (k in n.index <==> k in c.index) && (k in c.index ==> n.index[k] == c.index[k]))
            && if e.root in c.roots && c.roots[e.root].state == Active && !(e.author == device && Covered(c, e)) then
                 && key in n.index && n.index[key].tag == e.seqno
                 && n.index[key].value == if e.kind.Delete? || e.payload.Descriptor? then Gone else e.payload.content
               else (key in n.index <==> key in c.index) && (key in c.index ==> n.index[key] == c.index[key])
  {
    hide Consumed, Replication.Step;
    ConsumeStep(s, device, e, occupied);
    ConsumedContent(s.clients[device], device, e, occupied);
  }

  lemma ConsumedContent(c: Client, me: DeviceId, e: Event, occupied: bool)
    requires IsContent(e) && e.path.Some? && c.cursor < e.seqno
    ensures var n, key := Consumed(c, me, e, occupied), (e.root, e.path.value);
            && n.cursor == e.seqno && n.roots == c.roots
            && (forall k | k != key :: (k in n.index <==> k in c.index) && (k in c.index ==> n.index[k] == c.index[k]))
            && if e.root in c.roots && c.roots[e.root].state == Active && !(e.author == me && Covered(c, e)) then
                 && key in n.index && n.index[key].tag == e.seqno
                 && n.index[key].value == if e.kind.Delete? || e.payload.Descriptor? then Gone else e.payload.content
               else (key in n.index <==> key in c.index) && (key in c.index ==> n.index[key] == c.index[key])
  {}

  /** After a delivered root_remove the root is unknown or removed, without rows unless it was removed before. */
  lemma RemovalDecides(s: System, device: DeviceId, e: Event, occupied: bool)
    requires device in s.clients && !IsUploading(s.clients[device]) && Delivers(s, s.clients[device], e)
    requires e.kind.RootRemove?
    ensures device in Replication.Step(s, Consume(device, e, occupied)).clients
    ensures var c, n := s.clients[device], ClientAfter(s, Consume(device, e, occupied), device);
            && n.cursor == e.seqno
            && (e.root in n.roots <==> e.root in c.roots)
            && (e.root in n.roots ==> n.roots[e.root].state == Removed)
            && (e.root in c.roots && c.roots[e.root].state != Removed ==> NoEntries(n, e.root))
            && SameRootsBut(c, n, e.root)
            && (forall k: IndexKey | k.0 != e.root ::
                  (k in n.index <==> k in c.index) && (k in c.index ==> n.index[k] == c.index[k]))
  {
    hide Consumed, Replication.Step;
    ConsumeStep(s, device, e, occupied);
    ConsumedRemoval(s.clients[device], device, e, occupied);
  }

  lemma ConsumedRemoval(c: Client, me: DeviceId, e: Event, occupied: bool)
    requires e.kind.RootRemove? && c.cursor < e.seqno
    ensures var n := Consumed(c, me, e, occupied);
            && n.cursor == e.seqno
            && (e.root in n.roots <==> e.root in c.roots)
            && (e.root in n.roots ==> n.roots[e.root].state == Removed)
            && (e.root in c.roots && c.roots[e.root].state != Removed ==> NoEntries(n, e.root))
            && SameRootsBut(c, n, e.root)
            && (forall k: IndexKey | k.0 != e.root ::
                  (k in n.index <==> k in c.index) && (k in c.index ==> n.index[k] == c.index[k]))
  {
  }

  /**
    What a rescan's submission does. From a root that is not live, or while another root is being added, nothing
    is sent. An accepted one puts the value at the end of the log, with the row's seq as base, and if the answer
    arrives into the row, with the new seq; a refused one leaves the server alone.
  */
  lemma SubmissionDecides(s: System, device: DeviceId, root: RootId, path: PathId, value: Content, bound: Option<int>,
                          refs: seq<ObjectId>, at: Time, heard: bool)
    requires SysInv(s) && device in s.clients
    ensures var c := s.clients[device];
            var next := Replication.Step(s, Submit(device, root, path, value, bound, refs, at, heard));
            var base := if (root, path) in c.index then c.index[(root, path)].tag else 0;
            && device in next.clients && next.ws == s.ws && s.ws in s.world.logs
            && if !(root in c.roots && c.roots[root].state == Active) || c.adding.Some? then next == s
               else if Accepts(s, RequestFor(c, root, path, value, bound, refs)) then
                 && s.ws in next.world.logs && |Log(next)| == |Log(s)| + 1 && Log(next)[..|Log(s)|] == Log(s)
                 && Sends(Log(next)[|Log(s)|], device, root, path, value, base)
                 && next.clients[device] ==
                    if heard then c.(index := c.index[(root, path) := Entry(value, Log(next)[|Log(s)|].seqno)]) else c
               else next.world == s.world && (!heard ==> next == s)
  {
    hide WorldOk, SnapshotsOk, PeerOk, ET.Check, AfterSubmit, AfterConflict, ContentRequest, ET.NewEvent, ET.RootsAfter;
    var c := s.clients[device];
    var req := RequestFor(c, root, path, value, bound, refs);
    if IsLive(c, root) && c.adding.None? && Accepts(s, req) {
      var next := Submitted(s, device, req, at);
      SubmittedGrows(s, device, req, at);
      NewEventSends(s.world.db, s.ws, device, root, path, value, IndexTag(c, root, path), bound, refs, at);
      PathIsNamed(s.world.db, s.ws, root, path, value, IndexTag(c, root, path), bound, refs);
    }
  }

  /** The event says what was found where, by whom, and over which base. */
  predicate Sends(e: Event, device: DeviceId, root: RootId, path: PathId, value: Content, base: int) {
    && e.author == device && e.root == root && e.path == Some(path) && e.base == Some(base)
    && e.payload == Body(value)
    && match value
       case Gone => e.kind == Delete
       case Dir(_, _) => e.kind == DirPut
       case File(_, _, _, _) => e.kind == FilePut
  }

  lemma NewEventSends(db: Db, ws: WorkspaceId, device: DeviceId, root: RootId, path: PathId, value: Content, base: int,
                      bound: Option<int>, refs: seq<ObjectId>, at: Time)
    ensures var e := ET.NewEvent(db, ws, device, ContentRequest(root, path, value, base, bound, refs), at);
            e.seqno == db.nextSeq && (path.text != "" ==> Sends(e, device, root, path, value, base))
  {}

  lemma PathIsNamed(db: Db, ws: WorkspaceId, root: RootId, path: PathId, value: Content, base: int, bound: Option<int>,
                    refs: seq<ObjectId>)
    requires ET.Check(db, ws, ContentRequest(root, path, value, base, bound, refs)).None?
    ensures path.text != ""
  {
    hide ET.FirstMissing;
  }

  /**
    What an upload's next item does: an accepted one is appended to the log with base 0, and to the collected
    entries if the answer arrives; rows and roots of the client stay as they are until the upload ends.
  */
  lemma UploadDecides(s: System, device: DeviceId, path: PathId, value: Content, refs: seq<ObjectId>, at: Time,
                      heard: bool)
    requires SysInv(s) && device in s.clients && IsUploading(s.clients[device]) && !value.Gone?
    ensures var c := s.clients[device];
            var a := c.adding.value;
            var next := Replication.Step(s, UploadNext(device, path, value, refs, at, heard));
            && device in next.clients && next.ws == s.ws && s.ws in s.world.logs
            && if Accepts(s, ContentRequest(a.root, path, value, 0, Some(a.created), refs)) then
                 && s.ws in next.world.logs && |Log(next)| == |Log(s)| + 1 && Log(next)[..|Log(s)|] == Log(s)
                 && Sends(Log(next)[|Log(s)|], device, a.root, path, value, 0)
                 && next.clients[device] ==
                    if heard
                    then c.(adding := Some(a.(entries := a.entries
                        + [Uploaded(path, value, Log(next)[|Log(s)|].seqno)])))
                    else c
               else next == s
  {
    hide WorldOk, SnapshotsOk, PeerOk, ET.Check, AfterSubmit, ContentRequest, ET.NewEvent, ET.RootsAfter;
    var a := s.clients[device].adding.value;
    var req := ContentRequest(a.root, path, value, 0, Some(a.created), refs);
    if Accepts(s, req) {
      SubmittedGrows(s, device, req, at);
      NewEventSends(s.world.db, s.ws, device, a.root, path, value, 0, Some(a.created), refs, at);
      PathIsNamed(s.world.db, s.ws, a.root, path, value, 0, Some(a.created), refs);
    }
  }

  /** The head is looked for in the page from just below its seq, of 8 events in the source. */
  lemma FetchableIff(s: System, seqno: int, limit: nat)
    requires SysInv(s) && 0 < limit && 0 < seqno
    ensures var page := ET.Fetch(s.world.db, s.ws, seqno - 1, limit);
            Fetchable(s, seqno) <==> page.Page? && exists e :: e in page.events && e.seqno == seqno
  {
    hide SnapshotsOk, PeerOk, NamesOk, CountsOk, RootsOk, HeadsOk, FloorsOk, HorizonOk, LogOk, AllOptimistic, Least;
    var db := s.world.db;
    if s.ws in db.workspaces && db.workspaces[s.ws].floor < seqno {
      var seqs := ET.Stored(db, s.ws, seqno - 1);
      if Fetchable(s, seqno) {
        ReadStored(s, seqno);
        ReadWorld(s);
        HeadBounds(Log(s), db.events[seqno]);
        LeastIsUnique(seqs, seqno);
        assert ET.Ascending(db, seqs, limit)[0] == db.events[seqno];
      } else if e :| e in ET.Ascending(db, seqs, limit) && e.seqno == seqno {
        AscendingIsStored(db, seqs, limit, e);
      }
    }
  }

  lemma HeadBounds(log: seq<Event>, e: Event)
    requires SoundLog(log) && e in log
    ensures e.seqno <= Latest(log)
  {
    SoundIncreases(log);
    LatestIsHighest(log);
  }

  /** The submission of a value for a path of a live root, with the base the index has for it. */
  ghost function RequestFor(c: Client, root: RootId, path: PathId, value: Content, bound: Option<int>,
                            refs: seq<ObjectId>): ET.Request {
    ContentRequest(root, path, value, IndexTag(c, root, path), bound, refs)
  }

  /**
    One retry is enough exactly when the conflicting head could be fetched. After a path conflict whose answer
    arrived, whatever the client then submits for the path, with the same bound and references and nobody in
    between, is accepted if and only if a fetch still brings the event the refusal names; the row then is that
    event. A refusal that names no event, as when a row outlived its incarnation, repeats itself.
  */
  lemma RetrySucceedsIff(s: System, device: DeviceId, root: RootId, path: PathId, value: Content, bound: Option<int>,
                         refs: seq<ObjectId>, at: Time, again: Content)
    requires SysInv(s) && device in s.clients && IsLive(s.clients[device], root) && s.clients[device].adding.None?
    requires var refusal := ET.Check(s.world.db, s.ws, RequestFor(s.clients[device], root, path, value, bound, refs));
             refusal.Some? && refusal.value.PathHeadMismatch?
    ensures var c := s.clients[device];
            var head := ET.Check(s.world.db, s.ws, RequestFor(c, root, path, value, bound, refs)).value.current;
            var next := Replication.Step(s, Submit(device, root, path, value, bound, refs, at, true));
            && device in next.clients && next.world == s.world
            && var n := next.clients[device];
               && (Accepts(next, RequestFor(n, root, path, again, bound, refs)) <==> Fetchable(s, head))
               && (Fetchable(s, head) ==>
                     && (root, path) in n.index
                     && n.index[(root, path)] == Entry(Written(s.world.db.events[head]), head))
  {
    hide WorldOk, SnapshotsOk, PeerOk, ET.Check, Head, Applied, AfterSubmit, ContentRequest;
    var c := s.clients[device];
    var req := RequestFor(c, root, path, value, bound, refs);
    var refusal := ET.Check(s.world.db, s.ws, req).value;
    var next := Replication.Step(s, Submit(device, root, path, value, bound, refs, at, true));
    assert next.world == s.world && next.ws == s.ws && next.clients[device] == AfterConflict(s, c, refusal);
    if Fetchable(s, refusal.current) {
      var e := s.world.db.events[refusal.current];
      ConflictingHead(s, req);
      HeadIsInLog(Log(s), req.root, req.path);
      SameTarget(root, path, value, IndexTag(c, root, path), bound, refs);
      ReadStored(s, refusal.current);
      AppliedHead(c, e, root, path);
    }
    SecondAnswer(s.world.db, s.ws, root, path, value, IndexTag(c, root, path), again,
                 IndexTag(next.clients[device], root, path), bound, refs);
  }

  lemma SameTarget(root: RootId, path: PathId, value: Content, base: int, bound: Option<int>, refs: seq<ObjectId>)
    ensures var req := ContentRequest(root, path, value, base, bound, refs); req.root == root && req.path == path
  {}

  lemma AppliedHead(c: Client, e: Event, root: RootId, path: PathId)
    requires IsLive(c, root) && e.root == root && IsContent(e) && e.path == Some(path)
    ensures (root, path) in Applied(c, e, false).index
    ensures Applied(c, e, false).index[(root, path)] == Entry(Written(e), e.seqno)
  {}

  /** Only the base matters to the second answer, and the first one says how far it must reach. */
  lemma SecondAnswer(db: Db, ws: WorkspaceId, root: RootId, path: PathId, value: Content, base: int, again: Content,
                     next: int, bound: Option<int>, refs: seq<ObjectId>)
    requires var first := ET.Check(db, ws, ContentRequest(root, path, value, base, bound, refs));
             first.Some? && first.value.PathHeadMismatch?
    ensures var first := ET.Check(db, ws, ContentRequest(root, path, value, base, bound, refs)).value;
            var second := ET.Check(db, ws, ContentRequest(root, path, again, next, bound, refs));
            && (next == base ==> second == Some(first))
            && (next == first.current ==> second.None?)
  {
    hide ET.FirstMissing;
  }
}
