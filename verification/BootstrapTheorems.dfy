/**
  Bootstrap reconstruction: a client loads the snapshots of single roots and replays everything above one
  cursor that is older than most of them, own events that count as materialized skipped. For every listed
  root that is not blocked, every path and every field: what it ends with, against the fold of the log.
*/
module BootstrapTheorems {
  import opened Records
  import opened EventLog
  import opened Tables
  import opened ServerState
  import opened Clients
  import opened ClientProofs
  import opened ConsumeProofs
  import opened BootstrapProofs
  import opened UploadProofs
  import opened SnapshotExactness
  import opened Replication
  import opened ReplicationProofs
  import opened ReplicationInvariant
  import opened ReplicationTheorems
  import opened AcceptanceTheorems
  import opened Replays

  /** The part of the log above a cursor. */
  ghost function Above(log: seq<Event>, cursor: int): seq<Event> {
    if |UpTo(log, cursor)| <= |log| then log[|UpTo(log, cursor)|..] else []
  }

  /** The client after it loaded the bootstrap and replayed everything above the cursor it was given. */
  ghost function Reconstructed(log: seq<Event>, me: DeviceId, c: Client, listing: map<RootId, Listed>, after: int,
                               blocked: set<RootId>, staged: set<RootId>): Client {
    Replay(Rebuilt(c, me, listing, after, blocked, staged, Replaced(log, listing, after)), me, Above(log, after),
        blocked)
  }

  // ---- what loading leaves at a path

  /** Loading keeps the seq of the client's earlier row. */
  predicate KeepsSeq(c: Client, l: Listed, staged: bool, root: RootId, path: PathId) {
    && (root, path) in c.index
    && (l.snapshot.Some? ==>
          && !staged && path in l.snapshot.value.entries
          && Unchanged(c.index[(root, path)], l.snapshot.value.entries[path]))
  }

  function LoadedValue(c: Client, l: Listed, root: RootId, path: PathId): Content {
    if l.snapshot.Some? then SnapshotValue(l.snapshot.value, path) else IndexValue(c, root, path)
  }

  lemma RowAfterLoading(c: Client, me: DeviceId, listing: map<RootId, Listed>, after: int, blocked: set<RootId>,
                        staged: set<RootId>, replaced: set<RootId>, root: RootId, path: PathId)
    requires root in listing && root !in blocked
    ensures var next, l := Rebuilt(c, me, listing, after, blocked, staged, replaced), listing[root];
            && IsLive(next, root) && next.roots[root].snapshotSeq == ListedSeq(l) && next.cursor == after
            && IndexValue(next, root, path) == LoadedValue(c, l, root, path)
            && (RowAt(next, root, path).None? ==> IndexValue(next, root, path) == Gone)
            && (RowAt(next, root, path).Some? ==>
                  RowAt(next, root, path).value.tag == if KeepsSeq(c, l, root in staged, root, path)
                      then c.index[(root, path)].tag else ListedSeq(l))
            && (KeepsSeq(c, l, root in staged, root, path) ==> RowAt(next, root, path).Some?)
  {
    var l := listing[root];
    if l.snapshot.Some? && path in l.snapshot.value.entries {
      assert (root, path) in SnapshotKeys(listing);
    }
  }

  // ---- the last event of a path above a cursor is the path's head

  lemma InAbove(log: seq<Event>, cursor: int, e: Event)
    requires Increasing(log)
    ensures e in Above(log, cursor) <==> e in log && cursor < e.seqno
    ensures Increasing(Above(log, cursor))
  {
    UpToIsPrefix(log, cursor);
    var n := |UpTo(log, cursor)|;
    if e in log && cursor < e.seqno {
      var i :| 0 <= i < |log| && log[i] == e;
      assert log[n..][i - n] == e;
    }
  }

  /** A content event that nothing of its path and no lifecycle event of its root follows. */
  lemma LastIsHead(log: seq<Event>, root: RootId, path: PathId, e: Event)
    requires SoundLog(log) && Incarnation(log, root).Some? && Incarnation(log, root).value < e.seqno
    requires e in log && OnPath(e, root, path)
    requires forall f | f in log && OnPath(f, root, path) :: f.seqno <= e.seqno
    ensures Head(log, root, path) == Some(e)
  {
    hide Disciplined, Incarnation, Head, Increasing;
    var i :| 0 <= i < |log| && log[i] == e;
    forall k | i <= k < |log| ensures !(log[k].root == root && IsLifecycle(log[k])) {
      SoundIncreases(log);
      NoLifecycleLater(log, root, i, k);
    }
    SoundIncreases(log);
    HeadCoversEarlier(log, i);
    HeadIsInLog(log, root, path);
    UniqueSeq(log, e);
  }

  lemma {:induction false} NoHeadEarlier(log: seq<Event>, root: RootId, path: PathId, t: int)
    requires Head(log, root, path).None? && Incarnation(log, root).Some? && Incarnation(log, root).value <= t
    ensures HeadAt(log, root, path, t) == None
    decreases |log|
  {
    if log != [] && t < log[|log| - 1].seqno {
      NoHeadEarlier(log[..|log| - 1], root, path, t);
    }
  }

  /** Content above the cursor belongs to the current incarnation. */
  lemma AboveIsCurrent(log: seq<Event>, root: RootId, l: Listed, after: int, e: Event)
    requires SoundLog(log) && ListedOk(log, root, l, after) && NotRemovedAfter(log, root, after)
    requires e in log && ContentOn(e, root) && after < e.seqno
    ensures l.created < e.seqno
  {
    hide Disciplined, Increasing, Incarnation, SnapshotOk;
    NotRemovedNotReplaced(log, root, l, after);
    var add := CreatedEvent(log, root) by { SoundIncreases(log); }
    SoundIncreases(log);
    UniqueSeq(log, add);
  }

  // ---- a root that is not removed above the cursor

  /** What a bootstrap starts from: a sound log and a listing that is true of it. */
  ghost predicate Loading(log: seq<Event>, c: Client, listing: map<RootId, Listed>, after: int, blocked: set<RootId>,
                          root: RootId) {
    && SoundLog(log) && (forall e | e in log :: 1 <= e.seqno) && EntriesOk(log, c)
    && ListingOk(log, listing, after) && 0 <= after <= Latest(log) && root in listing && root !in blocked
  }

  lemma KeepsAbove(log: seq<Event>, root: RootId, after: int)
    requires SoundLog(log) && (forall e | e in log :: 1 <= e.seqno) && NotRemovedAfter(log, root, after)
    ensures Keeps(Above(log, after), root)
  {
    hide Disciplined, Above;
    forall e | e in Above(log, after)
      ensures 1 <= e.seqno && (IsContent(e) || IsLifecycle(e)) && (IsContent(e) ==> e.path.Some?)
      ensures e.root == root ==> !e.kind.RootRemove?
    {
      InAbove(log, after, e);
      DisciplinedEvent(log, e);
    }
  }

  lemma OneAuthorAbove(log: seq<Event>, root: RootId, path: PathId, l: Listed, after: int)
    requires SoundLog(log) && (forall e | e in log :: 1 <= e.seqno)
    requires ListedOk(log, root, l, after) && NotRemovedAfter(log, root, after)
    ensures OneAuthorOn(Above(log, after), root, path, ListedSeq(l))
  {
    hide Disciplined, Increasing, Above, Incarnation, SnapshotHolds, NotRemovedAfter;
    forall e | e in Above(log, after) && OnPath(e, root, path) && e.seqno <= ListedSeq(l)
      ensures l.snapshot.Some? && e.author == l.snapshot.value.author
    {
      SoundIncreases(log);
      InAbove(log, after, e);
      AboveIsCurrent(log, root, l, after, e);
    }
  }

  /** A last event above the cursor is the head; and a head above the cursor is such an event. */
  lemma LastAbove(log: seq<Event>, root: RootId, path: PathId, l: Listed, after: int, e: Event)
    requires SoundLog(log) && ListedOk(log, root, l, after) && NotRemovedAfter(log, root, after)
    requires IsLastOn(Above(log, after), root, path, e)
    ensures after < e.seqno && Head(log, root, path) == Some(e)
  {
    hide Disciplined, Increasing, Above, Incarnation, SnapshotOk, Head, NotRemovedAfter;
    SoundIncreases(log);
    InAbove(log, after, e);
    AboveIsCurrent(log, root, l, after, e);
    forall f | f in log && OnPath(f, root, path) ensures f.seqno <= e.seqno {
      InAbove(log, after, f);
    }
    LastIsHead(log, root, path, e);
  }

  /** Whether all own events above the cursor are at or below the seq of the row that loading leaves. */
  ghost predicate PassedOver(log: seq<Event>, me: DeviceId, loaded: Client, after: int, root: RootId, path: PathId) {
    AllSkipped(Above(log, after), me, root, path, RowAt(loaded, root, path), 0)
  }

  /** Either the path ends at its head, or all that loading left is still there. */
  lemma Outcome(log: seq<Event>, me: DeviceId, c: Client, listing: map<RootId, Listed>, after: int,
                blocked: set<RootId>, staged: set<RootId>, root: RootId, path: PathId)
    requires Loading(log, c, listing, after, blocked, root) && NotRemovedAfter(log, root, after)
    ensures var loaded := Rebuilt(c, me, listing, after, blocked, staged, Replaced(log, listing, after));
            var done := Reconstructed(log, me, c, listing, after, blocked, staged);
            var h := Head(log, root, path);
            || (!PassedOver(log, me, loaded, after, root, path)
                && h.Some? && after < h.value.seqno && IndexValue(done, root, path) == Written(h.value))
            || (IndexValue(done, root, path) == LoadedValue(c, listing[root], root, path)
                && AllSkipped(Above(log, after), me, root, path, RowAt(loaded, root, path), ListedSeq(listing[root])))
  {
    hide SoundLog, EntriesOk, Above, Head, ListedOk, NotRemovedAfter, Rebuilt, Replay, Keeps, Latest, OneAuthorOn;
    var loaded := Rebuilt(c, me, listing, after, blocked, staged, Replaced(log, listing, after));
    RowAfterLoading(c, me, listing, after, blocked, staged, Replaced(log, listing, after), root, path);
    KeepsAbove(log, root, after);
    assert ListedOk(log, root, listing[root], after);
    SeqIsNatural(log, root, listing[root], after);
    if PassedOver(log, me, loaded, after, root, path) {
      ReplayPassesOver(loaded, me, Above(log, after), blocked, root, path);
    } else {
      OneAuthorAbove(log, root, path, listing[root], after);
      SoundIncreases(log);
      AboveIncreases(log, after);
      ReplayRow(loaded, me, Above(log, after), blocked, root, path);
      if e :| IsLastOn(Above(log, after), root, path, e)
              && RowAt(Replay(loaded, me, Above(log, after), blocked), root, path) == Some(Entry(Written(e), e.seqno)) {
        LastAbove(log, root, path, listing[root], after, e);
      }
    }
  }

  lemma AboveIncreases(log: seq<Event>, after: int)
    requires Increasing(log)
    ensures Increasing(Above(log, after))
  {
    UpToIsPrefix(log, after);
  }

  lemma SeqIsNatural(log: seq<Event>, root: RootId, l: Listed, after: int)
    requires ListedOk(log, root, l, after)
    ensures 0 <= ListedSeq(l)
  {
    hide SnapshotHolds, OneAuthor;
  }

  // ---- when the path does not end at its head

  /** The client kept its row at a seq from the head on, and nobody else wrote the path above the cursor. */
  ghost predicate OwnHeadSkipped(log: seq<Event>, me: DeviceId, c: Client, l: Listed, after: int, staged: bool,
                                 root: RootId, path: PathId, h: Event) {
    && after < h.seqno && (l.snapshot.Some? ==> l.snapshot.value.base < h.seqno)
    && KeepsSeq(c, l, staged, root, path) && h.seqno <= c.index[(root, path)].tag
    && (forall f | f in log && OnPath(f, root, path) && after < f.seqno <= h.seqno :: f.author == me)
  }

  /** A snapshot covers the head if its base does. */
  lemma CoveredHead(log: seq<Event>, root: RootId, path: PathId, l: Listed, after: int)
    requires SoundLog(log) && ListedOk(log, root, l, after) && l.snapshot.Some?
    requires Head(log, root, path).Some? ==> Head(log, root, path).value.seqno <= l.snapshot.value.base
    ensures SnapshotValue(l.snapshot.value, path) == ValueAt(log, root, path, Latest(log))
  {
    hide Disciplined, Increasing, Head, Incarnation, OneAuthor;
    var s := l.snapshot.value;
    WholeLog(log, root, path);
    assert SnapshotValue(s, path) == ValueAt(log, root, path, s.base);
    if Head(log, root, path).Some? {
      HeadStays(log, root, path, s.base);
    } else {
      NoHeadEarlier(log, root, path, s.base);
    }
  }

  /**
    A row of an earlier incarnation: the root came back without a snapshot, nothing was written to the path
    since, and the client still holds what the path held before.
  */
  ghost predicate LeftBehind(log: seq<Event>, c: Client, l: Listed, after: int, root: RootId, path: PathId) {
    && NotRemovedAfter(log, root, after) && l.snapshot.None?
    && Head(log, root, path).None? && IndexValue(c, root, path) != Gone
  }

  /** The client's own last event counts as materialized, but loading put something else there. */
  ghost predicate KeptOld(log: seq<Event>, me: DeviceId, c: Client, l: Listed, after: int, staged: bool, root: RootId,
                          path: PathId) {
    && NotRemovedAfter(log, root, after) && Head(log, root, path).Some?
    && OwnHeadSkipped(log, me, c, l, after, staged, root, path, Head(log, root, path).value)
    && LoadedValue(c, l, root, path) != Written(Head(log, root, path).value)
  }

  lemma ReadLatest(log: seq<Event>, root: RootId, path: PathId)
    ensures ValueAt(log, root, path, Latest(log)) ==
            if Head(log, root, path).Some? then Written(Head(log, root, path).value) else Gone
  {}

  /** All events above the cursor skipped, and the head one of them. */
  lemma SkippedHead(log: seq<Event>, me: DeviceId, c: Client, listing: map<RootId, Listed>, after: int,
                    blocked: set<RootId>, staged: set<RootId>, root: RootId, path: PathId)
    requires Loading(log, c, listing, after, blocked, root) && Head(log, root, path).Some?
    requires var loaded := Rebuilt(c, me, listing, after, blocked, staged, Replaced(log, listing, after));
             AllSkipped(Above(log, after), me, root, path, RowAt(loaded, root, path), ListedSeq(listing[root]))
    requires after < Head(log, root, path).value.seqno && ListedSeq(listing[root]) < Head(log, root, path).value.seqno
    ensures OwnHeadSkipped(log, me, c, listing[root], after, root in staged, root, path, Head(log, root, path).value)
  {
    hide SoundLog, EntriesOk, Above, Head, ListedOk, Rebuilt, Latest, KeepsSeq, RowAt;
    var h := Head(log, root, path).value;
    HeadIsInLog(log, root, path);
    RowAfterLoading(c, me, listing, after, blocked, staged, Replaced(log, listing, after), root, path);
    SoundIncreases(log);
    InAbove(log, after, h);
    forall f | f in log && OnPath(f, root, path) && after < f.seqno <= h.seqno ensures f.author == me {
      InAbove(log, after, f);
    }
  }

  /** And conversely. */
  lemma HeadPassedOver(log: seq<Event>, me: DeviceId, c: Client, listing: map<RootId, Listed>, after: int,
                       blocked: set<RootId>, staged: set<RootId>, root: RootId, path: PathId)
    requires Loading(log, c, listing, after, blocked, root) && NotRemovedAfter(log, root, after)
    requires Head(log, root, path).Some?
    requires OwnHeadSkipped(log, me, c, listing[root], after, root in staged, root, path, Head(log, root, path).value)
    ensures var loaded := Rebuilt(c, me, listing, after, blocked, staged, Replaced(log, listing, after));
            PassedOver(log, me, loaded, after, root, path)
  {
    hide SoundLog, EntriesOk, Above, Head, Rebuilt, Latest, KeepsSeq, RowAt, ListedOk, NotRemovedAfter;
    RowAfterLoading(c, me, listing, after, blocked, staged, Replaced(log, listing, after), root, path);
    SoundIncreases(log);
    forall e | e in Above(log, after) && OnPath(e, root, path)
      ensures e.author == me && e.seqno <= Head(log, root, path).value.seqno
    {
      InAbove(log, after, e);
      HeadCovers(log, root, path, listing[root], after, e);
    }
  }

  lemma HeadCovers(log: seq<Event>, root: RootId, path: PathId, l: Listed, after: int, e: Event)
    requires SoundLog(log) && ListedOk(log, root, l, after) && NotRemovedAfter(log, root, after)
    requires e in log && OnPath(e, root, path) && after < e.seqno
    ensures Head(log, root, path).Some? && e.seqno <= Head(log, root, path).value.seqno
  {
    hide Disciplined, Increasing, Head, Incarnation, SnapshotOk, NotRemovedAfter;
    AboveIsCurrent(log, root, l, after, e);
    var i :| 0 <= i < |log| && log[i] == e;
    SoundIncreases(log);
    forall k | i <= k < |log| ensures !(log[k].root == root && IsLifecycle(log[k])) {
      NoLifecycleLater(log, root, i, k);
    }
    HeadCoversEarlier(log, i);
  }

  /** A head at or below the cursor, or none, is what a snapshot brings; and there is no other such root. */
  lemma NothingAbove(log: seq<Event>, c: Client, l: Listed, after: int, root: RootId, path: PathId)
    requires SoundLog(log) && ListedOk(log, root, l, after)
    requires Head(log, root, path).Some? ==> Head(log, root, path).value.seqno <= after
    ensures l.snapshot.Some? ==> LoadedValue(c, l, root, path) == ValueAt(log, root, path, Latest(log))
    ensures l.snapshot.None? ==> Head(log, root, path).None?
  {
    hide Disciplined, Increasing, Head, Incarnation, SnapshotHolds, OneAuthor, ValueAt;
    if l.snapshot.Some? {
      CoveredHead(log, root, path, l, after);
    } else if Head(log, root, path).Some? {
      SoundIncreases(log);
      HeadFollowsIncarnation(log, root, path);
    }
  }

  lemma UnremovedIff(log: seq<Event>, me: DeviceId, c: Client, listing: map<RootId, Listed>, after: int,
                     blocked: set<RootId>, staged: set<RootId>, root: RootId, path: PathId)
    requires Loading(log, c, listing, after, blocked, root) && NotRemovedAfter(log, root, after)
    ensures IndexValue(Reconstructed(log, me, c, listing, after, blocked, staged), root, path) ==
            ValueAt(log, root, path, Latest(log))
            <==> !LeftBehind(log, c, listing[root], after, root, path)
                 && !KeptOld(log, me, c, listing[root], after, root in staged, root, path)
    ensures LeftBehind(log, c, listing[root], after, root, path)
            || KeptOld(log, me, c, listing[root], after, root in staged, root, path) ==>
              IndexValue(Reconstructed(log, me, c, listing, after, blocked, staged), root, path) ==
                  LoadedValue(c, listing[root], root, path)
  {
    hide SoundLog, EntriesOk, Above, Head, ListedOk, NotRemovedAfter, Rebuilt, Reconstructed, Latest, ValueAt;
    hide IndexValue, OwnHeadSkipped, LoadedValue, AllSkipped, RowAt;
    var l := listing[root];
    assert ListedOk(log, root, l, after);
    Outcome(log, me, c, listing, after, blocked, staged, root, path);
    ReadLatest(log, root, path);
    var h := Head(log, root, path);
    if h.Some? && after < h.value.seqno {
      if OwnHeadSkipped(log, me, c, l, after, root in staged, root, path, h.value) {
        HeadPassedOver(log, me, c, listing, after, blocked, staged, root, path);
      } else if l.snapshot.Some? && h.value.seqno <= l.snapshot.value.base {
        CoveredHead(log, root, path, l, after);
        LoadedSnapshot(c, l, root, path);
      } else if IndexValue(Reconstructed(log, me, c, listing, after, blocked, staged), root, path) != Written(h.value) {
        HeadIsPositive(log, root, path);
        SkippedHead(log, me, c, listing, after, blocked, staged, root, path);
      }
    } else {
      NothingAbove(log, c, l, after, root, path);
      if l.snapshot.None? { LoadedWithout(c, l, root, path); }
      if h.Some? { NotSkipped(log, me, c, l, after, root in staged, root, path, h.value); }
    }
  }

  lemma NotSkipped(log: seq<Event>, me: DeviceId, c: Client, l: Listed, after: int, staged: bool, root: RootId,
                   path: PathId, h: Event)
    requires h.seqno <= after
    ensures !OwnHeadSkipped(log, me, c, l, after, staged, root, path, h)
  {}

  lemma LoadedSnapshot(c: Client, l: Listed, root: RootId, path: PathId)
    requires l.snapshot.Some?
    ensures LoadedValue(c, l, root, path) == SnapshotValue(l.snapshot.value, path)
  {}

  lemma LoadedWithout(c: Client, l: Listed, root: RootId, path: PathId)
    requires l.snapshot.None?
    ensures LoadedValue(c, l, root, path) == IndexValue(c, root, path)
  {}

  lemma HeadIsPositive(log: seq<Event>, root: RootId, path: PathId)
    requires Head(log, root, path).Some? && (forall e | e in log :: 1 <= e.seqno)
    ensures 1 <= Head(log, root, path).value.seqno
  {
    HeadIsInLog(log, root, path);
  }

  // ---- a root that is removed above the cursor starts over at its root_add

  /** The events after a root_add that nothing removes again. */
  lemma AfterTheAdd(log: seq<Event>, me: DeviceId, c: Client, j: nat, blocked: set<RootId>, root: RootId, path: PathId)
    requires SoundLog(log) && (forall e | e in log :: 1 <= e.seqno) && j < |log| && root !in blocked
    requires log[j].root == root && log[j].kind.RootAdd? && Incarnation(log, root) == Some(log[j].seqno)
    requires IsLive(c, root) && c.roots[root].snapshotSeq == 0 && RowAt(c, root, path) == None
    ensures IndexValue(Replay(c, me, log[j + 1..], blocked), root, path) == ValueAt(log, root, path, Latest(log))
  {
    hide SoundLog, Head, Replay, Keeps, Latest, OneAuthorOn, Incarnation, IsLive, ValueAt;
    var events := log[j + 1..];
    SuffixKeeps(log, j, root);
    assert OneAuthorOn(events, root, path, 0) by { NoneAtZero(events, root, path); }
    ReplayRow(c, me, events, blocked, root, path);
    ReadLatest(log, root, path);
    var row := RowAt(Replay(c, me, events, blocked), root, path);
    if e :| IsLastOn(events, root, path, e) && row == Some(Entry(Written(e), e.seqno)) {
      LastInSuffix(log, j, root, path, e);
    } else if Head(log, root, path).Some? {
      HeadInSuffix(log, j, root, path);
    }
  }

  lemma NoneAtZero(events: seq<Event>, root: RootId, path: PathId)
    requires Keeps(events, root)
    ensures OneAuthorOn(events, root, path, 0)
  {}

  lemma SuffixKeeps(log: seq<Event>, j: nat, root: RootId)
    requires SoundLog(log) && (forall e | e in log :: 1 <= e.seqno) && j < |log|
    requires Incarnation(log, root) == Some(log[j].seqno)
    ensures Increasing(log[j + 1..]) && Keeps(log[j + 1..], root)
  {
    hide Disciplined, Incarnation;
    forall e | e in log[j + 1..]
      ensures 1 <= e.seqno && (IsContent(e) || IsLifecycle(e)) && (IsContent(e) ==> e.path.Some?)
      ensures e.root == root ==> !e.kind.RootRemove?
    {
      var k :| j + 1 <= k < |log| && log[k] == e;
      assert log[j].seqno < log[k].seqno;
      DisciplinedEvent(log, e);
      if e.root == root && e.kind.RootRemove? { IncarnationIsLast(log, root, e); }
    }
  }

  lemma LastInSuffix(log: seq<Event>, j: nat, root: RootId, path: PathId, e: Event)
    requires SoundLog(log) && j < |log| && Incarnation(log, root) == Some(log[j].seqno)
    requires IsLastOn(log[j + 1..], root, path, e)
    ensures Head(log, root, path) == Some(e)
  {
    hide Disciplined, Incarnation, Head;
    var k :| j + 1 <= k < |log| && log[k] == e;
    assert log[j].seqno < log[k].seqno;
    forall f | f in log && OnPath(f, root, path) ensures f.seqno <= e.seqno {
      var i :| 0 <= i < |log| && log[i] == f;
      if j < i { assert log[j + 1..][i - j - 1] == f; } else { assert i == j || log[i].seqno < log[j].seqno; }
    }
    LastIsHead(log, root, path, e);
  }

  lemma HeadInSuffix(log: seq<Event>, j: nat, root: RootId, path: PathId)
    requires SoundLog(log) && j < |log| && Incarnation(log, root) == Some(log[j].seqno)
    requires Head(log, root, path).Some?
    ensures Head(log, root, path).value in log[j + 1..] && OnPath(Head(log, root, path).value, root, path)
  {
    hide Disciplined, Incarnation, Head;
    var h := Head(log, root, path).value;
    HeadIsInLog(log, root, path);
    HeadFollowsIncarnation(log, root, path);
    var i :| 0 <= i < |log| && log[i] == h;
    IndexBelow(log, j, i);
    assert log[j + 1..][i - j - 1] == h;
  }

  /** Replaying the removal leaves nothing of the root, and only its root_add brings it back. */
  lemma EmptiedBeforeAdd(log: seq<Event>, me: DeviceId, c: Client, n: nat, i: nat, j: nat, blocked: set<RootId>,
                         root: RootId)
    requires SoundLog(log) && EntriesOk(log, c) && (forall e | e in log :: 1 <= e.seqno)
    requires n <= i < j < |log| && At(log, n, c.cursor)
    requires log[i].root == root && log[i].kind.RootRemove? && log[j].root == root && log[j].kind.RootAdd?
    ensures Emptied(Replay(c, me, log[n..j], blocked), root)
  {
    hide Disciplined, Increasing, EntriesOk, Replay, Consumed, Emptied, Incarnation;
    var before := Replay(c, me, log[n..i], blocked);
    ReplayKeepsEntries(log, me, c, n, i, blocked);
    var gone := Consumed(before, me, log[i], root in blocked);
    RemovalEmpties(log, me, before, log[i], root in blocked);
    NextAt(log, i, before.cursor);
    NextCursor(before, me, log[i], root in blocked);
    ConsumeKeepsEntries(log, me, before, log[i], root in blocked);
    ReadDiscipline(log, j);
    StaysEmptied(log, me, gone, i + 1, j, blocked, root);
    assert log[n..j] == log[n..i] + ([log[i]] + log[i + 1..j]);
    ReplayConcat(c, me, log[n..i], [log[i]] + log[i + 1..j], blocked);
    ReplayCons(before, me, log[i], log[i + 1..j], blocked);
  }

  lemma ReplayCons(c: Client, me: DeviceId, e: Event, events: seq<Event>, blocked: set<RootId>)
    ensures Replay(c, me, [e] + events, blocked) == Replay(Consumed(c, me, e, e.root in blocked), me, events, blocked)
  {
    hide Consumed;
    assert ([e] + events)[1..] == events;
  }

  lemma RemovedIsExact(log: seq<Event>, me: DeviceId, c: Client, listing: map<RootId, Listed>, after: int,
                       blocked: set<RootId>, staged: set<RootId>, root: RootId, path: PathId)
    requires Loading(log, c, listing, after, blocked, root) && !NotRemovedAfter(log, root, after)
    ensures IndexValue(Reconstructed(log, me, c, listing, after, blocked, staged), root, path) ==
            ValueAt(log, root, path, Latest(log))
  {
    hide Disciplined, Increasing, EntriesOk, Replay, Consumed, Emptied, Incarnation, Rebuilt, ListedOk, ValueAt, Latest,
         UpTo;
    var loaded := Rebuilt(c, me, listing, after, blocked, staged, Replaced(log, listing, after));
    RebuildKeepsEntries(log, me, c, listing, after, blocked, staged, Replaced(log, listing, after));
    RowAfterLoading(c, me, listing, after, blocked, staged, Replaced(log, listing, after), root, path);
    UpToIsPrefix(log, after);
    var n := |UpTo(log, after)|;
    assert ListedOk(log, root, listing[root], after);
    ReadListed(log, root, listing[root], after);
    var add := CreatedEvent(log, root);
    var gone :| gone in log && gone.root == root && gone.kind.RootRemove? && after < gone.seqno;
    var j :| 0 <= j < |log| && log[j] == add;
    var i :| 0 <= i < |log| && log[i] == gone;
    assert i < j by { IncarnationIsLast(log, root, gone); IndexBelow(log, i, j); }
    assert n <= i;
    EmptiedBeforeAdd(log, me, loaded, n, i, j, blocked, root);
    var c2 := Replay(loaded, me, log[n..j], blocked);
    AddRevives(c2, me, add, path);
    AfterTheAdd(log, me, Consumed(c2, me, add, false), j, blocked, root, path);
    assert log[n..] == log[n..j] + ([add] + log[j + 1..]);
    ReplayConcat(loaded, me, log[n..j], [add] + log[j + 1..], blocked);
    ReplayCons(c2, me, add, log[j + 1..], blocked);
  }

  lemma ReadListed(log: seq<Event>, root: RootId, l: Listed, after: int)
    requires ListedOk(log, root, l, after)
    ensures Incarnation(log, root) == Some(l.created)
  {}

  lemma IndexBelow(log: seq<Event>, i: nat, j: nat)
    requires Increasing(log) && i < |log| && j < |log| && log[i].seqno <= log[j].seqno && log[i] != log[j]
    ensures i < j
  {}

  // ---- the theorems, for any sound log

  /**
    Every field of every path of a listed, unblocked root, removed above the cursor or not: loading and
    replaying gives what the log holds, unless the row belongs to an earlier incarnation or the client's own
    last event was skipped over a value that loading had put back.
  */
  lemma ReconstructedIff(log: seq<Event>, me: DeviceId, c: Client, listing: map<RootId, Listed>, after: int,
                         blocked: set<RootId>, staged: set<RootId>, root: RootId, path: PathId)
    requires Loading(log, c, listing, after, blocked, root)
    ensures IndexValue(Reconstructed(log, me, c, listing, after, blocked, staged), root, path) ==
            ValueAt(log, root, path, Latest(log))
            <==> !LeftBehind(log, c, listing[root], after, root, path)
                 && !KeptOld(log, me, c, listing[root], after, root in staged, root, path)
  {
    hide SoundLog, EntriesOk, ListingOk, Reconstructed, ValueAt, Latest, IndexValue, Head, OwnHeadSkipped, LoadedValue;
    if NotRemovedAfter(log, root, after) {
      UnremovedIff(log, me, c, listing, after, blocked, staged, root, path);
    } else {
      RemovedIsExact(log, me, c, listing, after, blocked, staged, root, path);
    }
  }

  /** A row left behind carries a seq below the root's current root_add. */
  lemma LeftBehindIsOld(log: seq<Event>, c: Client, l: Listed, after: int, root: RootId, path: PathId)
    requires EntriesOk(log, c) && ListedOk(log, root, l, after) && LeftBehind(log, c, l, after, root, path)
    ensures (root, path) in c.index && c.index[(root, path)].tag < l.created
  {
    hide Head, Latest, NotRemovedAfter, SnapshotOk, Incarnation;
    var prior := c.index[(root, path)];
    assert EntryOk(log, (root, path), prior);
    if l.created <= prior.tag {
      NoHeadEarlier(log, root, path, prior.tag);
    }
  }

  /** A value that loading put back under a kept seq has the kind and content of the log's head. */
  lemma KeptOldHasContent(log: seq<Event>, me: DeviceId, c: Client, l: Listed, after: int, staged: bool, root: RootId,
                          path: PathId)
    requires SoundLog(log) && EntriesOk(log, c) && KeptOld(log, me, c, l, after, staged, root, path)
    ensures Digest(LoadedValue(c, l, root, path)) == Digest(ValueAt(log, root, path, Latest(log)))
  {
    hide Disciplined, Increasing, Head, Latest, NotRemovedAfter;
    var prior := c.index[(root, path)];
    assert EntryOk(log, (root, path), prior);
    SoundIncreases(log);
    HeadStays(log, root, path, prior.tag);
    ReadLatest(log, root, path);
  }

  /**
    Kind and content of every path: loading and replaying gives what the log holds, unless the row belongs
    to an earlier incarnation.
  */
  lemma ContentReconstructedIff(log: seq<Event>, me: DeviceId, c: Client, listing: map<RootId, Listed>, after: int,
                                blocked: set<RootId>, staged: set<RootId>, root: RootId, path: PathId)
    requires Loading(log, c, listing, after, blocked, root)
    ensures Digest(IndexValue(Reconstructed(log, me, c, listing, after, blocked, staged), root, path))
            == Digest(ValueAt(log, root, path, Latest(log)))
            <==> !LeftBehind(log, c, listing[root], after, root, path)
  {
    hide SoundLog, EntriesOk, ListingOk, Reconstructed, Latest, Head, OwnHeadSkipped, NotRemovedAfter, ValueAt;
    ReconstructedIff(log, me, c, listing, after, blocked, staged, root, path);
    ReadLatest(log, root, path);
    if LeftBehind(log, c, listing[root], after, root, path) {
      UnremovedIff(log, me, c, listing, after, blocked, staged, root, path);
    } else if KeptOld(log, me, c, listing[root], after, root in staged, root, path) {
      UnremovedIff(log, me, c, listing, after, blocked, staged, root, path);
      KeptOldHasContent(log, me, c, listing[root], after, root in staged, root, path);
    }
  }

  lemma RebuiltTracks(c: Client, me: DeviceId, listing: map<RootId, Listed>, after: int, blocked: set<RootId>,
                      staged: set<RootId>, replaced: set<RootId>, root: RootId)
    requires root in listing && root !in blocked && root !in replaced
    requires listing[root].snapshot.Some? || NoEntries(c, root) || (root in c.tracked && after <= c.cursor)
    ensures root in Rebuilt(c, me, listing, after, blocked, staged, replaced).tracked
    ensures Rebuilt(c, me, listing, after, blocked, staged, replaced).cursor == after
  {
    hide RebuiltIndex;
  }

  /** A root the client reloads, starts empty or has followed past the cursor comes back at every path. */
  lemma ReplayReconstructs(log: seq<Event>, me: DeviceId, c: Client, listing: map<RootId, Listed>, after: int,
                           blocked: set<RootId>, staged: set<RootId>, root: RootId)
    requires SoundLog(log) && (forall e | e in log :: 1 <= e.seqno)
    requires ClientOk(log, me, c) && ListingOk(log, listing, after) && 0 <= after <= Latest(log)
    requires root in listing && root !in blocked && NotRemovedAfter(log, root, after)
    requires listing[root].snapshot.Some? || NoEntries(c, root) || (root in c.tracked && after <= c.cursor)
    ensures Agrees(log, Reconstructed(log, me, c, listing, after, blocked, staged), root)
  {
    hide Disciplined, ClientOk, Rebuilt, Latest, ListedOk, Agrees, UpTo, IsReplaced, Increasing;
    var loaded := Rebuilt(c, me, listing, after, blocked, staged, Replaced(log, listing, after));
    UpToIsPrefix(log, after);
    var n := |UpTo(log, after)|;
    RebuildKeepsClient(log, me, c, listing, after, blocked, staged);
    NotRemovedNotReplaced(log, root, listing[root], after);
    RebuiltTracks(c, me, listing, after, blocked, staged, Replaced(log, listing, after), root);
    forall i | n <= i < |log| ensures log[i].root == root ==> !log[i].kind.RootRemove? {
      assert log[i] in log;
    }
    ReplayKeepsTracked(log, me, loaded, n, blocked, root);
    CaughtUpAgrees(log, me, Replay(loaded, me, log[n..], blocked), root);
  }

  /** A client that has just made the root, knows nothing of it, and never wrote to it. */
  function Observer(root: RootId, kind: RootKind, created: int): Client {
    Client(created - 1, map[root := LocalRoot(kind, Active, 0)], map[], None, {root}, {})
  }

  /** Replaying the whole incarnation from its root_add gives the fold of the log in every field. */
  lemma FullReplayIsExact(log: seq<Event>, me: DeviceId, root: RootId, kind: RootKind, path: PathId)
    requires SoundLog(log) && Incarnation(log, root).Some? && (forall e | e in log :: 1 <= e.seqno)
    ensures var created := Incarnation(log, root).value;
            IndexValue(Replay(Observer(root, kind, created), me, Above(log, created - 1), {}), root, path)
            == ValueAt(log, root, path, Latest(log))
  {
    hide Disciplined, Latest, Incarnation, UpTo, Increasing, Replay, ValueAt;
    var created := Incarnation(log, root).value;
    var c := Observer(root, kind, created);
    var add := CreatedEvent(log, root);
    UpToIsPrefix(log, created - 1);
    var j :| 0 <= j < |log| && log[j] == add;
    assert |UpTo(log, created - 1)| == j by { FirstAtOrAbove(log, |UpTo(log, created - 1)|, j); }
    assert log[j..] == [add] + log[j + 1..];
    ReplayCons(c, me, add, log[j + 1..], {});
    AfterTheAdd(log, me, Consumed(c, me, add, false), j, {}, root, path);
  }

  lemma FirstAtOrAbove(log: seq<Event>, n: nat, j: nat)
    requires Increasing(log) && n <= |log| && j < |log|
    requires forall i | 0 <= i < n :: log[i].seqno < log[j].seqno
    requires forall i | n <= i < |log| :: log[j].seqno <= log[i].seqno
    ensures n == j
  {
    var k := if n < j then n else j;
    assert log[k].seqno <= log[j].seqno;
  }

  // ---- the theorems, for every reachable system

  /** The client is about to load a bootstrap that lists the root, which it does not block. */
  ghost predicate Reloadable(s: System, device: DeviceId, blocked: set<RootId>, root: RootId) {
    && device in s.clients && !IsUploading(s.clients[device])
    && s.ws in s.world.logs && s.ws in s.world.db.workspaces
    && root in Listing(s) && root !in blocked
  }

  /** The client after it loaded the bootstrap and replayed everything above the cursor it was given. */
  ghost function RebuiltByReplay(s: System, device: DeviceId, blocked: set<RootId>, staged: set<RootId>,
                                 root: RootId): Client
    requires Reloadable(s, device, blocked, root)
  {
    Reconstructed(Log(s), device, s.clients[device], Listing(s), BootstrapAfter(s.world.db, s.ws), blocked, staged)
  }

  /** A client that replays the root's whole incarnation, from its root_add on. */
  ghost function FullyReplayed(s: System, device: DeviceId, blocked: set<RootId>, root: RootId): Client
    requires Reloadable(s, device, blocked, root)
  {
    var l := Listing(s)[root];
    Replay(Observer(root, l.kind, l.created), device, Above(Log(s), l.created - 1), {})
  }

  lemma ReachableLoading(s: System, device: DeviceId, blocked: set<RootId>, root: RootId)
    requires Replication.Reachable(s) && Reloadable(s, device, blocked, root)
    ensures Loading(Log(s), s.clients[device], Listing(s), BootstrapAfter(s.world.db, s.ws), blocked, root)
    ensures ClientOk(Log(s), device, s.clients[device])
    ensures Incarnation(Log(s), root) == Some(Listing(s)[root].created)
  {
    hide Replication.Reachable, WorldOk, SnapshotsOk, AddingOk, SoundLog, Optimistic, Incarnation, RowOf, TrackedOk;
    hide BootstrapAfter, Listing, Latest, SnapshotOk, EntriesOk, Unpublished;
    var after := BootstrapAfter(s.world.db, s.ws);
    ReachableSystemsAreSound(s);
    assert PeerOk(s, device, s.clients[device]);
    ReadWorld(s);
    forall r | r in Listing(s) ensures ListedOk(Log(s), r, Listing(s)[r], after) {
      ListedIsOk(s, r);
    }
    ReadCursor(s, root);
  }

  /**
    Bootstrap reconstruction, in every reachable state. Loading the latest snapshot of a root and
    replaying every event above the workspace-wide cursor, those below the snapshot included and own
    ones skipped, gives the same contents as replaying the root's whole incarnation from its root_add,
    unless the client still holds a row of an earlier incarnation.
  */
  lemma BootstrapReconstructs(s: System, device: DeviceId, blocked: set<RootId>, staged: set<RootId>, root: RootId,
                              path: PathId)
    requires Replication.Reachable(s) && Reloadable(s, device, blocked, root)
    ensures IndexValue(FullyReplayed(s, device, blocked, root), root, path) ==
            ValueAt(Log(s), root, path, Latest(Log(s)))
    ensures Digest(IndexValue(RebuiltByReplay(s, device, blocked, staged, root), root, path))
            == Digest(ValueAt(Log(s), root, path, Latest(Log(s))))
            <==> !LeftBehind(Log(s), s.clients[device], Listing(s)[root], BootstrapAfter(s.world.db, s.ws), root, path)
  {
    hide Replication.Reachable, SoundLog, EntriesOk, ListingOk, Reconstructed, Replay, ValueAt, IndexValue, LeftBehind;
    hide ClientOk, Above, Latest, BootstrapAfter, Listing, Observer;
    ReachableLoading(s, device, blocked, root);
    ContentReconstructedIff(Log(s), device, s.clients[device], Listing(s), BootstrapAfter(s.world.db, s.ws), blocked,
        staged, root, path);
    FullReplayIsExact(Log(s), device, root, Listing(s)[root].kind, path);
  }

  /**
    The mode, and with it every field: a bootstrap reconstructs the path as the log holds it, unless the
    row is an earlier incarnation's, or the head of the path is the client's own, above the snapshot and not
    above its row, nobody else wrote the path since the cursor, and the snapshot brings the row's content
    with other attributes than the head's.
  */
  lemma ModeReconstructedIff(s: System, device: DeviceId, blocked: set<RootId>, staged: set<RootId>, root: RootId,
                             path: PathId)
    requires Replication.Reachable(s) && Reloadable(s, device, blocked, root)
    ensures var after := BootstrapAfter(s.world.db, s.ws);
            IndexValue(RebuiltByReplay(s, device, blocked, staged, root), root, path) ==
                ValueAt(Log(s), root, path, Latest(Log(s)))
            <==> !LeftBehind(Log(s), s.clients[device], Listing(s)[root], after, root, path)
                 && !KeptOld(Log(s), device, s.clients[device], Listing(s)[root], after, root in staged, root, path)
  {
    hide Replication.Reachable, SoundLog, EntriesOk, ListingOk, Reconstructed, ValueAt, IndexValue, LeftBehind, KeptOld;
    hide ClientOk, Latest, BootstrapAfter, Listing;
    ReachableLoading(s, device, blocked, root);
    ReconstructedIff(Log(s), device, s.clients[device], Listing(s), BootstrapAfter(s.world.db, s.ws), blocked, staged,
        root, path);
  }

  /** In either case the client ends with what loading left at the path. */
  lemma KeepsWhatWasLoaded(s: System, device: DeviceId, blocked: set<RootId>, staged: set<RootId>, root: RootId,
                           path: PathId)
    requires Replication.Reachable(s) && Reloadable(s, device, blocked, root)
    requires var c, l, after := s.clients[device], Listing(s)[root], BootstrapAfter(s.world.db, s.ws);
             LeftBehind(Log(s), c, l, after, root, path)
                 || KeptOld(Log(s), device, c, l, after, root in staged, root, path)
    ensures IndexValue(RebuiltByReplay(s, device, blocked, staged, root), root, path)
            == LoadedValue(s.clients[device], Listing(s)[root], root, path)
  {
    hide Replication.Reachable, SoundLog, EntriesOk, ListingOk, Reconstructed, ValueAt, IndexValue, OwnHeadSkipped;
    hide ClientOk, Latest, BootstrapAfter, Listing, NotRemovedAfter, Head, LoadedValue;
    ReachableLoading(s, device, blocked, root);
    UnremovedIff(Log(s), device, s.clients[device], Listing(s), BootstrapAfter(s.world.db, s.ws), blocked, staged, root,
        path);
  }

  /** No row is left behind of a root that has a snapshot, that the client holds nothing of or that it followed. */
  lemma FollowedRootsComeBack(s: System, device: DeviceId, blocked: set<RootId>, root: RootId, path: PathId)
    requires Replication.Reachable(s) && Reloadable(s, device, blocked, root)
    requires var c, after := s.clients[device], BootstrapAfter(s.world.db, s.ws);
             Listing(s)[root].snapshot.Some? || NoEntries(c, root) || (root in c.tracked && after <= c.cursor)
    ensures !LeftBehind(Log(s), s.clients[device], Listing(s)[root], BootstrapAfter(s.world.db, s.ws), root, path)
  {
    hide Replication.Reachable, SoundLog, EntriesOk, Latest, BootstrapAfter, Listing, Head, NotRemovedAfter;
    hide Incarnation, SnapshotOk;
    var c, l, after := s.clients[device], Listing(s)[root], BootstrapAfter(s.world.db, s.ws);
    ReachableLoading(s, device, blocked, root);
    assert ListedOk(Log(s), root, l, after);
    if LeftBehind(Log(s), c, l, after, root, path) {
      ReplayReconstructs(Log(s), device, c, Listing(s), after, blocked, {}, root);
      ContentReconstructedIff(Log(s), device, c, Listing(s), after, blocked, {}, root, path);
    }
  }
}
