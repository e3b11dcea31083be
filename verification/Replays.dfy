/**
  Replaying a part of the log, event by event: what a client still tracks afterwards, and what it does to
  one row of the index when own events may be skipped.
*/
module Replays {
  import opened Records
  import opened EventLog
  import opened Clients
  import opened ClientProofs
  import opened ConsumeProofs
  import opened BootstrapProofs
  import opened UploadProofs
  import opened AcceptanceTheorems

  /** Consuming a list of events one after the other. */
  function Replay(c: Client, me: DeviceId, events: seq<Event>, blocked: set<RootId>): Client
    decreases |events|
  {
    if events == [] then c else Replay(Consumed(c, me, events[0], events[0].root in blocked), me, events[1..], blocked)
  }

  /** The cursor lies between the n-th event and its predecessor. */
  ghost predicate At(log: seq<Event>, n: nat, cursor: int) {
    && n <= |log|
    && (forall i | 0 <= i < n :: log[i].seqno <= cursor)
    && (forall i | n <= i < |log| :: cursor < log[i].seqno)
  }

  lemma NextAt(log: seq<Event>, n: nat, cursor: int)
    requires Increasing(log) && At(log, n, cursor) && n < |log|
    ensures IsNext(log, cursor, log[n]) && At(log, n + 1, log[n].seqno)
  {
    forall f | f in log ensures f.seqno <= cursor || log[n].seqno <= f.seqno {
      var i :| 0 <= i < |log| && log[i] == f;
      assert i <= n || log[n].seqno < log[i].seqno;
    }
  }

  lemma StaysTracked(log: seq<Event>, me: DeviceId, c: Client, e: Event, blocked: bool, root: RootId)
    requires ClientOk(log, me, c) && root in c.tracked
    requires e.root == root ==> !e.kind.RootRemove? && !blocked
    ensures root in Consumed(c, me, e, blocked).tracked
  {
    hide IndexAhead, SkipsOk, EntriesOk;
    assert TrackedOk(log, me, c, root);
  }

  /** Replaying a suffix of the log keeps a root tracked unless the suffix removes it. */
  lemma {:induction false} ReplayKeepsTracked(log: seq<Event>, me: DeviceId, c: Client, n: nat, blocked: set<RootId>,
          root: RootId)
    requires SoundLog(log) && ClientOk(log, me, c) && At(log, n, c.cursor) && (forall e | e in log :: 1 <= e.seqno)
    requires root in c.tracked && root !in blocked
    requires forall i | n <= i < |log| :: log[i].root == root ==> !log[i].kind.RootRemove?
    ensures var done := Replay(c, me, log[n..], blocked);
            ClientOk(log, me, done) && root in done.tracked && done.cursor == Latest(log)
    decreases |log| - n
  {
    hide ClientOk, Consumed, Disciplined, Increasing, Latest;
    if n < |log| {
      var e := log[n];
      var events := log[n..];
      NextAt(log, n, c.cursor);
      ConsumeKeepsClient(log, me, c, e, e.root in blocked);
      StaysTracked(log, me, c, e, e.root in blocked, root);
      assert events[0] == e && events[1..] == log[n + 1..];
      var next := Consumed(c, me, e, e.root in blocked);
      ReplayKeepsTracked(log, me, next, n + 1, blocked, root);
    } else {
      assert log[n..] == [];
      AtTheEnd(log, me, c, n);
    }
  }

  lemma AtTheEnd(log: seq<Event>, me: DeviceId, c: Client, n: nat)
    requires ClientOk(log, me, c) && At(log, n, c.cursor) && n == |log|
    ensures c.cursor == Latest(log)
  {
    hide EntryOk, TrackedOk;
    if log != [] {
      assert log[|log| - 1].seqno <= c.cursor;
    }
  }

  /** A root that is active at one point of the log and never removed stays active. */
  lemma {:induction false} StaysActive(log: seq<Event>, root: RootId, i: nat, j: nat)
    requires i <= j <= |log| && Incarnation(log[..i], root).Some?
    requires forall k | i <= k < j :: log[k].root == root ==> !log[k].kind.RootRemove?
    ensures Incarnation(log[..j], root).Some?
    decreases j - i
  {
    if i < j {
      StaysActive(log, root, i, j - 1);
      assert log[..j][..j - 1] == log[..j - 1];
    }
  }

  /** No root_remove of the root above the cursor. */
  ghost predicate NotRemovedAfter(log: seq<Event>, root: RootId, after: int) {
    forall f | f in log && f.root == root && f.kind.RootRemove? :: f.seqno <= after
  }

  lemma ReadDiscipline(log: seq<Event>, i: nat)
    requires Disciplined(log) && i < |log|
    ensures log[i].kind.RootAdd? ==> Incarnation(log[..i], log[i].root).None?
    ensures IsContent(log[i]) ==> Incarnation(log[..i], log[i].root).Some?
  {}

  /** Without a removal above the cursor, all content above it belongs to the current incarnation. */
  lemma NotRemovedNotReplaced(log: seq<Event>, root: RootId, l: Listed, after: int)
    requires SoundLog(log) && ListedOk(log, root, l, after) && NotRemovedAfter(log, root, after)
    ensures !IsReplaced(log, root, l, after)
  {
    hide Disciplined, Incarnation, SnapshotOk;
    if IsReplaced(log, root, l, after) {
      var f :| f in log && ContentOn(f, root) && after < f.seqno < l.created;
      var e := CreatedEvent(log, root);
      var i :| 0 <= i < |log| && log[i] == f;
      var j :| 0 <= j < |log| && log[j] == e;
      assert i < j;
      ReadDiscipline(log, i);
      ReadDiscipline(log, j);
      forall k | i <= k < j ensures log[k].root == root ==> !log[k].kind.RootRemove? {
        assert log[k] in log;
        assert i == k || log[i].seqno < log[k].seqno;
      }
      StaysActive(log, root, i, j);
    }
  }

  // ---- one row

  predicate OnPath(e: Event, root: RootId, path: PathId) {
    e.root == root && IsContent(e) && e.path == Some(path)
  }

  function RowAt(c: Client, root: RootId, path: PathId): Option<Entry> {
    if (root, path) in c.index then Some(c.index[(root, path)]) else None
  }

  /** An own event that the client takes for materialized, given its row and its root's snapshot seq. */
  predicate Skipped(me: DeviceId, e: Event, row: Option<Entry>, snapshotSeq: int) {
    e.author == me && (e.seqno <= snapshotSeq || (row.Some? && e.seqno <= row.value.tag))
  }

  /** Well-formed events, none of which removes the root. */
  ghost predicate Keeps(events: seq<Event>, root: RootId) {
    forall e | e in events ::
      && 1 <= e.seqno && (IsContent(e) || IsLifecycle(e)) && (IsContent(e) ==> e.path.Some?)
      && (e.root == root ==> !e.kind.RootRemove?)
  }

  lemma ConsumedRow(c: Client, me: DeviceId, e: Event, blocked: bool, root: RootId, path: PathId)
    requires IsLive(c, root) && (IsContent(e) || IsLifecycle(e)) && (IsContent(e) ==> e.path.Some?)
    requires e.root == root ==> !e.kind.RootRemove? && !blocked
    ensures var next := Consumed(c, me, e, blocked);
            && IsLive(next, root)
            && (next.roots[root].snapshotSeq == c.roots[root].snapshotSeq || next.roots[root].snapshotSeq == 0)
            && RowAt(next, root, path) ==
               if OnPath(e, root, path) && !Skipped(me, e, RowAt(c, root, path), c.roots[root].snapshotSeq)
               then Some(Entry(Written(e), e.seqno)) else RowAt(c, root, path)
  {}

  ghost predicate IsLastOn(events: seq<Event>, root: RootId, path: PathId, e: Event) {
    e in events && OnPath(e, root, path) && forall f | f in events && OnPath(f, root, path) :: f.seqno <= e.seqno
  }

  /** Nobody mixed with anybody else on the path up to the seq. */
  ghost predicate OneAuthorOn(events: seq<Event>, root: RootId, path: PathId, upTo: int) {
    forall e, f | e in events && f in events && OnPath(e, root, path) && OnPath(f, root, path) && e.seqno <= upTo
        && f.seqno <= upTo ::
      e.author == f.author
  }

  ghost predicate AllSkipped(events: seq<Event>, me: DeviceId, root: RootId, path: PathId, row: Option<Entry>,
                             snapshotSeq: int) {
    forall e | e in events && OnPath(e, root, path) :: Skipped(me, e, row, snapshotSeq)
  }

  /** After a replay the row is the last event of its path, or every such event was skipped. */
  ghost predicate RowFollows(c: Client, done: Client, me: DeviceId, events: seq<Event>, root: RootId, path: PathId)
    requires root in c.roots
  {
    || (RowAt(done, root, path) == RowAt(c, root, path)
        && AllSkipped(events, me, root, path, RowAt(c, root, path), c.roots[root].snapshotSeq))
    || (exists e :: IsLastOn(events, root, path, e) && RowAt(done, root, path) == Some(Entry(Written(e), e.seqno)))
  }

  lemma {:induction false} ReplayRow(c: Client, me: DeviceId, events: seq<Event>, blocked: set<RootId>, root: RootId,
          path: PathId)
    requires Increasing(events) && Keeps(events, root) && IsLive(c, root) && root !in blocked
    requires 0 <= c.roots[root].snapshotSeq && OneAuthorOn(events, root, path, c.roots[root].snapshotSeq)
    ensures RowFollows(c, Replay(c, me, events, blocked), me, events, root, path)
    decreases |events|
  {
    hide Consumed;
    if events != [] {
      var e, rest := events[0], events[1..];
      var next := Consumed(c, me, e, e.root in blocked);
      ConsumedRow(c, me, e, e.root in blocked, root, path);
      assert Increasing(rest) && Keeps(rest, root);
      assert OneAuthorOn(rest, root, path, next.roots[root].snapshotSeq);
      ReplayRow(next, me, rest, blocked, root, path);
      RowFollowsStep(c, next, Replay(next, me, rest, blocked), me, events, root, path);
    }
  }

  lemma RowFollowsStep(c: Client, next: Client, done: Client, me: DeviceId, events: seq<Event>, root: RootId,
                       path: PathId)
    requires events != [] && Increasing(events) && Keeps(events, root) && root in c.roots && root in next.roots
    requires OneAuthorOn(events, root, path, c.roots[root].snapshotSeq)
    requires next.roots[root].snapshotSeq == c.roots[root].snapshotSeq || next.roots[root].snapshotSeq == 0
    requires 0 <= c.roots[root].snapshotSeq
    requires RowAt(next, root, path) ==
               if OnPath(events[0], root, path) && !Skipped(me, events[0], RowAt(c, root, path),
                   c.roots[root].snapshotSeq)
               then Some(Entry(Written(events[0]), events[0].seqno)) else RowAt(c, root, path)
    requires RowFollows(next, done, me, events[1..], root, path)
    ensures RowFollows(c, done, me, events, root, path)
  {
    var e, rest := events[0], events[1..];
    hide RowAt, Increasing, Keeps, Written, AllSkipped, IsLastOn;
    if f :| IsLastOn(rest, root, path, f) && RowAt(done, root, path) == Some(Entry(Written(f), f.seqno)) {
      LastOfRest(events, root, path, f);
    } else if OnPath(e, root, path) && !Skipped(me, e, RowAt(c, root, path), c.roots[root].snapshotSeq) {
      FirstIsLast(events, me, root, path, Written(e), c.roots[root].snapshotSeq, next.roots[root].snapshotSeq);
    } else {
      SkippedToo(events, me, root, path, RowAt(c, root, path), c.roots[root].snapshotSeq, next.roots[root].snapshotSeq);
    }
  }

  lemma LastOfRest(events: seq<Event>, root: RootId, path: PathId, f: Event)
    requires events != [] && Increasing(events) && IsLastOn(events[1..], root, path, f)
    ensures IsLastOn(events, root, path, f)
  {
    FirstIsLeast(events);
    hide Increasing;
    assert forall g | g in events :: g == events[0] || g in events[1..];
  }

  /** Nothing follows an applied event whose successors are all skipped: they would have to share its author. */
  lemma FirstIsLast(events: seq<Event>, me: DeviceId, root: RootId, path: PathId, value: Content, upTo: int, later: int)
    requires events != [] && Increasing(events) && Keeps(events, root) && OneAuthorOn(events, root, path, upTo)
    requires OnPath(events[0], root, path) && !(events[0].author == me && events[0].seqno <= upTo)
    requires AllSkipped(events[1..], me, root, path, Some(Entry(value, events[0].seqno)), later)
    requires later == upTo || later == 0
    ensures IsLastOn(events, root, path, events[0])
  {
    FirstIsLeast(events);
    hide Increasing;
    assert forall g | g in events :: g == events[0] || g in events[1..];
  }

  lemma SkippedToo(events: seq<Event>, me: DeviceId, root: RootId, path: PathId, row: Option<Entry>, upTo: int,
                   later: int)
    requires events != [] && Keeps(events, root)
    requires OnPath(events[0], root, path) ==> Skipped(me, events[0], row, upTo)
    requires AllSkipped(events[1..], me, root, path, row, later) && (later == upTo || later == 0) && 0 <= upTo
    ensures AllSkipped(events, me, root, path, row, upTo)
  {
    assert forall g | g in events :: g == events[0] || g in events[1..];
  }

  lemma FirstIsLeast(events: seq<Event>)
    requires Increasing(events) && events != []
    ensures forall f | f in events[1..] :: f in events && events[0].seqno < f.seqno
  {
    forall f | f in events[1..] ensures f in events && events[0].seqno < f.seqno {
      var i :| 0 <= i < |events| - 1 && events[1..][i] == f;
      assert events[i + 1] == f;
    }
  }

  /** Own events at or below the row's seq leave the row alone. */
  lemma {:induction false} ReplayPassesOver(c: Client, me: DeviceId, events: seq<Event>, blocked: set<RootId>,
          root: RootId, path: PathId)
    requires Keeps(events, root) && IsLive(c, root) && root !in blocked
    requires AllSkipped(events, me, root, path, RowAt(c, root, path), 0)
    ensures RowAt(Replay(c, me, events, blocked), root, path) == RowAt(c, root, path)
    decreases |events|
  {
    hide Consumed, RowAt;
    if events != [] {
      ConsumedRow(c, me, events[0], events[0].root in blocked, root, path);
      ReplayPassesOver(Consumed(c, me, events[0], events[0].root in blocked), me, events[1..], blocked, root, path);
    }
  }

  lemma {:induction false} ReplayConcat(c: Client, me: DeviceId, a: seq<Event>, b: seq<Event>, blocked: set<RootId>)
    ensures Replay(c, me, a + b, blocked) == Replay(Replay(c, me, a, blocked), me, b, blocked)
    decreases |a|
  {
    hide Consumed;
    if a == [] {
      assert a + b == b;
    } else {
      assert (a + b)[1..] == a[1..] + b;
      ReplayConcat(Consumed(c, me, a[0], a[0].root in blocked), me, a[1..], b, blocked);
    }
  }

  lemma {:induction false} ReplayKeepsEntries(log: seq<Event>, me: DeviceId, c: Client, n: nat, m: nat,
          blocked: set<RootId>)
    requires SoundLog(log) && EntriesOk(log, c) && n <= m <= |log| && At(log, n, c.cursor)
    requires forall e | e in log :: 1 <= e.seqno
    ensures EntriesOk(log, Replay(c, me, log[n..m], blocked)) && At(log, m, Replay(c, me, log[n..m], blocked).cursor)
    decreases m - n
  {
    hide EntriesOk, Consumed, Disciplined, Increasing;
    if n < m {
      var e := log[n];
      NextAt(log, n, c.cursor);
      NextCursor(c, me, e, e.root in blocked);
      ConsumeKeepsEntries(log, me, c, e, e.root in blocked);
      assert log[n..m][1..] == log[n + 1..m];
      ReplayKeepsEntries(log, me, Consumed(c, me, e, e.root in blocked), n + 1, m, blocked);
    } else {
      assert log[n..m] == [];
    }
  }

  // ---- a root that is removed and added again on the way

  /** The client holds nothing of the root and does not follow it. */
  predicate Emptied(c: Client, root: RootId) {
    NoEntries(c, root) && !IsLive(c, root)
  }

  lemma RemovalEmpties(log: seq<Event>, me: DeviceId, c: Client, e: Event, blocked: bool)
    requires EntriesOk(log, c) && e.kind.RootRemove?
    ensures Emptied(Consumed(c, me, e, blocked), e.root)
  {
    hide EntryOk, Latest;
  }

  lemma OtherKeepsEmptied(c: Client, me: DeviceId, e: Event, blocked: bool, root: RootId)
    requires Emptied(c, root) && (e.root == root ==> !e.kind.RootAdd?)
    ensures Emptied(Consumed(c, me, e, blocked), root)
  {}

  /** From a removal on, as long as the log has the root inactive, the client holds nothing of it. */
  lemma {:induction false} StaysEmptied(log: seq<Event>, me: DeviceId, c: Client, n: nat, m: nat,
          blocked: set<RootId>, root: RootId)
    requires SoundLog(log) && EntriesOk(log, c) && n <= m <= |log| && At(log, n, c.cursor)
    requires forall e | e in log :: 1 <= e.seqno
    requires Incarnation(log[..n], root).None? ==> Emptied(c, root)
    requires Incarnation(log[..m], root).None?
    ensures Emptied(Replay(c, me, log[n..m], blocked), root)
    decreases m - n
  {
    hide EntriesOk, Consumed, Disciplined, Increasing, Emptied;
    if n < m {
      var e := log[n];
      var next := Consumed(c, me, e, e.root in blocked);
      NextAt(log, n, c.cursor);
      NextCursor(c, me, e, e.root in blocked);
      ConsumeKeepsEntries(log, me, c, e, e.root in blocked);
      assert log[..n + 1][..n] == log[..n];
      if Incarnation(log[..n + 1], root).None? {
        if e.root == root && e.kind.RootRemove? {
          RemovalEmpties(log, me, c, e, e.root in blocked);
        } else {
          OtherKeepsEmptied(c, me, e, e.root in blocked, root);
        }
      }
      assert log[n..m][1..] == log[n + 1..m];
      StaysEmptied(log, me, next, n + 1, m, blocked, root);
    } else {
      assert log[n..m] == [];
    }
  }

  lemma AddRevives(c: Client, me: DeviceId, e: Event, path: PathId)
    requires Emptied(c, e.root) && e.kind.RootAdd?
    ensures var next := Consumed(c, me, e, false);
            IsLive(next, e.root) && next.roots[e.root].snapshotSeq == 0 && RowAt(next, e.root, path) == None
  {}
}
