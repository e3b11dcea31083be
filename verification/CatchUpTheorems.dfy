/**
  What the paginated catch-up does when its answers come from a server whose log grows between them: at or
  above the horizon it consumes the next slice of the log, ends at the head it last saw, and leaves the
  index of every root it followed equal to the fold of the log.
*/
module CatchUpTheorems {
  import opened Records
  import opened EventLog
  import opened Tables
  import opened ServerState
  import opened ServerInvariant
  import opened RetentionTheorems
  import opened Clients
  import opened ClientProofs
  import opened ConsumeProofs
  import opened Replays
  import opened ReplicationTheorems
  import opened Follower
  import ET = EventTable

  /** What a fetch at or above the horizon returns is the next slice of the log. */
  lemma PageIsSlice(log: seq<Event>, from: nat, head: nat, cursor: int, limit: nat)
    requires Increasing(log) && At(log, from, cursor) && from <= head <= |log|
    ensures |UpTo(log[..head], cursor)| <= head
    ensures var page := Take(After(log[..head], cursor), limit);
            && from + |page| <= head && page == log[from..from + |page|]
            && |page| <= limit && (|page| < limit ==> from + |page| == head)
  {
    var seen := log[..head];
    assert Increasing(seen);
    UpToIsPrefix(seen, cursor);
    var n := |UpTo(seen, cursor)|;
    SplitIsUnique(seen, n, from, cursor);
    assert After(seen, cursor) == log[from..head];
  }

  /** A cursor splits a log in one place only. */
  lemma SplitIsUnique(log: seq<Event>, n: nat, m: nat, cursor: int)
    requires n <= |log| && m <= |log|
    requires forall i | 0 <= i < |log| :: (i < n <==> log[i].seqno <= cursor) && (i < m <==> log[i].seqno <= cursor)
    ensures n == m
  {
    assert n < |log| ==> log[n].seqno > cursor;
    assert m < |log| ==> log[m].seqno > cursor;
  }

  lemma FullPageIsHead(log: seq<Event>, to: nat, head: nat)
    requires Increasing(log) && 0 < to <= head <= |log|
    ensures log[to - 1].seqno >= Latest(log[..head]) ==> to == head
  {
    if to < head {
      assert log[to - 1].seqno < log[head - 1].seqno;
    }
  }

  /**
    Each answer is a fetch from the client's cursor, at some state of the server, with whatever positive limit
    the server grants of the one that was asked for. The workspace's log only grew between them, and `log` is
    what it was in the end.
  */
  ghost predicate Truthful(worlds: seq<World>, limits: seq<nat>, ws: WorkspaceId, log: seq<Event>,
                           answers: seq<ET.Fetched>, me: DeviceId, c: Client, occupied: set<RootId>) {
    && |worlds| == |limits| == |answers|
    && (forall i | 0 <= i < |limits| :: 0 < limits[i] <= PAGE_SIZE)
    && (forall i | 0 <= i < |worlds| :: Reachable(worlds[i]) && ws in worlds[i].logs && worlds[i].logs[ws] <= log)
    && (forall i, j | 0 <= i <= j < |worlds| :: worlds[i].logs[ws] <= worlds[j].logs[ws])
    && (forall i | 0 <= i < |answers| ::
          answers[i] == ET.Fetch(worlds[i].db, ws, CursorBefore(c, me, answers, occupied, i), limits[i]))
  }

  /** When it was answered, the client was at or above everything pruned. */
  ghost predicate AboveHorizon(worlds: seq<World>, ws: WorkspaceId, answers: seq<ET.Fetched>, me: DeviceId, c: Client,
                               occupied: set<RootId>) {
    |worlds| == |answers|
    && forall i | 0 <= i < |worlds| :: ws in worlds[i].pruned
        && worlds[i].pruned[ws] <= CursorBefore(c, me, answers, occupied, i)
  }

  lemma {:induction false} ReplayCursor(c: Client, me: DeviceId, log: seq<Event>, n: nat, m: nat, blocked: set<RootId>)
    requires Increasing(log) && n <= m <= |log| && At(log, n, c.cursor)
    ensures At(log, m, Replay(c, me, log[n..m], blocked).cursor)
    decreases m - n
  {
    hide Consumed, Increasing;
    if n < m {
      NextAt(log, n, c.cursor);
      NextCursor(c, me, log[n], log[n].root in blocked);
      assert log[n..m][1..] == log[n + 1..m];
      ReplayCursor(Consumed(c, me, log[n], log[n].root in blocked), me, log, n + 1, m, blocked);
    } else {
      assert log[n..m] == [];
    }
  }

  /** One answer above the horizon: a resync, or the next slice of the log, to its end if the page is not full. */
  lemma AnswerIsSlice(w: World, ws: WorkspaceId, log: seq<Event>, from: nat, cursor: int, limit: nat)
    requires Reachable(w) && ws in w.logs && w.logs[ws] <= log && Increasing(log)
    requires ws in w.pruned && w.pruned[ws] <= cursor && At(log, from, cursor) && from <= |w.logs[ws]|
    ensures var answer := ET.Fetch(w.db, ws, cursor, limit);
            answer.Page? ==>
              && from + |answer.events| <= |w.logs[ws]| && answer.events == log[from..from + |answer.events|]
              && |answer.events| <= limit && (|answer.events| < limit ==> from + |answer.events| == |w.logs[ws]|)
              && answer.current == Latest(w.logs[ws])
  {
    hide Reachable, Inv, ET.Fetch, Increasing, Take, After;
    ReachableStatesAreSound(w);
    var head := |w.logs[ws]|;
    assert w.logs[ws] == log[..head];
    if ET.Fetch(w.db, ws, cursor, limit).Page? {
      FloorReached(w, ws, cursor, limit);
      FetchIsComplete(w, ws, cursor, limit);
      PageIsSlice(log, from, head, cursor, limit);
      CurrentIsLatest(w, ws);
    }
  }

  lemma FloorReached(w: World, ws: WorkspaceId, cursor: int, limit: nat)
    requires ET.Fetch(w.db, ws, cursor, limit).Page?
    ensures ws in w.db.workspaces && w.db.workspaces[ws].floor <= cursor
  {
    hide ET.Ascending;
  }

  lemma CurrentIsLatest(w: World, ws: WorkspaceId)
    requires Inv(w) && ws in w.logs
    ensures ws in w.db.workspaces && w.db.workspaces[ws].current == Latest(w.logs[ws])
  {
    hide NamesOk, CountsOk, RootsOk, HeadsOk, EventsOk, FloorsOk, HorizonOk, KeysOk, Disciplined, Increasing;
    assert LogOk(w, ws);
  }

  /** All pages together are one slice of the log, nothing twice, nothing out of order, nothing missing. */
  lemma {:induction false} PagesAreSlice(worlds: seq<World>, limits: seq<nat>, ws: WorkspaceId, log: seq<Event>,
          answers: seq<ET.Fetched>, me: DeviceId, c: Client, occupied: set<RootId>, position: nat, n: nat)
    requires Truthful(worlds, limits, ws, log, answers, me, c, occupied)
             && AboveHorizon(worlds, ws, answers, me, c, occupied)
    requires Increasing(log) && At(log, position, c.cursor) && n <= |answers|
    requires n > 0 ==> position <= |worlds[0].logs[ws]|
    ensures var to := position + |Delivered(answers[..n])|;
            && to <= |log| && Delivered(answers[..n]) == log[position..to]
            && (n > 0 ==> to <= |worlds[n - 1].logs[ws]|)
            && At(log, to, CursorBefore(c, me, answers, occupied, n))
    decreases n
  {
    hide Reachable, Increasing, Replay, Delivered, ET.Fetch, At;
    if n == 0 {
      assert position <= |log| by { PositionInLog(log, position, c.cursor); }
      assert log[position..position] == [];
      NothingDelivered(c, me, answers, occupied);
      assert Delivered(answers[..0]) == [] by { DeliveredNothing(answers); }
    } else {
      PagesAreSlice(worlds, limits, ws, log, answers, me, c, occupied, position, n - 1);
      var from := position + |Delivered(answers[..n - 1])|;
      assert n == 1 ==> from == position by { DeliveredNothing(answers); }
      NextAnswerIsSlice(worlds, limits, ws, log, answers, me, c, occupied, from, n - 1);
      DeliveredNext(answers, n - 1);
      var to := from + |EventsOf(answers[n - 1])|;
      hide Truthful, AboveHorizon;
      Adjacent(log, position, from, to);
      ReplayCursor(c, me, log, position, to, occupied);
    }
  }

  /** The answer to a request from where the pages so far ended. */
  lemma NextAnswerIsSlice(worlds: seq<World>, limits: seq<nat>, ws: WorkspaceId, log: seq<Event>,
                          answers: seq<ET.Fetched>, me: DeviceId, c: Client, occupied: set<RootId>, from: nat, i: nat)
    requires Truthful(worlds, limits, ws, log, answers, me, c, occupied)
             && AboveHorizon(worlds, ws, answers, me, c, occupied)
    requires Increasing(log) && i < |answers| && At(log, from, CursorBefore(c, me, answers, occupied, i))
    requires i == 0 ==> from <= |worlds[0].logs[ws]|
    requires i > 0 ==> from <= |worlds[i - 1].logs[ws]|
    ensures var to := from + |EventsOf(answers[i])|;
            && to <= |worlds[i].logs[ws]| <= |log| && EventsOf(answers[i]) == log[from..to]
            && worlds[i].logs[ws] == log[..|worlds[i].logs[ws]|]
            && (answers[i].Page? ==> answers[i].current == Latest(worlds[i].logs[ws]))
            && |EventsOf(answers[i])| <= limits[i]
            && (answers[i].Page? && |answers[i].events| < limits[i] ==> to == |worlds[i].logs[ws]|)
  {
    hide Reachable, Increasing, Replay, Delivered, ET.Fetch, At;
    var w := worlds[i];
    assert i > 0 ==> worlds[i - 1].logs[ws] <= w.logs[ws];
    AnswerIsSlice(w, ws, log, from, CursorBefore(c, me, answers, occupied, i), limits[i]);
    assert w.logs[ws] == log[..|w.logs[ws]|];
  }

  lemma Adjacent(log: seq<Event>, a: nat, b: nat, c: nat)
    requires a <= b <= c <= |log|
    ensures log[a..b] + log[b..c] == log[a..c]
  {}

  lemma PositionInLog(log: seq<Event>, n: nat, cursor: int)
    requires At(log, n, cursor)
    ensures n <= |log|
  {}

  lemma DeliveredNothing(answers: seq<ET.Fetched>)
    ensures Delivered(answers[..0]) == []
  {}

  function Total(limits: seq<nat>): nat
    decreases |limits|
  {
    if limits == [] then 0 else Total(limits[..|limits| - 1]) + limits[|limits| - 1]
  }

  /**
    Every page that does not end the loop is full and not empty, so the loop ends once the log stops growing,
    after as many pages as the limits allow and never more than there are events.
  */
  lemma {:induction false} WaitingPagesAreFull(worlds: seq<World>, limits: seq<nat>, ws: WorkspaceId, log: seq<Event>,
          answers: seq<ET.Fetched>, me: DeviceId, c: Client, occupied: set<RootId>, position: nat, n: nat)
    requires Truthful(worlds, limits, ws, log, answers, me, c, occupied)
             && AboveHorizon(worlds, ws, answers, me, c, occupied)
    requires Increasing(log) && At(log, position, c.cursor) && n <= |answers|
    requires n > 0 ==> position <= |worlds[0].logs[ws]|
    requires forall i | 0 <= i < n :: EndOf(CursorBefore(c, me, answers, occupied, i), answers[i]).None?
    ensures Total(limits[..n]) == |Delivered(answers[..n])| && n <= |Delivered(answers[..n])|
    decreases n
  {
    hide Reachable, Increasing, Replay, Delivered, ET.Fetch, At;
    if n == 0 {
      DeliveredNothing(answers);
      assert limits[..0] == [];
    } else {
      WaitingPagesAreFull(worlds, limits, ws, log, answers, me, c, occupied, position, n - 1);
      DeliveredNext(answers, n - 1);
      assert limits[..n][..n - 1] == limits[..n - 1];
      FullPage(worlds, limits, ws, log, answers, me, c, occupied, position, n - 1);
    }
  }

  lemma FullPage(worlds: seq<World>, limits: seq<nat>, ws: WorkspaceId, log: seq<Event>, answers: seq<ET.Fetched>,
                 me: DeviceId, c: Client, occupied: set<RootId>, position: nat, i: nat)
    requires Truthful(worlds, limits, ws, log, answers, me, c, occupied)
             && AboveHorizon(worlds, ws, answers, me, c, occupied)
    requires Increasing(log) && At(log, position, c.cursor) && i < |answers| && position <= |worlds[0].logs[ws]|
    requires EndOf(CursorBefore(c, me, answers, occupied, i), answers[i]).None?
    ensures |EventsOf(answers[i])| == limits[i]
  {
    hide Reachable, Increasing, Replay, Delivered, ET.Fetch, At;
    PagesAreSlice(worlds, limits, ws, log, answers, me, c, occupied, position, i);
    var from := position + |Delivered(answers[..i])|;
    assert i == 0 ==> from == position by { DeliveredNothing(answers); }
    NextAnswerIsSlice(worlds, limits, ws, log, answers, me, c, occupied, from, i);
    var to := from + |answers[i].events|;
    assert answers[i].events[|answers[i].events| - 1] == log[to - 1];
  }

  /** Whatever was pruned meanwhile, the loop never ends because a page brought nothing new. */
  lemma NeverWithoutProgress(worlds: seq<World>, limits: seq<nat>, ws: WorkspaceId, log: seq<Event>,
                             answers: seq<ET.Fetched>, me: DeviceId, c: Client, occupied: set<RootId>, i: nat)
    requires Truthful(worlds, limits, ws, log, answers, me, c, occupied) && i < |answers|
    requires 0 <= CursorBefore(c, me, answers, occupied, i)
    ensures EndOf(CursorBefore(c, me, answers, occupied, i), answers[i]) != Some(NoProgress)
  {
    hide Reachable, Replay, Delivered, ET.Fetch, CursorBefore;
    var w, cursor, limit := worlds[i], CursorBefore(c, me, answers, occupied, i), limits[i];
    if answers[i].Page? {
      FloorReached(w, ws, cursor, limit);
      PageCurrent(w, ws, cursor, limit);
      if cursor < w.db.workspaces[ws].current {
        FetchMakesProgress(w, ws, cursor, limit);
      }
    }
  }

  lemma PageCurrent(w: World, ws: WorkspaceId, cursor: int, limit: nat)
    requires ET.Fetch(w.db, ws, cursor, limit).Page?
    ensures ws in w.db.workspaces && ET.Fetch(w.db, ws, cursor, limit).current == w.db.workspaces[ws].current
  {
    hide ET.Ascending;
  }

  /** A catch-up that ended at the head has consumed everything up to the log its last page was read from. */
  lemma CaughtUpReachesHead(worlds: seq<World>, limits: seq<nat>, ws: WorkspaceId, log: seq<Event>,
                            answers: seq<ET.Fetched>, me: DeviceId, c: Client, occupied: set<RootId>, position: nat,
                            used: nat)
    requires Truthful(worlds, limits, ws, log, answers, me, c, occupied)
             && AboveHorizon(worlds, ws, answers, me, c, occupied)
    requires Increasing(log) && At(log, position, c.cursor) && used <= |answers|
    requires used > 0 ==> position <= |worlds[0].logs[ws]|
    requires EndsAt(c, me, answers, occupied, CaughtUp, used)
    ensures position + |Delivered(answers[..used])| == |worlds[used - 1].logs[ws]|
  {
    hide Reachable, Increasing, Replay, Delivered, ET.Fetch, At;
    var i := used - 1;
    PagesAreSlice(worlds, limits, ws, log, answers, me, c, occupied, position, i);
    var from := position + |Delivered(answers[..i])|;
    assert i == 0 ==> from == position by { DeliveredNothing(answers); }
    NextAnswerIsSlice(worlds, limits, ws, log, answers, me, c, occupied, from, i);
    DeliveredNext(answers, i);
    if answers[i].events != [] {
      var to := from + |answers[i].events|;
      assert answers[i].events[|answers[i].events| - 1] == log[to - 1];
      FullPageIsHead(log, to, |worlds[i].logs[ws]|);
    }
  }

  /**
    Catch-up converges: a client at or above the horizon that caught up agrees, on every path of a root it
    followed and that was not removed meanwhile, with the log its last page was read from.
  */
  lemma CatchUpAgrees(worlds: seq<World>, limits: seq<nat>, ws: WorkspaceId, answers: seq<ET.Fetched>, me: DeviceId,
                      c: Client, occupied: set<RootId>, position: nat, root: RootId)
    requires answers != [] && |worlds| == |answers| && ws in worlds[|worlds| - 1].logs
    requires var log := worlds[|worlds| - 1].logs[ws];
             && Truthful(worlds, limits, ws, log, answers, me, c, occupied)
             && AboveHorizon(worlds, ws, answers, me, c, occupied)
             && ClientOk(log, me, c) && At(log, position, c.cursor) && position <= |worlds[0].logs[ws]|
             && (forall i | position <= i < |log| :: log[i].root == root ==> !log[i].kind.RootRemove?)
    requires EndsAt(c, me, answers, occupied, CaughtUp, |answers|) && root in c.tracked && root !in occupied
    ensures Agrees(worlds[|worlds| - 1].logs[ws], Replay(c, me, Delivered(answers), occupied), root)
  {
    hide Reachable, Replay, Delivered, ET.Fetch, At, ClientOk, Agrees, EndsAt, CursorBefore, Increasing, Disciplined;
    var log := worlds[|worlds| - 1].logs[ws];
    ReadSoundLog(worlds[|worlds| - 1], ws);
    PagesAreSlice(worlds, limits, ws, log, answers, me, c, occupied, position, |answers|);
    CaughtUpReachesHead(worlds, limits, ws, log, answers, me, c, occupied, position, |answers|);
    assert answers[..|answers|] == answers;
    assert log[position..|log|] == log[position..];
    ReplayKeepsTracked(log, me, c, position, occupied, root);
    CaughtUpAgrees(log, me, Replay(c, me, Delivered(answers), occupied), root);
  }

  lemma ReadSoundLog(w: World, ws: WorkspaceId)
    requires Reachable(w) && ws in w.logs
    ensures SoundLog(w.logs[ws]) && forall e | e in w.logs[ws] :: 1 <= e.seqno
  {
    hide NamesOk, CountsOk, RootsOk, HeadsOk, EventsOk, FloorsOk, HorizonOk, KeysOk, Disciplined, Increasing, Reachable;
    ReachableStatesAreSound(w);
    assert LogOk(w, ws);
  }
}
