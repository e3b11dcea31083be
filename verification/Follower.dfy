/**
  The client's own code, statement by statement: what it does with one event, with a bootstrap response,
  and in the paginated catch-up loop.
*/
module Follower {
  import opened Records
  import opened Clients
  import opened Replays
  import ET = EventTable

  const PAGE_SIZE: nat := 1000

  class Daemon {
    const me: DeviceId
    var cursor: int
    var roots: map<RootId, LocalRoot>
    var index: map<IndexKey, Entry>
    ghost var adding: Option<Adding>
    ghost var tracked: set<RootId>
    ghost var mine: set<RootId>

    ghost function State(): Client
      reads this
    {
      Client(cursor, roots, index, adding, tracked, mine)
    }

    constructor (device: DeviceId)
      ensures me == device && State() == NEW_CLIENT
    {
      me, cursor, roots, index, adding, tracked, mine := device, 0, map[], map[], None, {}, {};
    }

    method AdvanceLastSeq(seqno: int)
      modifies this`cursor
      ensures cursor == Advanced(old(cursor), seqno)
    {
      if cursor < seqno {
        cursor := seqno;
      }
    }

    method EventMaterializedLocally(e: Event) returns (yes: bool)
      ensures yes == Materialized(State(), e)
    {
      var active := e.root in roots && roots[e.root].state.Active?;
      match e.kind
      case RootAdd =>
        return active;
      case RootRemove =>
        return e.root !in roots || roots[e.root].state.Removed?;
      case _ =>
        if !active {
          return true;
        }
        if roots[e.root].snapshotSeq >= e.seqno {
          return true;
        }
        if e.path.None? {
          return false;
        }
        yes := HasEntryNotOlder(e.root, e.path.value, e.seqno);
    }

    /** The entries of a root are looked through for one of the event's path that is not older. */
    method HasEntryNotOlder(root: RootId, path: PathId, seqno: int) returns (yes: bool)
      ensures yes <==> (root, path) in index && index[(root, path)].tag >= seqno
    {
      var entries := set k | k in index && k.0 == root;
      while entries != {}
        invariant entries <= index.Keys
        invariant (root, path) in index && (root, path) !in entries ==> index[(root, path)].tag < seqno
        decreases |entries|
      {
        var k := AnyOf(entries);
        if k == (root, path) && index[k].tag >= seqno {
          return true;
        }
        entries := entries - {k};
      }
      return false;
    }

    method MarkRootRemoved(root: RootId)
      modifies this
      ensures State() == MarkedRemoved(old(State()), root)
    {
      if root in roots {
        roots := roots[root := roots[root].(state := Removed)];
        index := map k | k in index && k.0 != root :: index[k];
        tracked, mine := tracked - {root}, mine - {root};
      }
    }

    /** `occupied` says whether the target already holds something that is not this root's. */
    method EnsureRoot(root: RootId, kind: RootKind, snapshotSeq: int, occupied: bool)
      modifies this`roots
      ensures roots == old(roots)[root := EnsuredRoot(old(State()), root, kind, snapshotSeq, occupied)]
    {
      if root in roots && roots[root].state.Active? && roots[root].kind == kind {
        roots := roots[root := LocalRoot(kind, Active, snapshotSeq)];
        return;
      }
      if occupied {
        roots := roots[root := LocalRoot(kind, Blocked, snapshotSeq)];
        return;
      }
      roots := roots[root := LocalRoot(kind, Active, snapshotSeq)];
    }

    method ApplyRemoteEvent(e: Event, occupied: bool)
      modifies this
      ensures State() == Applied(old(State()), e, occupied)
    {
      match e.kind
      case RootAdd =>
        EnsureRoot(e.root, DescribedKind(e), 0, occupied);
        tracked := Tracking(State(), e.root);
        mine := mine - {e.root};
      case RootRemove =>
        MarkRootRemoved(e.root);
      case _ =>
        if e.root in roots && roots[e.root].state.Active? && e.path.Some? {
          index := index[(e.root, e.path.value) := Entry(Written(e), e.seqno)];
        }
    }

    /** An own event is only skipped when its effect is local already; the cursor moves either way. */
    method ConsumeRemoteEvent(e: Event, occupied: bool)
      modifies this
      ensures State() == Consumed(old(State()), me, e, occupied)
    {
      if e.author == me {
        var materialized := EventMaterializedLocally(e);
        if materialized {
          AdvanceLastSeq(e.seqno);
          return;
        }
      }
      ApplyRemoteEvent(e, occupied);
      AdvanceLastSeq(e.seqno);
    }

    /**
      The paginated loop over the server's answers, as they come: the events of every page are consumed in
      order, and the loop ends as soon as an answer says so, or waits for the next one.
    */
    method CatchUp(answers: seq<ET.Fetched>, occupied: set<RootId>) returns (ending: Ending, used: nat)
      modifies this
      ensures used <= |answers| && State() == Replay(old(State()), me, Delivered(answers[..used]), occupied)
      ensures EndsAt(old(State()), me, answers, occupied, ending, used)
    {
      hide Replay, Consumed, Delivered, EndOf;
      ghost var start := State();
      used := 0;
      NothingDelivered(start, me, answers, occupied);
      while used < |answers|
        invariant used <= |answers| && State() == Replay(start, me, Delivered(answers[..used]), occupied)
        invariant forall i | 0 <= i < used :: EndOf(CursorBefore(start, me, answers, occupied, i), answers[i]).None?
      {
        var seen, answer := cursor, answers[used];
        assert EndOf(CursorBefore(start, me, answers, occupied, used), answers[used]) == EndOf(seen, answer);
        used := used + 1;
        DeliveredNext(answers, used - 1);
        if !answer.Page? {
          assert Delivered(answers[..used - 1]) + EventsOf(answer) == Delivered(answers[..used - 1]);
          EndOfRefusal(seen, answer);
          return if answer.ResyncRequired? then Resync else Failed, used;
        }
        ConsumePage(answer.events, occupied, start, Delivered(answers[..used - 1]));
        EndOfPage(seen, answer.events, answer.current);
        if |answer.events| == 0 {
          return if seen < answer.current then NoProgress else CaughtUp, used;
        }
        if answer.events[|answer.events| - 1].seqno >= answer.current {
          return CaughtUp, used;
        }
      }
      ending := Waiting;
    }

    method ConsumePage(page: seq<Event>, occupied: set<RootId>, ghost start: Client, ghost before: seq<Event>)
      requires State() == Replay(start, me, before, occupied)
      modifies this
      ensures State() == Replay(start, me, before + page, occupied)
    {
      hide Replay, Consumed;
      assert before + page[..0] == before;
      for i := 0 to |page|
        invariant State() == Replay(start, me, before + page[..i], occupied)
      {
        ReplayNext(start, me, before + page[..i], page[i], occupied);
        assert before + page[..i] + [page[i]] == before + page[..i + 1];
        ConsumeRemoteEvent(page[i], page[i].root in occupied);
      }
      assert page[..|page|] == page;
    }
  }

  /** How a catch-up can end: at the head, with a bootstrap, with an error, or not yet. */
  datatype Ending = CaughtUp | Resync | Failed | NoProgress | Waiting

  function EventsOf(answer: ET.Fetched): seq<Event> {
    if answer.Page? then answer.events else []
  }

  /** The events of a list of answers, one page after the other. */
  function Delivered(answers: seq<ET.Fetched>): seq<Event>
    decreases |answers|
  {
    if answers == [] then [] else Delivered(answers[..|answers| - 1]) + EventsOf(answers[|answers| - 1])
  }

  /** Whether an answer to a request from the cursor ends the loop, and how. */
  function EndOf(cursor: int, answer: ET.Fetched): Option<Ending> {
    match answer
    case NoWorkspace => Some(Failed)
    case ResyncRequired(_) => Some(Resync)
    case Page(events, current) =>
      if events == [] then Some(if cursor < current then NoProgress else CaughtUp)
      else if events[|events| - 1].seqno >= current then Some(CaughtUp)
      else None
  }

  /** The cursor the i-th request carries. */
  function CursorBefore(c: Client, me: DeviceId, answers: seq<ET.Fetched>, occupied: set<RootId>, i: nat): int
    requires i <= |answers|
  {
    Replay(c, me, Delivered(answers[..i]), occupied).cursor
  }

  /** The last answer used is the first that ends the loop; if none does, the loop waits for more. */
  predicate EndsAt(c: Client, me: DeviceId, answers: seq<ET.Fetched>, occupied: set<RootId>, ending: Ending, used: nat)
    requires used <= |answers|
  {
    if ending.Waiting? then
      used == |answers| && forall i | 0 <= i < used ::
          EndOf(CursorBefore(c, me, answers, occupied, i), answers[i]).None?
    else
      && 0 < used && EndOf(CursorBefore(c, me, answers, occupied, used - 1), answers[used - 1]) == Some(ending)
      && forall i | 0 <= i < used - 1 :: EndOf(CursorBefore(c, me, answers, occupied, i), answers[i]).None?
  }

  lemma EndOfRefusal(cursor: int, answer: ET.Fetched)
    requires !answer.Page?
    ensures EndOf(cursor, answer) == Some(if answer.ResyncRequired? then Resync else Failed)
  {}

  lemma EndOfPage(cursor: int, events: seq<Event>, current: int)
    ensures EndOf(cursor, ET.Page(events, current)) ==
            if events == [] then Some(if cursor < current then NoProgress else CaughtUp)
            else if events[|events| - 1].seqno >= current then Some(CaughtUp) else None
  {}

  lemma NothingDelivered(c: Client, me: DeviceId, answers: seq<ET.Fetched>, blocked: set<RootId>)
    ensures Replay(c, me, Delivered(answers[..0]), blocked) == c
  {}

  lemma DeliveredNext(answers: seq<ET.Fetched>, i: nat)
    requires i < |answers|
    ensures Delivered(answers[..i + 1]) == Delivered(answers[..i]) + EventsOf(answers[i])
  {
    assert answers[..i + 1][..i] == answers[..i];
  }

  lemma {:induction false} ReplayNext(c: Client, me: DeviceId, events: seq<Event>, e: Event, blocked: set<RootId>)
    ensures Replay(c, me, events + [e], blocked) == Consumed(Replay(c, me, events, blocked), me, e, e.root in blocked)
    decreases |events|
  {
    hide Consumed;
    if events == [] {
      assert ([] + [e])[1..] == [];
      assert (events + [e])[0] == e && (events + [e])[1..] == [];
    } else {
      assert (events + [e])[0] == events[0] && (events + [e])[1..] == events[1..] + [e];
      ReplayNext(Consumed(c, me, events[0], events[0].root in blocked), me, events[1..], e, blocked);
    }
  }
}
