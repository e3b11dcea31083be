/**
  The live stream as a protocol: submits commit and then publish in one critical section; channel, socket
  and a one-slot notification carry the news; and a client subscribes before it first catches up. Message
  contents never matter, only that a wake-up arrives.
*/
module Stream {
  import opened Records
  import opened Hub

  /** `Catching(Some(h))`: the last page of a catch-up was read when the workspace head was h. */
  datatype Phase = Dialing | Catching(seen: Option<int>) | Idle

  datatype Link = Link(
    channel: Option<Channel>,
    socket: seq<int>,
    serverDone: bool,
    notify: bool,
    failed: bool,
    phase: Phase,
    cursor: int)

  /**
    `publishing` is a commit whose critical section has not published yet, `told` the last commit that was
    or will be published: a lifecycle event whose floor recompute fails after its commit never is.
  */
  datatype Net = Net(head: int, told: int, publishing: Option<int>, links: map<DeviceId, Link>)

  datatype Action =
    | Commit(seqno: int)
    | CommitUnpublished(seqno: int)
    | Announce
    | Subscribe(d: DeviceId)
    | Connected(d: DeviceId)
    | Forward(d: DeviceId)
    | ServerLeaves(d: DeviceId)
    | Read(d: DeviceId)
    | ReadFails(d: DeviceId)
    | Wake(d: DeviceId)
    | Fetch(d: DeviceId)
    | Finish(d: DeviceId)
    | Redial(d: DeviceId)

  function Redialled(cursor: int): Link {
    Link(None, [], false, false, false, Dialing, cursor)
  }

  function Max(a: int, b: int): int {
    if a < b then b else a
  }

  /** Only an open channel is still registered with the hub. */
  function Told(l: Link, msg: int): Link {
    if l.channel.Some? && !l.channel.value.closed then l.(channel := Some(Sent(l.channel.value, msg))) else l
  }

  /** The forwarding loop writes what the channel holds; it ends when a closed channel is drained. */
  function Forwarded(l: Link): Link {
    if l.channel.None? || l.serverDone then l
    else if l.channel.value.buffer != [] then
      l.(channel := Some(l.channel.value.(buffer := l.channel.value.buffer[1..])), socket := l.socket
          + [l.channel.value.buffer[0]])
    else if l.channel.value.closed then l.(serverDone := true)
    else l
  }

  /** A failed write, a gone client or a shutdown: the deferred unsubscribe closes the channel. */
  function ServerLeft(l: Link): Link {
    if l.channel.None? then l else l.(channel := Some(l.channel.value.(closed := true)), serverDone := true)
  }

  /** The reader turns any event into the one notification there is room for. */
  function Heard(l: Link): Link {
    if l.failed then l
    else if l.socket != [] then l.(socket := l.socket[1..], notify := true)
    else if l.serverDone then l.(failed := true)
    else l
  }

  function Moved(net: Net, l: Link, action: Action): Link {
    match action
    case Subscribe(_) => if l.phase.Dialing? && l.channel.None? then l.(channel := Some(Channel([], false))) else l
    case Connected(_) => if l.phase.Dialing? && l.channel.Some? then l.(phase := Catching(None)) else l
    case Forward(_) => Forwarded(l)
    case ServerLeaves(_) => ServerLeft(l)
    case Read(_) => Heard(l)
    case ReadFails(_) => l.(failed := true)
    case Wake(_) => if l.phase.Idle? && l.notify then l.(notify := false, phase := Catching(None)) else l
    case Fetch(_) => if l.phase.Catching? then l.(phase := Catching(Some(net.head))) else l
    case Finish(_) =>
      if l.phase.Catching? && l.phase.seen.Some? then l.(phase := Idle, cursor := Max(l.cursor, l.phase.seen.value))
          else l
    case Redial(_) => Redialled(l.cursor)
    case _ => l
  }

  function Next(net: Net, action: Action): Net {
    match action
    case Commit(seqno) => if net.publishing.None? && net.head < seqno
         then net.(head := seqno, told := seqno, publishing := Some(seqno)) else net
    case CommitUnpublished(seqno) => if net.publishing.None? && net.head < seqno then net.(head := seqno) else net
    case Announce =>
      if net.publishing.None? then net
      else net.(publishing := None, links := map d | d in net.links :: Told(net.links[d], net.publishing.value))
    case _ => if action.d in net.links then net.(links := net.links[action.d := Moved(net, net.links[action.d],
         action)]) else net
  }

  function Run(net: Net, actions: seq<Action>): Net
    decreases |actions|
  {
    if actions == [] then net else Next(Run(net, actions[..|actions| - 1]), actions[|actions| - 1])
  }

  function Initial(devices: set<DeviceId>): Net {
    Net(0, 0, None, map d | d in devices :: Redialled(0))
  }

  /** The stream can deliver no more: it was dropped, closed or has failed, and its client will redial. */
  predicate Dead(l: Link) {
    (l.channel.Some? && l.channel.value.closed) || l.serverDone || l.failed
  }

  /** What is on its way to the client, oldest first. */
  function InFlight(net: Net, l: Link): seq<int> {
    l.socket + (if l.channel.Some? then l.channel.value.buffer else []) + (if net.publishing.Some?
        then [net.publishing.value] else [])
  }

  ghost predicate Ascending(s: seq<int>, top: int) {
    (forall i, j | 0 <= i < j < |s| :: s[i] < s[j]) && (forall i | 0 <= i < |s| :: s[i] <= top)
  }

  /** News of the last published commit is on its way, or has been turned into a notification. */
  predicate Coming(net: Net, l: Link) {
    l.notify || Dead(l) || net.told in InFlight(net, l)
  }

  /** A client that has seen less than was published, and is not about to look, has news coming. */
  ghost predicate LinkOk(net: Net, l: Link) {
    && l.cursor <= net.head
    && (l.channel.None? ==> l.phase.Dialing?)
    && (l.phase.Catching? && l.phase.seen.Some? ==>
        l.phase.seen.value <= net.head && (net.told <= l.phase.seen.value || Coming(net, l)))
    && (l.phase.Idle? ==> net.told <= l.cursor || Coming(net, l))
    && (l.channel.Some? ==> |l.channel.value.buffer| <= CAPACITY)
    && Ascending(InFlight(net, l), net.told)
  }

  ghost predicate Inv(net: Net) {
    && net.told <= net.head && (net.publishing.Some? ==> net.publishing.value == net.told)
    && (forall d | d in net.links :: LinkOk(net, net.links[d]))
  }

  lemma CommitKeepsLink(net: Net, seqno: int, l: Link)
    requires LinkOk(net, l) && net.publishing.None? && net.told <= net.head < seqno
    ensures LinkOk(net.(head := seqno, told := seqno, publishing := Some(seqno)), l)
  {
    var next := net.(head := seqno, told := seqno, publishing := Some(seqno));
    assert InFlight(next, l) == InFlight(net, l) + [seqno];
    assert InFlight(next, l)[|InFlight(net, l)|] == seqno;
  }

  lemma SilenceKeepsLink(net: Net, seqno: int, l: Link)
    requires LinkOk(net, l) && net.head < seqno
    ensures LinkOk(net.(head := seqno), l)
  {
    assert InFlight(net.(head := seqno), l) == InFlight(net, l);
  }

  /** The message is in the buffer, or the subscription ended because there was no room for it. */
  lemma AnnounceKeepsLink(net: Net, l: Link)
    requires LinkOk(net, l) && net.publishing == Some(net.told)
    ensures LinkOk(net.(publishing := None), Told(l, net.told))
  {
    var next, told := net.(publishing := None), Told(l, net.told);
    if l.channel.Some? && !l.channel.value.closed && |l.channel.value.buffer| < CAPACITY {
      assert InFlight(next, told) == InFlight(net, l);
    } else {
      assert InFlight(net, l) == InFlight(next, told) + [net.told];
      AscendingPrefix(InFlight(next, told), net.told, net.told);
    }
  }

  lemma AscendingPrefix(s: seq<int>, x: int, top: int)
    requires Ascending(s + [x], top)
    ensures Ascending(s, top)
  {
    var t := s + [x];
    assert forall i | 0 <= i < |s| :: t[i] == s[i];
  }

  lemma AscendingTail(s: seq<int>, top: int)
    requires Ascending(s, top) && s != []
    ensures Ascending(s[1..], top)
  {}

  lemma ForwardKeepsLink(net: Net, l: Link)
    requires LinkOk(net, l)
    ensures LinkOk(net, Forwarded(l))
  {
    if l.channel.Some? && !l.serverDone && l.channel.value.buffer != [] {
      assert InFlight(net, Forwarded(l)) == InFlight(net, l);
    } else {
      assert InFlight(net, Forwarded(l)) == InFlight(net, l);
    }
  }

  /** A message leaves the socket only by becoming the notification. */
  lemma ReadKeepsLink(net: Net, l: Link)
    requires LinkOk(net, l)
    ensures LinkOk(net, Heard(l))
  {
    if !l.failed && l.socket != [] {
      assert InFlight(net, Heard(l)) == InFlight(net, l)[1..];
      AscendingTail(InFlight(net, l), net.told);
    } else {
      assert InFlight(net, Heard(l)) == InFlight(net, l);
    }
  }

  lemma MoveKeepsLink(net: Net, l: Link, action: Action)
    requires LinkOk(net, l) && !action.Commit? && !action.CommitUnpublished? && !action.Announce?
    requires net.publishing.Some? ==> net.publishing.value == net.told
    requires 0 <= net.told <= net.head
    ensures LinkOk(net, Moved(net, l, action))
  {
    hide Ascending, Heard, Forwarded;
    var next := Moved(net, l, action);
    if action.Forward? {
      ForwardKeepsLink(net, l);
    } else if action.Read? {
      ReadKeepsLink(net, l);
    } else if action.Redial? {
      FreshFlight(net, next);
    } else {
      assert InFlight(net, next) == InFlight(net, l);
    }
  }

  lemma FreshFlight(net: Net, l: Link)
    requires l.socket == [] && l.channel.None? && (net.publishing.Some? ==> net.publishing.value == net.told)
    ensures Ascending(InFlight(net, l), net.told)
  {}

  lemma NextKeepsInv(net: Net, action: Action)
    requires Inv(net) && 0 <= net.told
    ensures Inv(Next(net, action)) && net.head <= Next(net, action).head && net.told <= Next(net, action).told
  {
    hide LinkOk, Moved, Told;
    var next := Next(net, action);
    forall d | d in next.links ensures LinkOk(next, next.links[d]) {
      assert LinkOk(net, net.links[d]);
      match action
      case Commit(seqno) =>
        if net.publishing.None? && net.head < seqno { CommitKeepsLink(net, seqno, net.links[d]); }
      case CommitUnpublished(seqno) =>
        if net.publishing.None? && net.head < seqno { SilenceKeepsLink(net, seqno, net.links[d]); }
      case Announce =>
        if net.publishing.Some? {
          AnnounceKeepsLink(net, net.links[d]);
          SameHead(net.(publishing := None), next, next.links[d]);
        }
      case _ =>
        if action.d in net.links {
          if d == action.d { MoveKeepsLink(net, net.links[d], action); }
          SameHead(net, next, next.links[d]);
        }
    }
  }

  lemma SameHead(net: Net, next: Net, l: Link)
    requires next.head == net.head && next.told == net.told && next.publishing == net.publishing
    ensures LinkOk(net, l) == LinkOk(next, l)
  {
    assert InFlight(net, l) == InFlight(next, l);
  }

  lemma {:induction false} RunKeepsInv(net: Net, actions: seq<Action>)
    requires Inv(net) && 0 <= net.told
    ensures Inv(Run(net, actions)) && 0 <= Run(net, actions).told
    decreases |actions|
  {
    hide Inv, Next;
    if actions != [] {
      var n := |actions| - 1;
      RunKeepsInv(net, actions[..n]);
      NextKeepsInv(Run(net, actions[..n]), actions[n]);
    }
  }

  lemma InitialIsSound(devices: set<DeviceId>)
    ensures Inv(Initial(devices)) && Initial(devices).told == 0
  {}

  /**
    No lost wake-up, in any interleaving of any number of submits, publications, clients and failures:
    while a stream is alive and its client idle behind the last commit that is published at all, that
    commit is about to be published, a message sits in the channel or on the socket, or a notification is
    pending.
  */
  lemma NoLostWakeUp(devices: set<DeviceId>, actions: seq<Action>, d: DeviceId)
    requires var net := Run(Initial(devices), actions);
             d in net.links && net.links[d].phase.Idle? && !Dead(net.links[d]) && net.links[d].cursor < net.told
    ensures var net := Run(Initial(devices), actions);
            var l := net.links[d];
            l.channel.Some? && (net.publishing == Some(net.told) || net.told in l.channel.value.buffer
                || net.told in l.socket || l.notify)
  {
    hide Run, Initial, Ascending;
    InitialIsSound(devices);
    RunKeepsInv(Initial(devices), actions);
    var net := Run(Initial(devices), actions);
    assert LinkOk(net, net.links[d]);
  }

  /** What a client is told arrives in the order of the commits, each at most once. */
  lemma FanOutInOrder(devices: set<DeviceId>, actions: seq<Action>, d: DeviceId)
    requires d in Run(Initial(devices), actions).links
    ensures var net := Run(Initial(devices), actions);
            Ascending(InFlight(net, net.links[d]), net.told)
  {
    hide Run, Initial, Ascending;
    InitialIsSound(devices);
    RunKeepsInv(Initial(devices), actions);
    var net := Run(Initial(devices), actions);
    assert LinkOk(net, net.links[d]);
  }

  // ---- delivery: without further commits and failures the pieces in flight do reach the client

  /** The delivering step that is due for a client. */
  function Due(net: Net, d: DeviceId): Option<Action>
    requires d in net.links
  {
    var l := net.links[d];
    if net.publishing.Some? then Some(Announce)
    else if Dead(l) then None
    else if l.channel.None? then (if l.phase.Dialing? then Some(Subscribe(d)) else None)
    else if l.channel.value.buffer != [] then Some(Forward(d))
    else if l.socket != [] then Some(Read(d))
    else match l.phase
         case Dialing => Some(Connected(d))
         case Catching(None) => Some(Fetch(d))
         case Catching(Some(_)) => Some(Finish(d))
         case Idle => if l.notify then Some(Wake(d)) else None
  }

  /** How much is left to do before the client is idle with nothing in flight. */
  function Rank(net: Net, d: DeviceId): nat
    requires d in net.links
  {
    var l := net.links[d];
    (if net.publishing.Some? then 21 else 0)
    + (if l.channel.Some? then 20 * |l.channel.value.buffer| else 0)
    + 10 * |l.socket|
    + (if l.notify then 4 else 0)
    + match l.phase
      case Dialing => if l.channel.None? then 4 else 3
      case Catching(None) => 2
      case Catching(Some(_)) => 1
      case Idle => 0
  }

  lemma DueLowersRank(net: Net, d: DeviceId)
    requires d in net.links && Due(net, d).Some?
    ensures d in Next(net, Due(net, d).value).links
    ensures Rank(Next(net, Due(net, d).value), d) < Rank(net, d)
    ensures Next(net, Due(net, d).value).head == net.head && Next(net, Due(net, d).value).told == net.told
  {}

  function Settled(net: Net, d: DeviceId): Net
    requires d in net.links
    decreases Rank(net, d)
  {
    if Due(net, d).None? then net
    else
      DueLowersRank(net, d);
      Settled(Next(net, Due(net, d).value), d)
  }

  /**
    Left alone, delivery ends after a bounded number of steps, and it ends with the client's cursor at or
    above the last published commit, which is the head unless a publication was lost, or with a dead
    stream that its client will replace.
  */
  lemma {:induction false} DeliveryCatchesUp(net: Net, d: DeviceId)
    requires Inv(net) && 0 <= net.told && d in net.links
    ensures var end := Settled(net, d);
            d in end.links && end.head == net.head
            && (Dead(end.links[d]) || (end.links[d].phase.Idle? && net.told <= end.links[d].cursor <= net.head))
    decreases Rank(net, d)
  {
    hide LinkOk, Inv;
    if Due(net, d).Some? {
      var next := Next(net, Due(net, d).value);
      DueLowersRank(net, d);
      NextKeepsInv(net, Due(net, d).value);
      DeliveryCatchesUp(next, d);
    } else {
      QuietMeansCaughtUp(net, d);
    }
  }

  lemma QuietMeansCaughtUp(net: Net, d: DeviceId)
    requires Inv(net) && d in net.links && Due(net, d).None?
    ensures Dead(net.links[d]) || (net.links[d].phase.Idle? && net.told <= net.links[d].cursor <= net.head)
  {
    assert LinkOk(net, net.links[d]);
  }

  // ---- exactly who reaches the head

  /** Something is on its way to the client, or has been turned into a notification. */
  predicate Pending(net: Net, l: Link) {
    l.notify || InFlight(net, l) != []
  }

  /** The client is at the head, or will read it: it is about to look, or something will make it look. */
  predicate WillSeeHead(net: Net, l: Link) {
    match l.phase
    case Dialing => true
    case Catching(None) => true
    case Catching(Some(h)) => h == net.head || l.cursor == net.head || Pending(net, l)
    case Idle => l.cursor == net.head || Pending(net, l)
  }

  /** The message about to be published finds the channel full, which ends the stream. */
  predicate Overflows(net: Net, l: Link) {
    net.publishing.Some? && l.channel.Some? && |l.channel.value.buffer| == CAPACITY
  }

  /** One step of delivery neither wins nor loses the head for a live client. */
  lemma DueKeepsOutcome(net: Net, d: DeviceId)
    requires Inv(net) && d in net.links && !Dead(net.links[d]) && Due(net, d).Some?
    ensures var next := Next(net, Due(net, d).value);
            && d in next.links
            && (Dead(next.links[d]) <==> Overflows(net, net.links[d]))
            && (!Dead(next.links[d]) ==>
                  && !Overflows(next, next.links[d])
                  && (WillSeeHead(next, next.links[d]) <==> WillSeeHead(net, net.links[d])))
  {
    assert LinkOk(net, net.links[d]);
  }

  /**
    Left alone, a client ends with its cursor at the head of the workspace if and only if, before that, it was
    at the head or had anything left that makes it look, whatever that was about; and its stream ends alive
    if and only if it was alive and the message about to be published finds room.
  */
  lemma {:induction false} EndsAtHeadIff(net: Net, d: DeviceId)
    requires Inv(net) && 0 <= net.told && d in net.links
    ensures var end, l := Settled(net, d), net.links[d];
            && d in end.links && end.head == net.head
            && (Dead(end.links[d]) <==> Dead(l) || Overflows(net, l))
            && (!Dead(end.links[d]) ==> (end.links[d].cursor == net.head <==> WillSeeHead(net, l)))
    decreases Rank(net, d)
  {
    hide LinkOk, Inv, WillSeeHead, Overflows, Rank;
    DeliveryCatchesUp(net, d);
    if Dead(net.links[d]) {
      DeadStaysDead(net, d);
    } else if Due(net, d).Some? {
      var next := Next(net, Due(net, d).value);
      DueLowersRank(net, d);
      DueKeepsOutcome(net, d);
      NextKeepsInv(net, Due(net, d).value);
      EndsAtHeadIff(next, d);
    } else {
      NothingDue(net, d);
    }
  }

  lemma NothingDue(net: Net, d: DeviceId)
    requires Inv(net) && d in net.links && !Dead(net.links[d]) && Due(net, d).None?
    ensures net.links[d].cursor == net.head <==> WillSeeHead(net, net.links[d])
    ensures !Overflows(net, net.links[d])
  {
    assert LinkOk(net, net.links[d]);
  }

  lemma {:induction false} DeadStaysDead(net: Net, d: DeviceId)
    requires d in net.links && Dead(net.links[d])
    ensures d in Settled(net, d).links && Dead(Settled(net, d).links[d])
    decreases Rank(net, d)
  {
    if Due(net, d).Some? {
      DueLowersRank(net, d);
      DeadStaysDead(Next(net, Due(net, d).value), d);
    }
  }

  /** In every reachable state an idle client on a live stream gets to the head exactly if anything is pending. */
  lemma IdleReachesHeadIff(devices: set<DeviceId>, actions: seq<Action>, d: DeviceId)
    requires var net := Run(Initial(devices), actions);
             d in net.links && net.links[d].phase.Idle? && !Dead(net.links[d])
    ensures var net := Run(Initial(devices), actions);
            var end, l := Settled(net, d), net.links[d];
            && d in end.links && (Dead(end.links[d]) <==> Overflows(net, l))
            && (!Dead(end.links[d]) ==>
                  (end.links[d].cursor == net.head <==> l.cursor == net.head || Pending(net, l)))
  {
    hide Run, Initial, LinkOk, Settled, Dead, Overflows, Pending;
    InitialIsSound(devices);
    RunKeepsInv(Initial(devices), actions);
    EndsAtHeadIff(Run(Initial(devices), actions), d);
  }

  /** Where no publication is lost, the last published commit is the head of the workspace. */
  lemma {:induction false} AllPublishedMeansHead(devices: set<DeviceId>, actions: seq<Action>)
    requires forall a | a in actions :: !a.CommitUnpublished?
    ensures Run(Initial(devices), actions).told == Run(Initial(devices), actions).head
    decreases |actions|
  {
    hide Moved, Told;
    if actions != [] {
      var n := |actions| - 1;
      AllPublishedMeansHead(devices, actions[..n]);
      assert actions[n] in actions;
    }
  }

  /** There `NoLostWakeUp` speaks of the head itself, and delivery brings every client to it. */
  lemma NoLostWakeUpAtHead(devices: set<DeviceId>, actions: seq<Action>, d: DeviceId)
    requires forall a | a in actions :: !a.CommitUnpublished?
    requires d in Run(Initial(devices), actions).links
    ensures var net := Run(Initial(devices), actions);
            var end, l := Settled(net, d), net.links[d];
            && (l.phase.Idle? && !Dead(l) && l.cursor < net.head ==>
                  l.notify || net.head in InFlight(net, l))
            && d in end.links && (Dead(end.links[d]) || end.links[d].cursor == net.head)
  {
    hide Run, Initial, Settled, LinkOk;
    InitialIsSound(devices);
    RunKeepsInv(Initial(devices), actions);
    AllPublishedMeansHead(devices, actions);
    var net := Run(Initial(devices), actions);
    DeliveryCatchesUp(net, d);
    if net.links[d].phase.Idle? && !Dead(net.links[d]) && net.links[d].cursor < net.head {
      NoLostWakeUp(devices, actions, d);
    }
  }

  // ---- a lost publication

  /** The client is up to date and idle when a commit loses its publication. */
  const STRANDING_RUN: seq<Action> := [Subscribe(LAPTOP), Connected(LAPTOP), Fetch(LAPTOP), Finish(LAPTOP),
      CommitUnpublished(1)]
  const LAPTOP: DeviceId := DeviceId("laptop")

  /** The wake-up is lost: on a stream that is alive nothing is due, and the client stays behind the head. */
  lemma LostPublicationStrands()
    ensures var net := Run(Initial({LAPTOP}), STRANDING_RUN);
            && LAPTOP in net.links && Due(net, LAPTOP).None? && !Dead(net.links[LAPTOP])
            && net.links[LAPTOP].phase.Idle? && net.links[LAPTOP].cursor < net.head
  {
    hide Run, Next, Initial, Due, Dead;
    var start := Initial({LAPTOP});
    RunNext(start, STRANDING_RUN, 0);
    RunNext(start, STRANDING_RUN, 1);
    RunNext(start, STRANDING_RUN, 2);
    RunNext(start, STRANDING_RUN, 3);
    RunNext(start, STRANDING_RUN, 4);
    assert STRANDING_RUN[..5] == STRANDING_RUN;
    assert Run(start, STRANDING_RUN[..0]) == start by { NoActions(start, STRANDING_RUN); }
    CatchesUpThenMisses();
  }

  lemma NoActions(net: Net, actions: seq<Action>)
    ensures Run(net, actions[..0]) == net
  {}

  lemma RunNext(net: Net, actions: seq<Action>, n: nat)
    requires n < |actions|
    ensures Run(net, actions[..n + 1]) == Next(Run(net, actions[..n]), actions[n])
  {
    hide Next;
    assert actions[..n + 1][..n] == actions[..n];
  }

  lemma CatchesUpThenMisses()
    ensures var net0 := Initial({LAPTOP});
            var net1 := Next(net0, Subscribe(LAPTOP));
            var net2 := Next(net1, Connected(LAPTOP));
            var net3 := Next(net2, Fetch(LAPTOP));
            var net4 := Next(net3, Finish(LAPTOP));
            var net := Next(net4, CommitUnpublished(1));
            && LAPTOP in net.links && Due(net, LAPTOP).None? && !Dead(net.links[LAPTOP])
            && net.links[LAPTOP].phase.Idle? && net.links[LAPTOP].cursor < net.head
  {}

  /** Only until the next commit that is published: from there delivery reaches the head again. */
  lemma NextCommitHeals(devices: set<DeviceId>, actions: seq<Action>, d: DeviceId, seqno: int)
    requires var net := Run(Initial(devices), actions); d in net.links && net.publishing.None? && net.head < seqno
    ensures var next := Next(Run(Initial(devices), actions), Commit(seqno));
            d in next.links && var end := Settled(next, d);
            d in end.links && (Dead(end.links[d]) || (end.links[d].phase.Idle? && end.links[d].cursor == seqno))
  {
    hide Run, Initial, LinkOk, Settled;
    InitialIsSound(devices);
    RunKeepsInv(Initial(devices), actions);
    var net := Run(Initial(devices), actions);
    NextKeepsInv(net, Commit(seqno));
    DeliveryCatchesUp(Next(net, Commit(seqno)), d);
  }
}
