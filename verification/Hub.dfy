/** The fan-out hub: bounded channels, and a subscriber that cannot keep up is dropped, never skipped. */
module Hub {
  import opened Records

  const CAPACITY: nat := 32

  /** A subscriber's channel. Once closed it still hands out what it holds. */
  datatype Channel = Channel(buffer: seq<int>, closed: bool)

  /** A message either fits into the buffer or ends the subscription: it is never silently left out. */
  function Sent(c: Channel, msg: int): Channel {
    if |c.buffer| < CAPACITY then c.(buffer := c.buffer + [msg]) else c.(closed := true)
  }

  /** The socket's loop takes the oldest message. */
  function Taken(c: Channel): Channel
    requires c.buffer != []
  {
    c.(buffer := c.buffer[1..])
  }

  datatype Op = Give(msg: int) | Take

  /** One subscription: its channel, what was published since it began, and what its socket has taken. */
  datatype Subscription = Subscription(channel: Channel, published: seq<int>, received: seq<int>)

  function Did(s: Subscription, op: Op): Subscription {
    match op
    case Give(msg) =>
      s.(published := s.published + [msg], channel := if s.channel.closed then s.channel else Sent(s.channel, msg))
    case Take =>
      if s.channel.buffer == [] then s
      else s.(received := s.received + [s.channel.buffer[0]], channel := Taken(s.channel))
  }

  function Lived(ops: seq<Op>): Subscription
    decreases |ops|
  {
    if ops == [] then Subscription(Channel([], false), [], [])
    else Did(Lived(ops[..|ops| - 1]), ops[|ops| - 1])
  }

  /** Messages published but not taken, the one that found no room included. */
  function Backlog(s: Subscription): int {
    |s.published| - |s.received|
  }

  /**
    Over any sequence of publishes and takes: what the socket took and what is waiting for it is all that
    was published, in order, as long as the channel is open, and a prefix of it once it is closed.
  */
  lemma {:induction false} NothingSkipped(ops: seq<Op>)
    ensures var s := Lived(ops);
            && |s.channel.buffer| <= CAPACITY
            && s.received + s.channel.buffer <= s.published
            && (!s.channel.closed ==> s.received + s.channel.buffer == s.published)
    decreases |ops|
  {
    if ops != [] {
      var before := Lived(ops[..|ops| - 1]);
      NothingSkipped(ops[..|ops| - 1]);
      if ops[|ops| - 1].Take? && before.channel.buffer != [] {
        assert before.received + before.channel.buffer == Lived(ops).received + Lived(ops).channel.buffer;
      }
    }
  }

  /** A subscription ends exactly if its socket once fell more than the capacity behind. */
  lemma {:induction false} ClosedIffTooFarBehind(ops: seq<Op>)
    ensures Lived(ops).channel.closed <==> exists i :: 0 <= i <= |ops| && CAPACITY < Backlog(Lived(ops[..i]))
    decreases |ops|
  {
    assert ops[..|ops|] == ops;
    if ops != [] {
      var before := ops[..|ops| - 1];
      ClosedIffTooFarBehind(before);
      forall i | 0 <= i < |ops| ensures ops[..i] == before[..i] {}
      NothingSkipped(before);
      NothingSkipped(ops);
      if Lived(before).channel.closed {
        var i :| 0 <= i <= |before| && CAPACITY < Backlog(Lived(before[..i]));
        assert CAPACITY < Backlog(Lived(ops[..i]));
      } else if Lived(ops).channel.closed {
        assert CAPACITY < Backlog(Lived(ops[..|ops|]));
      }
    }
  }

  class Subscriber {
    var buffer: seq<int>
    var closed: bool

    constructor ()
      ensures State() == Channel([], false)
    {
      buffer, closed := [], false;
    }

    function State(): Channel
      reads this
    {
      Channel(buffer, closed)
    }
  }

  class Broker {
    const maxPerWorkspace: nat
    var subscribers: map<WorkspaceId, set<Subscriber>>

    /** Registered channels are open, belong to one workspace, and an empty entry is not kept. */
    ghost predicate Valid()
      reads this, Everyone()
    {
      && (forall ws | ws in subscribers :: subscribers[ws] != {})
      && (forall ws, s | ws in subscribers && s in subscribers[ws] :: !s.closed && |s.buffer| <= CAPACITY)
      && (forall v, w, s | v in subscribers && w in subscribers && s in subscribers[v] && s in subscribers[w] :: v == w)
    }

    ghost function Everyone(): set<Subscriber>
      reads this
    {
      set ws, s | ws in subscribers && s in subscribers[ws] :: s
    }

    function Of(ws: WorkspaceId): set<Subscriber>
      reads this
    {
      if ws in subscribers then subscribers[ws] else {}
    }

    constructor (limit: nat)
      ensures Valid() && subscribers == map[] && maxPerWorkspace == limit
    {
      maxPerWorkspace, subscribers := limit, map[];
    }

    /** Refused exactly when the workspace is at its limit; otherwise an empty open channel joins. */
    method Subscribe(ws: WorkspaceId) returns (sub: Subscriber?)
      requires Valid()
      modifies this
      ensures Valid()
      ensures sub == null <==> ws in old(subscribers) && |old(subscribers[ws])| >= maxPerWorkspace
      ensures sub == null ==> subscribers == old(subscribers)
      ensures sub != null ==> fresh(sub) && sub.State() == Channel([], false)
      ensures sub != null ==> subscribers == old(subscribers)[ws := old(Of(ws)) + {sub}]
    {
      if ws in subscribers && |subscribers[ws]| >= maxPerWorkspace {
        return null;
      }
      var joined := new Subscriber();
      assert joined !in Everyone();
      sub := joined;
      subscribers := subscribers[ws := Of(ws) + {joined}];
    }

    /** Leaving twice is harmless: a channel is closed at most once. */
    method Unsubscribe(ws: WorkspaceId, sub: Subscriber)
      requires Valid()
      modifies this, sub`closed
      ensures Valid()
      ensures Of(ws) == old(Of(ws)) - {sub}
      ensures forall v | v != ws :: Of(v) == old(Of(v))
      ensures sub.closed == (old(sub.closed) || sub in old(Of(ws)))
    {
      if ws in subscribers && sub in subscribers[ws] {
        var left := subscribers[ws] - {sub};
        if left == {} {
          subscribers := subscribers - {ws};
        } else {
          subscribers := subscribers[ws := left];
        }
        sub.closed := true;
      }
    }

    /** Who had room got the message at the end of the buffer; who had none is recorded as slow. */
    method Offer(ws: WorkspaceId, msg: int) returns (slow: set<Subscriber>)
      requires Valid()
      modifies Of(ws)
      ensures Valid() && slow <= Of(ws)
      ensures forall s | s in Of(ws) :: s in slow <==> old(|s.buffer|) >= CAPACITY
      ensures forall s | s in Of(ws) :: s.State() == if s in slow then old(s.State()) else Sent(old(s.State()), msg)
    {
      slow := {};
      var rest := Of(ws);
      while rest != {}
        invariant rest <= Of(ws) && slow <= Of(ws) - rest
        invariant forall s | s in Of(ws) && s !in rest :: s in slow <==> old(|s.buffer|) >= CAPACITY
        invariant forall s | s in rest :: s.State() == old(s.State())
        invariant forall s | s in Of(ws) && s !in rest :: s.State() == if s in slow then old(s.State())
                  else Sent(old(s.State()), msg)
        decreases |rest|
      {
        var sub := AnyOf(rest);
        if |sub.buffer| < CAPACITY {
          sub.buffer := sub.buffer + [msg];
        } else {
          slow := slow + {sub};
        }
        rest := rest - {sub};
      }
    }

    method DropSlow(ws: WorkspaceId, slow: set<Subscriber>)
      requires Valid() && slow <= Of(ws)
      modifies this, slow
      ensures Valid() && Of(ws) == old(Of(ws)) - slow
      ensures forall v | v != ws :: Of(v) == old(Of(v))
      ensures forall s | s in slow :: s.State() == old(s.State()).(closed := true)
    {
      hide Everyone, Of;
      var rest := slow;
      while rest != {}
        invariant rest <= slow && Valid() && Of(ws) == old(Of(ws)) - (slow - rest)
        invariant forall v | v != ws :: Of(v) == old(Of(v))
        invariant forall s | s in rest :: s.State() == old(s.State())
        invariant forall s | s in slow && s !in rest :: s.State() == old(s.State()).(closed := true)
        decreases |rest|
      {
        var sub := AnyOf(rest);
        Unsubscribe(ws, sub);
        rest := rest - {sub};
      }
    }

    /**
      Every subscriber of the workspace gets the message or is closed and leaves; no other subscriber
      notices anything.
    */
    method Publish(ws: WorkspaceId, msg: int)
      requires Valid()
      modifies this, Of(ws)
      ensures Valid()
      ensures forall s | s in old(Of(ws)) :: s.State() == Sent(old(s.State()), msg)
      ensures Of(ws) == set s | s in old(Of(ws)) && !s.closed
      ensures forall v | v != ws :: Of(v) == old(Of(v))
    {
      var slow := Offer(ws, msg);
      DropSlow(ws, slow);
    }
  }
}
