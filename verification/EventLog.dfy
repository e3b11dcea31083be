/**
  The append-only log of one workspace and its folds. The last content event of a path wins, and a
  root's history is cut wherever the root is added or removed. Sequence numbers are handed out for
  the whole server, so one workspace's log increases strictly but has gaps.
*/
module EventLog {
  import opened Records

  ghost predicate Increasing(log: seq<Event>) {
    forall i, j | 0 <= i < j < |log| :: log[i].seqno < log[j].seqno
  }

  function Latest(log: seq<Event>): int {
    if log == [] then 0 else log[|log| - 1].seqno
  }

  /** The seq of the root_add that opened the root's current incarnation, if the root is active. */
  function Incarnation(log: seq<Event>, root: RootId): Option<int> {
    if log == [] then None
    else
      var e := log[|log| - 1];
      if e.root == root && e.kind.RootAdd? then Some(e.seqno)
      else if e.root == root && e.kind.RootRemove? then None
      else Incarnation(log[..|log| - 1], root)
  }

  /** The last content event of a path within the root's current incarnation. */
  function Head(log: seq<Event>, root: RootId, path: PathId): Option<Event> {
    if log == [] then None
    else
      var e := log[|log| - 1];
      if e.root == root && IsLifecycle(e) then None
      else if e.root == root && IsContent(e) && e.path == Some(path) then Some(e)
      else Head(log[..|log| - 1], root, path)
  }

  /** The part of an increasing log that carries a seq of at most t. */
  function UpTo(log: seq<Event>, t: int): seq<Event> {
    if log == [] || log[|log| - 1].seqno <= t then log else UpTo(log[..|log| - 1], t)
  }

  function HeadAt(log: seq<Event>, root: RootId, path: PathId, t: int): Option<Event> {
    Head(UpTo(log, t), root, path)
  }

  /** What the log gives a path at seq t. */
  function ValueAt(log: seq<Event>, root: RootId, path: PathId, t: int): Content {
    match HeadAt(log, root, path, t)
    case None => Gone
    case Some(e) => Written(e)
  }

  /** The lifecycle discipline the server enforces on every append. */
  ghost predicate Disciplined(log: seq<Event>) {
    forall i | 0 <= i < |log| ::
      && (log[i].kind.RootAdd? ==> Incarnation(log[..i], log[i].root).None?)
      && (log[i].kind.RootRemove? ==> Incarnation(log[..i], log[i].root).Some?)
      && (IsContent(log[i]) ==> Incarnation(log[..i], log[i].root).Some? && log[i].path.Some?)
      && (IsContent(log[i]) || IsLifecycle(log[i]))
  }

  lemma DisciplinedSnoc(log: seq<Event>, e: Event)
    requires Disciplined(log)
    requires e.kind.RootAdd? ==> Incarnation(log, e.root).None?
    requires e.kind.RootRemove? ==> Incarnation(log, e.root).Some?
    requires IsContent(e) ==> Incarnation(log, e.root).Some? && e.path.Some?
    requires IsContent(e) || IsLifecycle(e)
    ensures Disciplined(log + [e])
  {
    var next := log + [e];
    forall i | 0 <= i < |next|
      ensures next[..i] == if i < |log| then log[..i] else log
    {}
  }

  lemma IncreasingSnoc(log: seq<Event>, e: Event)
    requires Increasing(log) && Latest(log) < e.seqno
    ensures Increasing(log + [e])
  {}

  lemma {:induction false} UpToIsPrefix(log: seq<Event>, t: int)
    requires Increasing(log)
    ensures var n := |UpTo(log, t)|;
            n <= |log| && UpTo(log, t) == log[..n]
            && (forall i | 0 <= i < n :: log[i].seqno <= t)
            && (forall i | n <= i < |log| :: t < log[i].seqno)
  {
    if log == [] || log[|log| - 1].seqno <= t {
    } else {
      var rest := log[..|log| - 1];
      UpToIsPrefix(rest, t);
      assert UpTo(log, t) == UpTo(rest, t);
      assert rest[..|UpTo(rest, t)|] == log[..|UpTo(rest, t)|];
    }
  }

  /** Appending later events never changes what the log gave a path at an earlier seq. */
  lemma ValueAtIsStable(log: seq<Event>, e: Event, root: RootId, path: PathId, t: int)
    requires t < e.seqno
    ensures HeadAt(log + [e], root, path, t) == HeadAt(log, root, path, t)
    ensures ValueAt(log + [e], root, path, t) == ValueAt(log, root, path, t)
  {
    assert (log + [e])[..|log|] == log;
  }

  lemma {:induction false} HeadIsInLog(log: seq<Event>, root: RootId, path: PathId)
    requires Head(log, root, path).Some?
    ensures var e := Head(log, root, path).value;
            e in log && e.root == root && IsContent(e) && e.path == Some(path)
  {
    var e := log[|log| - 1];
    if !(e.root == root && IsContent(e) && e.path == Some(path)) {
      HeadIsInLog(log[..|log| - 1], root, path);
    }
  }

  lemma {:induction false} IncarnationIsInLog(log: seq<Event>, root: RootId)
    requires Increasing(log)
    requires Incarnation(log, root).Some?
    ensures exists i ::
            0 <= i < |log| && log[i].seqno == Incarnation(log, root).value && log[i].kind.RootAdd?
            && log[i].root == root
    ensures Incarnation(log, root).value <= Latest(log)
  {
    var n := |log| - 1;
    var e := log[n];
    if e.root == root && e.kind.RootAdd? {
    } else {
      var rest := log[..n];
      IncarnationIsInLog(rest, root);
      var i :| 0 <= i < |rest| && rest[i].seqno == Incarnation(rest, root).value && rest[i].kind.RootAdd?
          && rest[i].root == root;
      assert log[i] == rest[i];
    }
  }

  /** A head always lies inside the current incarnation. */
  lemma {:induction false} HeadFollowsIncarnation(log: seq<Event>, root: RootId, path: PathId)
    requires Increasing(log) && Disciplined(log)
    requires Head(log, root, path).Some?
    ensures Incarnation(log, root).Some? && Incarnation(log, root).value < Head(log, root, path).value.seqno
  {
    var n := |log| - 1;
    var rest := log[..n];
    var e := log[n];
    assert forall i | 0 <= i < n :: rest[..i] == log[..i];
    if e.root == root && IsContent(e) && e.path == Some(path) {
      assert Incarnation(log, root) == Incarnation(rest, root);
      IncarnationIsInLog(rest, root);
    } else {
      HeadFollowsIncarnation(rest, root, path);
    }
  }
}
