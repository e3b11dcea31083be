/**
  The loops of an initial upload: submitting what the scan found, writing the collected rows, checking
  that the index still equals them, and building the snapshot to publish.
*/
module InitialSync {
  import opened Records
  import opened Clients
  import opened Follower

  /** A scanned item; uploading a file stores its chunks as the objects `chunks`. */
  datatype Found = Found(path: PathId, value: Content, chunks: seq<ObjectId>)

  /** What a submission with base 0 answers: a seq above every earlier one, a conflict, or a failure. */
  datatype Answer = Accepted(seqno: int) | Conflict | Failure

  ghost predicate Ascending(answers: seq<Answer>, created: int) {
    && (forall i | 0 <= i < |answers| && answers[i].Accepted? :: created < answers[i].seqno)
    && (forall i, j | 0 <= i < j < |answers| && answers[i].Accepted? && answers[j].Accepted? ::
          answers[i].seqno < answers[j].seqno)
  }

  /** The collected entries mirror the submitted items, in order, each at the seq it was accepted at. */
  ghost predicate Mirrors(items: seq<Found>, entries: seq<Uploaded>, created: int) {
    && |entries| <= |items|
    && (forall i | 0 <= i < |entries| ::
        entries[i].path == items[i].path && entries[i].value == items[i].value && created < entries[i].seqno)
    && (forall i, j | 0 <= i < j < |entries| :: entries[i].seqno < entries[j].seqno)
  }

  /** The chunks of the files among the items, in order. */
  function ChunksOf(items: seq<Found>): seq<ObjectId>
    decreases |items|
  {
    if items == [] then []
    else
      var last := items[|items| - 1];
      ChunksOf(items[..|items| - 1]) + (if last.value.File? then last.chunks else [])
  }

  /**
    Items go up one by one, and the server answers as it will; the first one that is not accepted ends the
    upload. What the snapshot will list and name is collected alongside.
  */
  method SubmitInitialRootEntries(items: seq<Found>, created: int, answers: seq<Answer>)
    returns (entries: seq<Uploaded>, refs: seq<ObjectId>, complete: bool, collided: Option<Found>)
    requires |answers| == |items| && Ascending(answers, created)
    ensures Mirrors(items, entries, created)
    ensures forall i | 0 <= i < |entries| :: answers[i].Accepted? && entries[i].seqno == answers[i].seqno
    ensures refs == ChunksOf(items[..|entries|])
    ensures complete <==> |entries| == |items|
    ensures !complete ==> !answers[|entries|].Accepted?
    ensures collided == if !complete && answers[|entries|].Conflict? then Some(items[|entries|]) else None
  {
    hide Mirrors, ChunksOf;
    entries, refs, collided := [], [], None;
    NothingMirrored(items, created);
    for i := 0 to |items|
      invariant |entries| == i && Mirrors(items, entries, created) && collided.None?
      invariant forall j | 0 <= j < i :: answers[j].Accepted? && entries[j].seqno == answers[j].seqno
      invariant refs == ChunksOf(items[..i])
    {
      if answers[i].Conflict? {
        return entries, refs, false, Some(items[i]);
      }
      if answers[i].Failure? {
        return entries, refs, false, None;
      }
      MirrorsNext(items, entries, created, answers[i].seqno);
      entries := entries + [Uploaded(items[i].path, items[i].value, answers[i].seqno)];
      if items[i].value.File? {
        refs := refs + items[i].chunks;
      }
    }
    complete := true;
  }

  lemma NothingMirrored(items: seq<Found>, created: int)
    ensures Mirrors(items, [], created) && ChunksOf(items[..0]) == []
  {}

  lemma MirrorsNext(items: seq<Found>, entries: seq<Uploaded>, created: int, seqno: int)
    requires Mirrors(items, entries, created) && |entries| < |items| && created < seqno
    requires entries != [] ==> entries[|entries| - 1].seqno < seqno
    ensures var item := items[|entries|];
            && Mirrors(items, entries + [Uploaded(item.path, item.value, seqno)], created)
            && ChunksOf(items[..|entries| + 1]) ==
               ChunksOf(items[..|entries|]) + (if item.value.File? then item.chunks else [])
  {
    var n := |entries|;
    assert items[..n + 1][..n] == items[..n];
    assert forall i | 0 <= i < n :: entries[i].seqno <= entries[n - 1].seqno;
  }

  /** Delete the root's rows, then insert the collected ones in order. */
  method WriteEntries(index: map<IndexKey, Entry>, root: RootId, entries: seq<Uploaded>)
    returns (next: map<IndexKey, Entry>)
    ensures next == UploadedIndex(index, root, entries)
  {
    next := map k | k in index && k.0 != root :: index[k];
    for i := 0 to |entries|
      invariant next == UploadedIndex(index, root, entries[..i])
    {
      assert entries[..i + 1][..i] == entries[..i];
      next := next[(root, entries[i].path) := Entry(entries[i].value, entries[i].seqno)];
    }
    assert entries[..|entries|] == entries;
  }

  /** Same number of rows, and every uploaded entry still as it was. */
  method StillMatches(d: Daemon, a: Adding) returns (same: bool)
    ensures same == InitialSnapshotMatches(d.State(), a)
  {
    var current := set k | k in d.index && k.0 == a.root;
    assert current == set k | k in d.State().index && k.0 == a.root;
    if |current| != |a.entries| {
      return false;
    }
    for i := 0 to |a.entries|
      invariant forall j | 0 <= j < i ::
        var k := (a.root, a.entries[j].path);
        k in d.index && d.index[k] == Entry(a.entries[j].value, a.entries[j].seqno)
    {
      var k := (a.root, a.entries[i].path);
      if k !in d.index || d.index[k].tag != a.entries[i].seqno || d.index[k].value != a.entries[i].value {
        return false;
      }
    }
    return true;
  }

  /** The payload, with the seq of the last entry as its base; an empty upload publishes nothing. */
  method BuildInitialSnapshot(me: DeviceId, entries: seq<Uploaded>) returns (s: Option<Snapshot>)
    ensures s == if entries == [] then None else Some(Snapshot(entries[|entries| - 1].seqno, UploadedContents(entries),
            me))
  {
    if entries == [] {
      return None;
    }
    var contents: map<PathId, Content> := map[];
    for i := 0 to |entries|
      invariant contents == UploadedContents(entries[..i])
    {
      assert entries[..i + 1][..i] == entries[..i];
      contents := contents[entries[i].path := entries[i].value];
    }
    assert entries[..|entries|] == entries;
    return Some(Snapshot(entries[|entries| - 1].seqno, contents, me));
  }
}
