/**
  Resolving a file conflict while any step may fail. The file's bytes are staged first; whatever happens
  afterwards, at every single moment they are at their path, at a conflict copy or in the staging file.
*/
module Conflict {
  import opened Records
  import opened ConflictNames

  type Bytes = string

  /** An ideal digest: equal hashes mean equal bytes. */
  datatype Hash = Hash(of: Bytes)

  datatype Node = FileNode(bytes: Bytes) | DirNode
  datatype Row = FileRow(hash: Hash, seqno: int) | DirRow(seqno: int) | DeletedRow(seqno: int)

  /** The remote head of a path, fetched and decrypted. */
  datatype Head = FilePut(bytes: Bytes, seqno: int) | DirPut(seqno: int) | Deletion(seqno: int)

  /** The scanned file: its path inside the root, its place on disk and what the scan hashed. */
  datatype Item = Item(rel: string, path: string, hash: Hash)

  /** What a submission answers. */
  datatype Answer = Accepted(seqno: int) | PathConflict(current: int) | OtherError

  /** A submission of the file's content under a path, with the base it carried and what came back. */
  datatype Sent = Sent(rel: string, hash: Hash, base: int, answer: Answer)

  /** A step failed, or a directory had the name of a conflict copy. */
  datatype Trouble = Fault | Obstruction

  datatype Moment = Moment(disk: map<string, Node>, staged: Option<Bytes>)

  const ATTEMPTS: nat := 5

  predicate Under(path: string, k: string) {
    k == path || (|path| < |k| && path == k[..|path|] && k[|path|] == '/')
  }

  predicate HoldsAt(disk: map<string, Node>, path: string, b: Bytes) {
    path in disk && disk[path] == FileNode(b)
  }

  /** The names the attempts of one resolution use; `stamps` are their times to the second. */
  function CopyPath(item: Item, rootBase: string, device: string, stamp: string): string {
    ConflictRelPath(item.rel, rootBase, device, stamp)
  }

  ghost predicate Safe(disk: map<string, Node>, item: Item, copies: set<string>, b: Bytes) {
    HoldsAt(disk, item.path, b) || exists c :: c in copies && HoldsAt(disk, c, b)
  }

  ghost predicate Kept(m: Moment, item: Item, copies: set<string>, b: Bytes) {
    m.staged == Some(b) || Safe(m.disk, item, copies, b)
  }

  /** The trail only got longer, and every moment added to it kept the bytes. */
  ghost predicate Extends(before: seq<Moment>, after: seq<Moment>, item: Item, copies: set<string>, b: Bytes) {
    before <= after && forall i | |before| <= i < |after| :: Kept(after[i], item, copies, b)
  }

  lemma Chain(t: seq<Moment>, u: seq<Moment>, v: seq<Moment>, item: Item, copies: set<string>, b: Bytes)
    requires Extends(t, u, item, copies, b) && Extends(u, v, item, copies, b)
    ensures Extends(t, v, item, copies, b)
  {
    hide Kept;
    forall i | |t| <= i < |v| ensures Kept(v[i], item, copies, b) {
      if i < |u| { assert v[i] == u[i]; }
    }
  }

  lemma KeptWhile(disk: map<string, Node>, staged: Option<Bytes>, item: Item, copies: set<string>, b: Bytes)
    requires staged == Some(b) || Safe(disk, item, copies, b)
    ensures Kept(Moment(disk, staged), item, copies, b)
  {}

  lemma HeldIsSafe(disk: map<string, Node>, item: Item, copies: set<string>, b: Bytes)
    requires HoldsAt(disk, item.path, b)
    ensures Safe(disk, item, copies, b)
  {}

  lemma ExtendsSelf(trail: seq<Moment>, item: Item, copies: set<string>, b: Bytes)
    ensures Extends(trail, trail, item, copies, b)
  {}

  /** Nothing changed but at the given paths and below them. */
  ghost predicate SameOutside(before: map<string, Node>, after: map<string, Node>, places: set<string>) {
    forall k | (forall p | p in places :: !Under(p, k)) ::
        (k in after <==> k in before) && (k in after ==> after[k] == before[k])
  }

  lemma OutsideChain(a: map<string, Node>, b: map<string, Node>, c: map<string, Node>, first: set<string>,
                     second: set<string>, places: set<string>)
    requires SameOutside(a, b, first) && SameOutside(b, c, second) && first <= places && second <= places
    ensures SameOutside(a, c, places)
  {
    hide Under;
  }

  lemma RemovedOutside(a: map<string, Node>, b: map<string, Node>, path: string)
    requires b == a || b == a - {path}
    ensures SameOutside(a, b, {path})
  {}

  lemma OutsideSelf(a: map<string, Node>, places: set<string>)
    ensures SameOutside(a, a, places)
  {}

  /** Only the rows of these paths may differ. */
  ghost predicate SameRowsBut(before: map<string, Row>, after: map<string, Row>, rels: set<string>) {
    forall r | r !in rels :: (r in after <==> r in before) && (r in before ==> after[r] == before[r])
  }

  /** The head of the item's path is in its row and, unless the root is staged, on disk. */
  ghost predicate Landed(disk: map<string, Node>, index: map<string, Row>, item: Item, head: Head, stageOnly: bool) {
    && item.rel in index
    && match head
       case FilePut(b, s) =>
         index[item.rel] == FileRow(Hash(b), s) && HoldsAt(disk, item.path, if stageOnly then item.hash.of else b)
       case DirPut(s) =>
         index[item.rel] == DirRow(s)
         && if stageOnly then item.path !in disk else item.path in disk && disk[item.path] == DirNode
       case Deletion(s) => index[item.rel] == DeletedRow(s)
  }

  /** The base of a first submission under a name: the seq of the row that was there, or 0. */
  function BaseOf(index: map<string, Row>, rel: string): int {
    if rel in index then index[rel].seqno else 0
  }

  /** The tries so far went to the copy names in turn, and all but the last met a conflict. */
  ghost predicate Tried(tries: seq<Sent>, names: seq<string>, hash: Hash, before: map<string, Row>) {
    && |tries| <= |names|
    && (forall k | 0 <= k < |tries| :: tries[k].rel == names[k] && tries[k].hash == hash)
    && (forall k | 0 <= k < |tries| && names[k] !in names[..k] :: tries[k].base == BaseOf(before, names[k]))
    && (forall k | 0 <= k < |tries| - 1 :: tries[k].answer.PathConflict?)
  }

  /**
    A conflict copy holds the bytes: of a directory root under the first name whose submission was accepted,
    with a row of that seq, and of a file root, which submits no copy, under the first name.
  */
  ghost predicate CopyKept(disk: map<string, Node>, index: map<string, Row>, item: Item, tries: seq<Sent>,
                           names: seq<string>, before: map<string, Row>, isDirRoot: bool) {
    && names != [] && Tried(tries, names, item.hash, before)
    && if isDirRoot then
         && tries != [] && tries[|tries| - 1].answer.Accepted?
         && var c := names[|tries| - 1];
            HoldsAt(disk, c, item.hash.of) && c in index
            && index[c] == FileRow(item.hash, tries[|tries| - 1].answer.seqno)
       else tries == [] && HoldsAt(disk, names[0], item.hash.of)
  }

  /**
    What a resolution that succeeds has done, by the conflicting head. A deletion leaves the local file where it
    was; the same content only brings its seq; content that the client had last synced gives way to the local
    file, submitted on top of that head; anything else takes the path, and a copy keeps the local file. Only a
    local file that is newer and then loses another race is in both places.
  */
  ghost predicate Resolved(disk: map<string, Node>, index: map<string, Row>, item: Item, baseline: Option<Hash>,
                           head: Head, sent: seq<Sent>, names: seq<string>, before: map<string, Row>, stageOnly: bool,
                           isDirRoot: bool) {
    if head.Deletion? then
      && HoldsAt(disk, item.path, item.hash.of) && sent == []
      && item.rel in index && index[item.rel] == DeletedRow(head.seqno)
    else if head.FilePut? && Hash(head.bytes) == item.hash then
      && HoldsAt(disk, item.path, item.hash.of) && sent == []
      && item.rel in index && index[item.rel] == FileRow(item.hash, head.seqno)
    else if head.FilePut? && baseline == Some(Hash(head.bytes)) then
      && HoldsAt(disk, item.path, item.hash.of) && item.rel in index
      && sent != [] && sent[0].rel == item.rel && sent[0].hash == item.hash && sent[0].base == head.seqno
      && match sent[0].answer
         case Accepted(s) => |sent| == 1 && index[item.rel] == FileRow(item.hash, s)
         case PathConflict(_) =>
           index[item.rel] == FileRow(Hash(head.bytes), head.seqno)
           && CopyKept(disk, index, item, sent[1..], names, before, isDirRoot)
         case OtherError => false
    else
      Landed(disk, index, item, head, stageOnly) && CopyKept(disk, index, item, sent, names, before, isDirRoot)
  }

  function Names(item: Item, rootBase: string, device: string, stamps: seq<string>): seq<string> {
    seq(|stamps|, i requires 0 <= i < |stamps| => CopyPath(item, rootBase, device, stamps[i]))
  }

  function NameSet(names: seq<string>): set<string> {
    set p | p in names
  }

  /** How trying one copy name ends; a copy that was made stays, even if recording it fails. */
  datatype Attempt = Made(synced: bool) | Abandoned | Again

  /** What trying a name sends: nothing for a file root, and otherwise one submission with the row's seq as base. */
  ghost predicate Continues(before: seq<Sent>, after: seq<Sent>, attempt: Attempt, path: string, hash: Hash, base: int,
                            isDirRoot: bool) {
    && before <= after
    && (attempt.Made? && !isDirRoot ==> after == before)
    && (attempt.Again? ==> isDirRoot)
    && ((attempt.Made? && isDirRoot) || attempt.Again? ==>
          && |after| == |before| + 1
          && var last := after[|before|];
             && last.rel == path && last.hash == hash && last.base == base
             && (if attempt.Made? then last.answer.Accepted? else last.answer.PathConflict?))
  }

  /** A submission since then was refused for a reason other than a conflict. */
  ghost predicate RefusedSince(sent: seq<Sent>, since: nat) {
    exists k :: since <= k < |sent| && sent[k].answer.OtherError?
  }

  /** The content hash the client last synced at a path, if it was a file. */
  function Synced(index: map<string, Row>, rel: string): Option<Hash> {
    if rel in index && index[rel].FileRow? then Some(index[rel].hash) else None
  }

  /** The remote content is what the client last synced, and the local file is not. */
  predicate EditIsNewer(index: map<string, Row>, item: Item, baseline: Option<Hash>) {
    && baseline.Some? && baseline.value != item.hash
    && item.rel in index && index[item.rel].FileRow? && index[item.rel].hash == baseline.value
  }

  /** Where a scan finds a file: a file root has no relative path. */
  predicate IsLocated(item: Item, rootBase: string) {
    item.path == if item.rel == "" then rootBase else item.rel
  }

  /** No conflict copy lies at or above the file it is a copy of. */
  lemma CopiesAreElsewhere(item: Item, rootBase: string, device: string, stamp: string)
    requires IsLocated(item, rootBase)
    ensures var c := CopyPath(item, rootBase, device, stamp);
            c != item.rel && !Under(c, item.path)
  {
    hide ConflictRelPath;
    CopyIsLonger(item.rel, rootBase, device, stamp);
  }

  class Resolver {
    const rootBase: string
    const device: string
    const isDirRoot: bool
    /** A staged root only has its index updated by remote events. */
    const stageOnly: bool
    var disk: map<string, Node>
    var staged: Option<Bytes>
    var index: map<string, Row>
    ghost var trail: seq<Moment>
    ghost var sent: seq<Sent>
    /** A bootstrap ran in between, which may replace any file. */
    ghost var resynced: bool
    /** What has gone wrong so far. */
    ghost var trouble: set<Trouble>

    constructor (base: string, name: string, isDir: bool, stage: bool, files: map<string, Node>, rows: map<string, Row>)
      ensures rootBase == base && device == name && isDirRoot == isDir && stageOnly == stage
      ensures disk == files && staged == None && index == rows && trail == [] && sent == [] && !resynced
              && trouble == {}
    {
      rootBase, device, isDirRoot, stageOnly := base, name, isDir, stage;
      disk, staged, index, trail, sent, resynced, trouble := files, None, rows, [], [], false, {};
    }

    /** Any step may fail, for reasons outside this model. */
    method Fails() returns (b: bool)
      modifies this`trouble
      ensures trouble == if b then old(trouble) + {Fault} else old(trouble)
    {
      b := *;
      if b {
        trouble := trouble + {Fault};
      }
    }

    method Write(next: map<string, Node>)
      modifies this`disk, this`trail
      ensures disk == next && trail == old(trail) + [Moment(next, staged)]
    {
      disk := next;
      trail := trail + [Moment(disk, staged)];
    }

    method Stage(path: string, ghost item: Item, ghost copies: set<string>) returns (ok: bool)
      requires staged == None
      modifies this`staged, this`trail, this`trouble
      ensures ok ==> path in disk && disk[path].FileNode? && staged == Some(disk[path].bytes)
      ensures ok ==> Extends(old(trail), trail, item, copies, disk[path].bytes)
      ensures !ok ==> staged == None && trail == old(trail)
      ensures old(trouble) <= trouble && (ok || Fault in trouble || !(path in disk && disk[path].FileNode?))
    {
      var fails := Fails();
      ok := !fails && path in disk && disk[path].FileNode?;
      if ok {
        staged := Some(disk[path].bytes);
        trail := trail + [Moment(disk, staged)];
      }
    }

    /** The staging file is removed only when nothing needs it any more. */
    method Cleanup(ghost item: Item, ghost copies: set<string>, ghost b: Bytes)
      requires Safe(disk, item, copies, b)
      modifies this`staged, this`trail
      ensures staged == None && Extends(old(trail), trail, item, copies, b)
    {
      hide Safe;
      staged := None;
      trail := trail + [Moment(disk, staged)];
    }

    /** Removing a tree may stop half-way; nothing outside it is touched. */
    method RemoveAll(path: string) returns (ok: bool)
      modifies this`disk, this`trail, this`trouble
      ensures forall k | !Under(path, k) :: (k in disk <==> k in old(disk)) && (k in disk ==> disk[k] == old(disk)[k])
      ensures ok ==> path !in disk
      ensures trail == old(trail) + [Moment(disk, staged)]
      ensures old(trouble) <= trouble && (ok || Fault in trouble)
    {
      var fails := Fails();
      var left: set<string> := *;
      ok := !fails;
      Write(map k | k in disk && (!Under(path, k) || (!ok && k in left)) :: disk[k]);
    }

    /** Through a temporary file and a rename: the target is either untouched or holds the staged bytes. */
    method RestoreStaged(path: string) returns (ok: bool)
      requires staged.Some?
      modifies this`disk, this`trail, this`trouble
      ensures ok ==> disk == old(disk)[path := FileNode(staged.value)] && trail == old(trail) + [Moment(disk, staged)]
      ensures !ok ==> disk == old(disk) && trail == old(trail)
      ensures old(trouble) <= trouble && (ok || Fault in trouble || (path in disk && disk[path].DirNode?))
    {
      var fails := Fails();
      ok := !fails && !(path in disk && disk[path].DirNode?);
      if ok {
        Write(disk[path := FileNode(staged.value)]);
      }
    }

    method RestoreReplacing(path: string, ghost item: Item, ghost copies: set<string>) returns (ok: bool)
      requires staged.Some?
      modifies this`disk, this`trail, this`trouble
      ensures ok ==> HoldsAt(disk, path, staged.value)
      ensures Extends(old(trail), trail, item, copies, staged.value)
      ensures SameOutside(old(disk), disk, {path})
      ensures old(trouble) <= trouble && (ok || Fault in trouble)
    {
      var fails := Fails();
      if fails {
        return false;
      }
      if path in disk && disk[path].DirNode? {
        ok := RemoveAll(path);
        if !ok {
          return;
        }
      }
      ok := RestoreStaged(path);
    }

    /** Applying a remote event: the disk changes first, the index row last, and either may fail. */
    method Apply(rel: string, path: string, head: Head, ghost item: Item, ghost copies: set<string>) returns (ok: bool)
      requires staged.Some?
      modifies this`disk, this`index, this`trail, this`trouble
      ensures Extends(old(trail), trail, item, copies, staged.value)
      ensures SameOutside(old(disk), disk, {path})
      ensures ok ==> rel in index && index == old(index)[rel := index[rel]]
      ensures !ok ==> index == old(index)
      ensures ok && head.FilePut? ==> index[rel] == FileRow(Hash(head.bytes), head.seqno)
      ensures ok && head.DirPut? ==> index[rel] == DirRow(head.seqno)
      ensures ok && head.Deletion? ==> index[rel] == DeletedRow(head.seqno)
      ensures ok && stageOnly ==> disk == old(disk)
      ensures ok && !stageOnly && head.FilePut? ==> HoldsAt(disk, path, head.bytes)
      ensures ok && !stageOnly && head.DirPut? ==> path in disk && disk[path] == DirNode
      ensures old(trouble) <= trouble
      ensures ok || Fault in trouble || (!stageOnly && path in old(disk) &&
                if head.FilePut? then old(disk)[path].DirNode? else head.DirPut? && old(disk)[path].FileNode?)
    {
      var fails := Fails();
      if fails {
        return false;
      }
      if !stageOnly {
        match head {
          case FilePut(bytes, _) =>
            if path in disk && disk[path].DirNode? { return false; }
            Write(disk[path := FileNode(bytes)]);
          case DirPut(_) =>
            if path in disk && disk[path].FileNode? { return false; }
            Write(disk[path := DirNode]);
          case Deletion(_) =>
            var removed := RemoveAll(path);
        }
        fails := Fails();
        if fails {
          return false;
        }
      }
      match head {
        case FilePut(bytes, s) => index := index[rel := FileRow(Hash(bytes), s)];
        case DirPut(s) => index := index[rel := DirRow(s)];
        case Deletion(s) => index := index[rel := DeletedRow(s)];
      }
      return true;
    }

    /** What a fetch of the head brings, if it succeeds. */
    method FetchHead() returns (ok: bool, head: Head)
      modifies this`trouble
      ensures old(trouble) <= trouble && (ok || Fault in trouble)
    {
      var fails := Fails();
      ok := !fails;
      head :| true;
    }

    method Submit(rel: string, hash: Hash, base: int) returns (answer: Answer)
      modifies this`sent
      ensures sent == old(sent) + [Sent(rel, hash, base, answer)]
    {
      answer := *;
      sent := sent + [Sent(rel, hash, base, answer)];
    }

    /** Before a new attempt the head of the conflict path is applied; a bootstrap may run instead. */
    method ApplyCurrentHead(rel: string, path: string, seqno: int, ghost item: Item, ghost copies: set<string>)
      returns (ok: bool)
      requires staged.Some?
      modifies this`disk, this`index, this`trail, this`resynced, this`trouble
      ensures Extends(old(trail), trail, item, copies, staged.value)
      ensures (old(resynced) ==> resynced) && (!resynced ==> SameOutside(old(disk), disk, {path}))
      ensures !resynced ==> SameRowsBut(old(index), index, {rel})
      ensures old(trouble) <= trouble
      ensures ok || resynced || Fault in trouble || path in old(disk)
    {
      if seqno <= 0 {
        return true;
      }
      var resync: bool := *;
      if resync {
        var files: map<string, Node>, rows: map<string, Row> := *, *;
        Write(files);
        index := rows;
        resynced := true;
        ok := *;
        return;
      }
      var head;
      ok, head := FetchHead();
      if ok {
        ok := Apply(rel, path, head, item, copies);
      }
    }

    /** Whether the head that was just applied lets the file go back, or already equals it. */
    method HeadAllowsRetry(item: Item) returns (ok: bool, retryOnly: bool, matches: bool)
      modifies this`trouble
      ensures old(trouble) <= trouble && (ok || trouble != {})
      ensures ok ==> (retryOnly <==> item.rel !in index || index[item.rel].DeletedRow?)
      ensures ok ==> (matches <==> item.rel in index && index[item.rel].FileRow? && index[item.rel].hash == item.hash)
    {
      var fails := Fails();
      ok, retryOnly, matches := !fails, false, false;
      if ok {
        if item.rel !in index || index[item.rel].DeletedRow? {
          retryOnly := true;
        } else if index[item.rel].FileRow? {
          matches := index[item.rel].hash == item.hash;
        }
      }
    }

    /** The stale-head case: the remote content is what the client last synced, so the local edit is newer. */
    method RestoreNewerLocalEdit(item: Item, baseline: Option<Hash>, ghost copies: set<string>)
      returns (ok: bool, done: bool)
      requires staged.Some? && item.hash == Hash(staged.value)
      modifies this`disk, this`index, this`trail, this`sent, this`trouble
      ensures Extends(old(trail), trail, item, copies, staged.value)
      ensures SameOutside(old(disk), disk, {item.path})
      ensures |old(sent)| <= |sent|
      ensures ok && !EditIsNewer(old(index), item, baseline) ==>
                !done && disk == old(disk) && index == old(index) && sent == old(sent)
      ensures ok && EditIsNewer(old(index), item, baseline) ==>
                && HoldsAt(disk, item.path, staged.value)
                && |sent| == |old(sent)| + 1 && sent[..|old(sent)|] == old(sent)
                && var last := sent[|old(sent)|];
                   && last.rel == item.rel && last.hash == item.hash && last.base == old(index)[item.rel].seqno
                   && (done <==> last.answer.Accepted?) && !last.answer.OtherError?
                   && index == if done then old(index)[item.rel := FileRow(item.hash, last.answer.seqno)]
                               else old(index)
      ensures old(trouble) <= trouble
      ensures ok || trouble != {} ||
              (EditIsNewer(old(index), item, baseline) && item.path in old(disk) && old(disk)[item.path].DirNode?)
              || (|old(sent)| < |sent| && sent[|old(sent)|].answer.OtherError?)
    {
      if baseline.None? || baseline.value == item.hash {
        return true, false;
      }
      var fails := Fails();
      if fails {
        return false, false;
      }
      if item.rel !in index || !index[item.rel].FileRow? || index[item.rel].hash != baseline.value {
        return true, false;
      }
      var restored := RestoreStaged(item.path);
      fails := Fails();
      if !restored || fails {
        return false, false;
      }
      var answer := Submit(item.rel, item.hash, index[item.rel].seqno);
      match answer
      case PathConflict(_) => return true, false;
      case OtherError => return false, false;
      case Accepted(s) =>
        index := index[item.rel := FileRow(item.hash, s)];
        fails := Fails();
        return !fails, true;
    }

    /** Once renamed into place the copy stays, even if a later check fails. */
    method WriteConflictCopy(path: string, ghost item: Item, ghost copies: set<string>) returns (ok: bool)
      requires staged.Some?
      modifies this`disk, this`trail, this`trouble
      ensures Extends(old(trail), trail, item, copies, staged.value)
      ensures ok ==> HoldsAt(disk, path, staged.value)
      ensures SameOutside(old(disk), disk, {path})
      ensures old(trouble) <= trouble && (ok || trouble != {})
    {
      var fails := Fails();
      if fails {
        return false;
      }
      if path in disk && disk[path].DirNode? {
        trouble := trouble + {Obstruction};
        return false;
      }
      Write(disk[path := FileNode(staged.value)]);
      fails := Fails();
      ok := !fails;
    }

    /** The name is taken on the server: the copy is removed, if that works, and the head of the name applied. */
    method GiveUpCopy(path: string, current: int, ghost item: Item, ghost copies: set<string>) returns (applied: bool)
      requires staged.Some?
      modifies this`disk, this`index, this`trail, this`resynced, this`trouble
      ensures Extends(old(trail), trail, item, copies, staged.value)
      ensures (old(resynced) ==> resynced) && (!resynced ==> SameOutside(old(disk), disk, {path}))
      ensures !resynced ==> SameRowsBut(old(index), index, {path})
      ensures old(trouble) <= trouble && (applied || resynced || Fault in trouble)
    {
      hide SameOutside, SameRowsBut;
      ghost var start, b := disk, staged.value;
      var stuck := Fails();
      if !stuck {
        Write(disk - {path});
      }
      assert Extends(old(trail), trail, item, copies, b);
      RemovedOutside(start, disk, path);
      ghost var before, was := trail, disk;
      applied := ApplyCurrentHead(path, path, current, item, copies);
      Chain(old(trail), before, trail, item, copies, b);
      if !resynced { OutsideChain(start, was, disk, {path}, {path}, {path}); }
    }

    /** One name: write the copy, submit it unless the root is a file, and retreat if the name is taken. */
    method TryCopy(item: Item, path: string, ghost copies: set<string>) returns (attempt: Attempt)
      requires staged.Some? && path in copies
      modifies this`disk, this`index, this`trail, this`sent, this`resynced, this`trouble
      ensures Extends(old(trail), trail, item, copies, staged.value)
      ensures (old(resynced) ==> resynced) && (!resynced ==> SameOutside(old(disk), disk, {path}))
      ensures !resynced ==> SameRowsBut(old(index), index, {path})
      ensures Continues(old(sent), sent, attempt, path, item.hash, BaseOf(old(index), path), isDirRoot)
      ensures attempt.Made? ==> HoldsAt(disk, path, staged.value)
      ensures attempt.Made? && isDirRoot ==>
                path in index && index[path] == FileRow(item.hash, sent[|old(sent)|].answer.seqno)
      ensures old(trouble) <= trouble
      ensures attempt.Again? || attempt == Made(true) || trouble != {} || resynced || RefusedSince(sent, |old(sent)|)
    {
      hide SameOutside, Under, Extends, HoldsAt;
      ghost var b, before := staged.value, trail;
      var written := WriteConflictCopy(path, item, copies);
      if !written {
        return Abandoned;
      }
      if !isDirRoot {
        return Made(true);
      }
      var fails := Fails();
      if fails {
        return Abandoned;
      }
      var answer := Submit(path, item.hash, if path in index then index[path].seqno else 0);
      match answer
      case Accepted(s) =>
        index := index[path := FileRow(item.hash, s)];
        fails := Fails();
        return Made(!fails);
      case OtherError =>
        assert sent[|old(sent)|].answer.OtherError?;
        return Abandoned;
      case PathConflict(current) =>
        ghost var mid, was := trail, disk;
        var applied := GiveUpCopy(path, current, item, copies);
        Chain(before, mid, trail, item, copies, b);
        if !resynced { OutsideChain(old(disk), was, disk, {path}, {path}, {path}); }
        return if applied then Again else Abandoned;
    }

    /** The loop over conflict-copy names, one second apart, until one is uploaded or cannot be. */
    method UploadConflictCopy(item: Item, stamps: seq<string>, ghost copies: set<string>)
      returns (ok: bool, preserved: bool)
      requires staged.Some? && |stamps| == ATTEMPTS
      requires copies == set s | s in stamps :: CopyPath(item, rootBase, device, s)
      modifies this`disk, this`index, this`trail, this`sent, this`resynced, this`trouble
      ensures Extends(old(trail), trail, item, copies, staged.value)
      ensures preserved ==> Safe(disk, item, copies, staged.value)
      ensures ok ==> preserved
      ensures (old(resynced) ==> resynced) && (!resynced ==> SameOutside(old(disk), disk, copies))
      ensures !resynced ==> SameRowsBut(old(index), index, copies)
      ensures |old(sent)| <= |sent| && sent[..|old(sent)|] == old(sent)
      ensures ok && !resynced && item.hash == Hash(staged.value) ==>
                CopyKept(disk, index, item, sent[|old(sent)|..], Names(item, rootBase, device, stamps), old(index),
                         isDirRoot)
      ensures old(trouble) <= trouble
      ensures ok || trouble != {} || resynced || RefusedSince(sent, |old(sent)|) || |sent| == |old(sent)| + ATTEMPTS
    {
      hide SameOutside, Under, CopyPath, Tried, Trying, SameRowsBut, CopyKept, Names, Extends, Kept, Safe, HoldsAt;
      hide BaseOf, RefusedSince;
      ok, preserved := false, false;
      ghost var b, start, names := staged.value, disk, Names(item, rootBase, device, stamps);
      ghost var since := |sent|;
      OutsideSelf(start, copies);
      ExtendsSelf(trail, item, copies, b);
      NothingTried(names, item.hash, index, copies);
      assert sent[since..] == [];
      NameCount(item, rootBase, device, stamps);
      for attempt := 0 to ATTEMPTS
        invariant !ok && !preserved && staged == Some(b)
        invariant Extends(old(trail), trail, item, copies, b)
        invariant (old(resynced) ==> resynced) && (!resynced ==> SameOutside(start, disk, copies))
        invariant !resynced ==> SameRowsBut(old(index), index, copies)
        invariant old(sent) <= sent && |sent| == since + attempt && |names| == ATTEMPTS
        invariant !resynced ==> Trying(sent[since..], names, item.hash, old(index), index)
        invariant old(trouble) <= trouble && (attempt != 0 ==> isDirRoot)
      {
        var path := CopyPath(item, rootBase, device, stamps[attempt]);
        assert path in copies;
        assert names[attempt] == path by { NameAt(item, rootBase, device, stamps, attempt); }
        ghost var before, was, rows, asked := trail, disk, index, sent;
        var tried := TryCopy(item, path, copies);
        Chain(old(trail), before, trail, item, copies, b);
        if !resynced {
          OutsideChain(start, was, disk, copies, {path}, copies);
          RowsWithin(old(index), rows, index, path, copies);
          if tried != Abandoned && isDirRoot {
            TryNext(since, asked, sent, names, item.hash, old(index), rows, index);
          } else {
            NotTried(asked[since..], names, item.hash, old(index), rows);
          }
        }
        match tried
        case Made(synced) =>
          StillRefused(sent, |asked|, since);
          CopyIsSafe(disk, item, copies, b, path);
          if !resynced && item.hash.of == b {
            CopyMade(disk, index, item, sent[since..], names, old(index), isDirRoot);
          }
          return synced, true;
        case Abandoned =>
          StillRefused(sent, |asked|, since);
          return;
        case Again =>
      }
    }

    /** The conflicting head is fetched and applied; a directory head first takes the file's place. */
    method ApplyConflictingHead(item: Item, ghost copies: set<string>) returns (ok: bool, ghost head: Head)
      requires staged == Some(item.hash.of) && HoldsAt(disk, item.path, item.hash.of)
      modifies this`disk, this`index, this`trail, this`trouble
      ensures Extends(old(trail), trail, item, copies, staged.value) && SameOutside(old(disk), disk, {item.path})
      ensures ok ==> Landed(disk, index, item, head, stageOnly) && SameRowsBut(old(index), index, {item.rel})
      ensures old(trouble) <= trouble && (ok || trouble != {})
    {
      hide SameOutside;
      ghost var start, b := disk, staged.value;
      OutsideSelf(start, {item.path});
      var fetched, found := FetchHead();
      head := found;
      if !fetched {
        return false, head;
      }
      if found.DirPut? {
        var fails := Fails();
        if fails || item.path !in disk || !disk[item.path].FileNode? {
          return false, head;
        }
        Write(disk - {item.path});
      }
      RemovedOutside(start, disk, item.path);
      ghost var before, was := trail, disk;
      assert Extends(old(trail), trail, item, copies, b);
      ok := Apply(item.rel, item.path, found, item, copies);
      Chain(old(trail), before, trail, item, copies, b);
      OutsideChain(start, was, disk, {item.path}, {item.path}, {item.path});
    }

    /** Everything between staging and the deferred clean-up. */
    method ResolveStaged(item: Item, stamps: seq<string>, ghost copies: set<string>)
      returns (ok: bool, preserved: bool, ghost head: Head)
      requires staged == Some(item.hash.of) && HoldsAt(disk, item.path, item.hash.of) && |stamps| == ATTEMPTS
      requires copies == set s | s in stamps :: CopyPath(item, rootBase, device, s)
      modifies this`disk, this`index, this`trail, this`sent, this`resynced, this`trouble
      ensures Extends(old(trail), trail, item, copies, item.hash.of)
      ensures preserved ==> Safe(disk, item, copies, item.hash.of)
      ensures ok ==> preserved
      ensures (old(resynced) ==> resynced) && (!resynced ==> SameOutside(old(disk), disk, {item.path} + copies))
      ensures |old(sent)| <= |sent|
      ensures ok && !resynced && IsLocated(item, rootBase) ==>
                Resolved(disk, index, item, Synced(old(index), item.rel), head, sent[|old(sent)|..],
                         Names(item, rootBase, device, stamps), old(index), stageOnly, isDirRoot)
      ensures old(trouble) <= trouble
      ensures ok || trouble != {} || resynced || RefusedSince(sent, |old(sent)|) || |old(sent)| + ATTEMPTS <= |sent|
    {
      hide SameOutside, Under, CopyPath, Extends, Kept, Resolved, Landed, SameRowsBut;
      ok, preserved, head := false, false, Deletion(0);
      ghost var places, start := {item.path} + copies, disk;
      OutsideSelf(start, places);
      ExtendsSelf(trail, item, copies, item.hash.of);
      var fails := Fails();
      if fails {
        return;
      }
      var baseline: Option<Hash> :=
        if item.rel in index && index[item.rel].FileRow? then Some(index[item.rel].hash) else None;
      ghost var rows := index;
      var applied;
      applied, head := ApplyConflictingHead(item, copies);
      OutsideChain(start, disk, disk, {item.path}, places, places) by { OutsideSelf(disk, places); }
      if !applied {
        return;
      }
      ok, preserved := Reconcile(item, baseline, stamps, copies, old(trail), start, head, rows);
    }

    /** With the head applied: retry, equal content, a newer local edit, or a conflict copy. */
    method Reconcile(item: Item, baseline: Option<Hash>, stamps: seq<string>, ghost copies: set<string>,
                     ghost first: seq<Moment>, ghost start: map<string, Node>, ghost head: Head,
                     ghost rows: map<string, Row>)
      returns (ok: bool, preserved: bool)
      requires staged == Some(item.hash.of) && |stamps| == ATTEMPTS
      requires copies == set s | s in stamps :: CopyPath(item, rootBase, device, s)
      requires Extends(first, trail, item, copies, item.hash.of) && SameOutside(start, disk, {item.path} + copies)
      requires Landed(disk, index, item, head, stageOnly) && SameRowsBut(rows, index, {item.rel})
      modifies this`disk, this`index, this`trail, this`sent, this`resynced, this`trouble
      ensures Extends(first, trail, item, copies, item.hash.of)
      ensures preserved ==> Safe(disk, item, copies, item.hash.of)
      ensures ok ==> preserved
      ensures (old(resynced) ==> resynced) && (!resynced ==> SameOutside(start, disk, {item.path} + copies))
      ensures |old(sent)| <= |sent|
      ensures ok && !resynced && IsLocated(item, rootBase) ==>
                Resolved(disk, index, item, baseline, head, sent[|old(sent)|..], Names(item, rootBase, device, stamps),
                         rows, stageOnly, isDirRoot)
      ensures old(trouble) <= trouble
      ensures ok || trouble != {} || resynced || RefusedSince(sent, |old(sent)|) || |old(sent)| + ATTEMPTS <= |sent|
    {
      hide SameOutside, Under, CopyPath, Extends, Kept, CopyKept, SameRowsBut, Names, Resolved, Landed, Safe, HoldsAt;
      hide EditIsNewer;
      ok, preserved := false, false;
      ghost var b, before, was, places := item.hash.of, trail, disk, {item.path} + copies;
      ghost var names := Names(item, rootBase, device, stamps);
      var checked, retryOnly, matches := HeadAllowsRetry(item);
      if !checked {
        return;
      }
      assert sent[|old(sent)|..] == [];
      if retryOnly {
        ok := RestoreReplacing(item.path, item, copies);
        Chain(first, before, trail, item, copies, b);
        OutsideChain(start, was, disk, places, {item.path}, places);
        if ok {
          HeldIsSafe(disk, item, copies, b);
          ResolvedByRetry(was, disk, index, item, baseline, head, names, rows, stageOnly, isDirRoot);
        }
        return ok, ok;
      }
      if matches {
        ResolvedByMatch(disk, index, item, baseline, head, names, rows, stageOnly, isDirRoot);
        HeldIsSafe(disk, item, copies, b);
        return true, true;
      }
      ok, preserved := KeepLocalFile(item, baseline, stamps, copies, first, start, head, rows);
    }

    /** The head is other content: a newer local edit goes back over it, and anything else gets a conflict copy. */
    method KeepLocalFile(item: Item, baseline: Option<Hash>, stamps: seq<string>, ghost copies: set<string>,
                         ghost first: seq<Moment>, ghost start: map<string, Node>, ghost head: Head,
                         ghost rows: map<string, Row>)
      returns (ok: bool, preserved: bool)
      requires staged == Some(item.hash.of) && |stamps| == ATTEMPTS
      requires copies == set s | s in stamps :: CopyPath(item, rootBase, device, s)
      requires Extends(first, trail, item, copies, item.hash.of) && SameOutside(start, disk, {item.path} + copies)
      requires Landed(disk, index, item, head, stageOnly) && SameRowsBut(rows, index, {item.rel})
      requires item.rel in index && !index[item.rel].DeletedRow?
      requires !(index[item.rel].FileRow? && index[item.rel].hash == item.hash)
      modifies this`disk, this`index, this`trail, this`sent, this`resynced, this`trouble
      ensures Extends(first, trail, item, copies, item.hash.of)
      ensures preserved ==> Safe(disk, item, copies, item.hash.of)
      ensures ok ==> preserved
      ensures (old(resynced) ==> resynced) && (!resynced ==> SameOutside(start, disk, {item.path} + copies))
      ensures |old(sent)| <= |sent|
      ensures ok && !resynced && IsLocated(item, rootBase) ==>
                Resolved(disk, index, item, baseline, head, sent[|old(sent)|..], Names(item, rootBase, device, stamps),
                         rows, stageOnly, isDirRoot)
      ensures old(trouble) <= trouble
      ensures ok || trouble != {} || resynced || RefusedSince(sent, |old(sent)|) || |old(sent)| + ATTEMPTS <= |sent|
    {
      hide SameOutside, Under, CopyPath, Extends, Kept, CopyKept, SameRowsBut, Names, Resolved, Landed, Safe, HoldsAt;
      hide EditIsNewer;
      ok, preserved := false, false;
      ghost var b, before, was, places := item.hash.of, trail, disk, {item.path} + copies;
      ghost var names := Names(item, rootBase, device, stamps);
      ghost var landed, at := disk, index;
      if EditIsNewer(index, item, baseline) { EditLandsOnFile(disk, index, item, baseline, head, stageOnly); }
      var kept, done := RestoreNewerLocalEdit(item, baseline, copies);
      Chain(first, before, trail, item, copies, b);
      OutsideChain(start, was, disk, places, {item.path}, places);
      before, was := trail, disk;
      if !kept {
        return;
      }
      if done {
        ResolvedByEdit(landed, at, disk, index, item, baseline, head, sent[|old(sent)|..], names, rows, stageOnly,
                       isDirRoot);
        HeldIsSafe(disk, item, copies, b);
        return true, true;
      }
      ghost var asked, edited := sent, index;
      ok, preserved := UploadConflictCopy(item, stamps, copies);
      if ok && !resynced && IsLocated(item, rootBase) {
        PathStays(was, disk, index, edited, item, rootBase, device, stamps, copies);
        SameStart(disk, index, item, sent[|asked|..], names, rows, edited, isDirRoot);
        assert sent[|old(sent)|..] == asked[|old(sent)|..] + sent[|asked|..];
        ResolvedByCopy(landed, at, was, disk, index, item, baseline, head, asked[|old(sent)|..], sent[|asked|..], names,
                       rows, stageOnly, isDirRoot);
      }
      Chain(first, before, trail, item, copies, b);
      if !resynced { OutsideChain(start, was, disk, places, copies, places); }
    }

    /**
      For every combination of failing steps and repeated races: if the file did not change between scan
      and staging, its bytes are never gone, not even between two steps. On success they are at their
      path or at a conflict copy; the staging file outlives a failed resolution only if restoring failed.
      Unless a bootstrap ran in between, nothing changes but the path, the five copy names and what lies
      below them; a file that already has a copy's name is not looked at. A call that succeeds has done what
      the head it fetched asks for, and it succeeds unless a step failed, a directory had the name of a copy,
      a bootstrap ran, the server refused for another reason or met every name with a conflict.
    */
    method Resolve(item: Item, stamps: seq<string>, ghost copies: set<string>) returns (ok: bool, ghost head: Head)
      requires HoldsAt(disk, item.path, item.hash.of) && staged == None && |stamps| == ATTEMPTS
      requires copies == set s | s in stamps :: CopyPath(item, rootBase, device, s)
      modifies this
      ensures Extends(old(trail), trail, item, copies, item.hash.of)
      ensures Kept(Moment(disk, staged), item, copies, item.hash.of)
      ensures ok ==> Safe(disk, item, copies, item.hash.of) && staged == None
      ensures staged.Some? ==> !ok && staged == Some(item.hash.of)
      ensures (old(resynced) ==> resynced) && (!resynced ==> SameOutside(old(disk), disk, {item.path} + copies))
      ensures |old(sent)| <= |sent|
      ensures ok && !resynced && IsLocated(item, rootBase) ==>
                Resolved(disk, index, item, Synced(old(index), item.rel), head, sent[|old(sent)|..],
                         Names(item, rootBase, device, stamps), old(index), stageOnly, isDirRoot)
      ensures old(trouble) <= trouble
      ensures ok || trouble != {} || resynced || RefusedSince(sent, |old(sent)|) || |old(sent)| + ATTEMPTS <= |sent|
    {
      hide Extends, Kept, Safe, HoldsAt, SameOutside, Under, Resolved, Names, RefusedSince, IsLocated, CopyPath, Synced;
      head := Deletion(0);
      ghost var b, start, was, places := item.hash.of, trail, disk, {item.path} + copies;
      OutsideSelf(was, places);
      HeldIsSafe(disk, item, copies, b);
      ExtendsSelf(start, item, copies, b);
      StagedBytes(disk, item, b);
      var stagedOk := Stage(item.path, item, copies);
      if !stagedOk {
        KeptWhile(disk, staged, item, copies, b);
        return false, head;
      }
      StagedBytes(disk, item, b);
      ghost var before := trail;
      var preserved;
      ok, preserved, head := ResolveStaged(item, stamps, copies);
      Chain(start, before, trail, item, copies, b);
      before := trail;
      ghost var mid := disk;
      var retain := false;
      if !ok && !preserved {
        var restored := RestoreReplacing(item.path, item, copies);
        Chain(start, before, trail, item, copies, b);
        if !resynced { OutsideChain(was, mid, disk, places, {item.path}, places); }
        retain := !restored;
        if restored {
          HeldIsSafe(disk, item, copies, b);
        }
      }
      if !retain {
        before := trail;
        Cleanup(item, copies, b);
        Chain(start, before, trail, item, copies, b);
      }
      KeptWhile(disk, staged, item, copies, b);
    }
  }

  ghost predicate AllConflicts(tries: seq<Sent>) {
    forall k | 0 <= k < |tries| :: tries[k].answer.PathConflict?
  }

  /** All names so far were taken, and only their rows may have changed. */
  ghost predicate Trying(tries: seq<Sent>, names: seq<string>, hash: Hash, before: map<string, Row>,
                         now: map<string, Row>) {
    && Tried(tries, names, hash, before) && AllConflicts(tries)
    && SameRowsBut(before, now, NameSet(names[..|tries|]))
  }

  lemma NothingTried(names: seq<string>, hash: Hash, before: map<string, Row>, copies: set<string>)
    ensures Trying([], names, hash, before, before) && SameRowsBut(before, before, copies)
  {}

  lemma NotTried(tries: seq<Sent>, names: seq<string>, hash: Hash, before: map<string, Row>, now: map<string, Row>)
    requires Trying(tries, names, hash, before, now)
    ensures Tried(tries, names, hash, before)
  {}

  lemma StillRefused(sent: seq<Sent>, since: nat, earlier: nat)
    requires earlier <= since
    ensures RefusedSince(sent, since) ==> RefusedSince(sent, earlier)
  {}

  lemma NameCount(item: Item, rootBase: string, device: string, stamps: seq<string>)
    ensures |Names(item, rootBase, device, stamps)| == |stamps|
  {}

  lemma NameAt(item: Item, rootBase: string, device: string, stamps: seq<string>, k: nat)
    requires k < |stamps|
    ensures var names := Names(item, rootBase, device, stamps);
            |names| == |stamps| && names[k] == CopyPath(item, rootBase, device, stamps[k])
  {}

  lemma CopyIsSafe(disk: map<string, Node>, item: Item, copies: set<string>, b: Bytes, path: string)
    requires path in copies && HoldsAt(disk, path, b)
    ensures Safe(disk, item, copies, b)
  {}

  lemma CopyMade(disk: map<string, Node>, index: map<string, Row>, item: Item, tries: seq<Sent>, names: seq<string>,
                 before: map<string, Row>, isDirRoot: bool)
    requires names != [] && Tried(tries, names, item.hash, before)
    requires tries == [] <==> !isDirRoot
    requires HoldsAt(disk, names[if isDirRoot then |tries| - 1 else 0], item.hash.of)
    requires isDirRoot ==>
               && tries[|tries| - 1].answer.Accepted? && names[|tries| - 1] in index
               && index[names[|tries| - 1]] == FileRow(item.hash, tries[|tries| - 1].answer.seqno)
    ensures CopyKept(disk, index, item, tries, names, before, isDirRoot)
  {}

  lemma RowsWithin(before: map<string, Row>, rows: map<string, Row>, after: map<string, Row>, path: string,
                   copies: set<string>)
    requires SameRowsBut(before, rows, copies) && SameRowsBut(rows, after, {path}) && path in copies
    ensures SameRowsBut(before, after, copies)
  {}

  /** One more try, whose base is that of the row unless an earlier try under the same name changed it. */
  lemma TryNext(since: nat, asked: seq<Sent>, sent: seq<Sent>, names: seq<string>, hash: Hash,
                before: map<string, Row>, now: map<string, Row>, after: map<string, Row>)
    requires since <= |asked| < since + |names| && asked <= sent && |sent| == |asked| + 1
    requires Trying(asked[since..], names, hash, before, now)
    requires SameRowsBut(now, after, {names[|asked| - since]})
    requires var last := sent[|asked|];
             last.rel == names[|asked| - since] && last.hash == hash && last.base == BaseOf(now, last.rel)
    ensures Tried(sent[since..], names, hash, before)
    ensures sent[|asked|].answer.PathConflict? ==> Trying(sent[since..], names, hash, before, after)
  {
    var n := |asked| - since;
    assert sent[since..] == asked[since..] + [sent[|asked|]];
    assert names[..n + 1] == names[..n] + [names[n]];
  }

  /** Writing conflict copies touches neither the file's path nor its row. */
  lemma PathStays(was: map<string, Node>, disk: map<string, Node>, index: map<string, Row>, edited: map<string, Row>,
                  item: Item, rootBase: string, device: string, stamps: seq<string>, copies: set<string>)
    requires copies == set s | s in stamps :: CopyPath(item, rootBase, device, s)
    requires IsLocated(item, rootBase) && SameOutside(was, disk, copies) && SameRowsBut(edited, index, copies)
    ensures item.rel !in Names(item, rootBase, device, stamps)
    ensures item.path in disk <==> item.path in was
    ensures item.path in was ==> disk[item.path] == was[item.path]
    ensures item.rel in index <==> item.rel in edited
    ensures item.rel in edited ==> index[item.rel] == edited[item.rel]
  {
    hide CopyPath, Under;
    forall c | c in copies ensures c != item.rel && !Under(c, item.path) {
      var s :| s in stamps && c == CopyPath(item, rootBase, device, s);
      CopiesAreElsewhere(item, rootBase, device, s);
    }
    forall k | 0 <= k < |stamps| ensures Names(item, rootBase, device, stamps)[k] in copies {
      assert stamps[k] in stamps;
    }
  }

  /** The rows of the copy names are those from before the head was applied. */
  lemma SameStart(disk: map<string, Node>, index: map<string, Row>, item: Item, tries: seq<Sent>, names: seq<string>,
                  rows: map<string, Row>, edited: map<string, Row>, isDirRoot: bool)
    requires CopyKept(disk, index, item, tries, names, edited, isDirRoot)
    requires SameRowsBut(rows, edited, {item.rel}) && item.rel !in names
    ensures CopyKept(disk, index, item, tries, names, rows, isDirRoot)
  {}

  lemma EditLandsOnFile(disk: map<string, Node>, index: map<string, Row>, item: Item, baseline: Option<Hash>,
                        head: Head, stageOnly: bool)
    requires Landed(disk, index, item, head, stageOnly) && EditIsNewer(index, item, baseline)
    ensures item.path in disk && disk[item.path].FileNode?
  {}

  // ---- the four ways a resolution succeeds

  lemma ResolvedByRetry(landed: map<string, Node>, disk: map<string, Node>, index: map<string, Row>, item: Item,
                        baseline: Option<Hash>, head: Head, names: seq<string>, before: map<string, Row>,
                        stageOnly: bool, isDirRoot: bool)
    requires Landed(landed, index, item, head, stageOnly) && (item.rel !in index || index[item.rel].DeletedRow?)
    requires HoldsAt(disk, item.path, item.hash.of)
    ensures Resolved(disk, index, item, baseline, head, [], names, before, stageOnly, isDirRoot)
  {}

  lemma ResolvedByMatch(disk: map<string, Node>, index: map<string, Row>, item: Item, baseline: Option<Hash>,
                        head: Head, names: seq<string>, before: map<string, Row>, stageOnly: bool, isDirRoot: bool)
    requires Landed(disk, index, item, head, stageOnly) && index[item.rel].FileRow? && index[item.rel].hash == item.hash
    ensures HoldsAt(disk, item.path, item.hash.of)
    ensures Resolved(disk, index, item, baseline, head, [], names, before, stageOnly, isDirRoot)
  {}

  lemma ResolvedByEdit(landed: map<string, Node>, at: map<string, Row>, disk: map<string, Node>,
                       index: map<string, Row>, item: Item, baseline: Option<Hash>, head: Head, sent: seq<Sent>,
                       names: seq<string>, before: map<string, Row>, stageOnly: bool, isDirRoot: bool)
    requires Landed(landed, at, item, head, stageOnly) && EditIsNewer(at, item, baseline)
    requires HoldsAt(disk, item.path, item.hash.of) && |sent| == 1 && sent[0].answer.Accepted?
    requires sent[0].rel == item.rel && sent[0].hash == item.hash && sent[0].base == at[item.rel].seqno
    requires index == at[item.rel := FileRow(item.hash, sent[0].answer.seqno)]
    ensures Resolved(disk, index, item, baseline, head, sent, names, before, stageOnly, isDirRoot)
  {}

  lemma ResolvedByCopy(landed: map<string, Node>, at: map<string, Row>, was: map<string, Node>,
                       disk: map<string, Node>, index: map<string, Row>, item: Item, baseline: Option<Hash>,
                       head: Head, asked: seq<Sent>, tries: seq<Sent>, names: seq<string>, before: map<string, Row>,
                       stageOnly: bool, isDirRoot: bool)
    requires Landed(landed, at, item, head, stageOnly) && !at[item.rel].DeletedRow?
    requires !(at[item.rel].FileRow? && at[item.rel].hash == item.hash)
    requires if EditIsNewer(at, item, baseline)
             then HoldsAt(was, item.path, item.hash.of) && |asked| == 1 && asked[0].answer.PathConflict?
                  && asked[0].rel == item.rel && asked[0].hash == item.hash && asked[0].base == at[item.rel].seqno
             else was == landed && asked == []
    requires item.path in disk <==> item.path in was
    requires item.path in was ==> disk[item.path] == was[item.path]
    requires item.rel in index && index[item.rel] == at[item.rel]
    requires CopyKept(disk, index, item, tries, names, before, isDirRoot)
    ensures Resolved(disk, index, item, baseline, head, asked + tries, names, before, stageOnly, isDirRoot)
  {
    hide CopyKept;
    assert (asked + tries)[|asked|..] == tries;
    assert asked == [] ==> asked + tries == tries;
  }

  lemma StagedBytes(disk: map<string, Node>, item: Item, b: Bytes)
    requires HoldsAt(disk, item.path, b)
    ensures item.path in disk && disk[item.path] == FileNode(b)
  {}
}
