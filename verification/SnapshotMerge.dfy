/**
  Applying a snapshot over a local tree: a three-way merge per file between the disk, the last synced
  row and the snapshot. What the merge may overwrite is exactly what the client had already synced.
*/
module SnapshotMerge {
  import opened Records
  import opened ConflictNames
  import opened Conflict

  datatype SyncedRow =
    | SyncedFile(hash: Hash, mode: int, mtime: int, seqno: int)
    | SyncedDir(mode: int, mtime: int, seqno: int)
    | Tombstone(seqno: int)

  datatype MergeEntry =
    | SnapshotDir(rel: string, path: string, mode: int, mtime: int)
    | SnapshotFile(rel: string, path: string, bytes: Bytes, mode: int, mtime: int)

  function PriorFile(prior: map<string, SyncedRow>, rel: string): Option<Hash> {
    if rel in prior && prior[rel].SyncedFile? then Some(prior[rel].hash) else None
  }

  /** A row keeps its seq where the snapshot brings nothing new. */
  function RowFor(prior: map<string, SyncedRow>, e: MergeEntry, base: int): SyncedRow {
    match e
    case SnapshotDir(rel, _, mode, mtime) =>
      SyncedDir(mode, mtime,
                if rel in prior && prior[rel].SyncedDir? && prior[rel].mode == mode && prior[rel].mtime == mtime
                    then prior[rel].seqno else base)
    case SnapshotFile(rel, _, bytes, mode, mtime) =>
      SyncedFile(Hash(bytes), mode, mtime, if PriorFile(prior, rel) == Some(Hash(bytes)) then prior[rel].seqno
          else base)
  }

  function CopyOf(e: MergeEntry, rootBase: string, device: string, stamp: string): string {
    ConflictRelPath(e.rel, rootBase, device, stamp)
  }

  /** One entry per path, as a scan makes them; only a file root has an entry without a relative path. */
  ghost predicate WellFormed(entries: seq<MergeEntry>, stamps: seq<string>, rootBase: string) {
    && |stamps| == |entries|
    && (forall i, j | 0 <= i < j < |entries| :: entries[i].path != entries[j].path && entries[i].rel != entries[j].rel)
    && (forall i | 0 <= i < |entries| && entries[i].SnapshotFile? ::
          && (entries[i].rel != "" || |entries| == 1)
          && entries[i].path == if entries[i].rel == "" then rootBase else entries[i].rel)
    && (forall i | 0 <= i < |stamps| :: IsStamp(stamps[i]) && |stamps[i]| == |stamps[0]|)
  }

  /** The local file, the snapshot and the last synced row are three different contents. */
  predicate Diverged(disk: map<string, Node>, prior: map<string, SyncedRow>, e: MergeEntry) {
    && e.SnapshotFile? && e.path in disk && disk[e.path].FileNode?
    && disk[e.path].bytes != e.bytes
    && PriorFile(prior, e.rel) != Some(Hash(disk[e.path].bytes))
    && PriorFile(prior, e.rel) != Some(Hash(e.bytes))
  }

  /** The local edit is kept: the snapshot brings nothing beyond the last synced content. */
  predicate LocalIsNewer(disk: map<string, Node>, prior: map<string, SyncedRow>, e: MergeEntry) {
    && e.SnapshotFile? && e.path in disk && disk[e.path].FileNode?
    && disk[e.path].bytes != e.bytes
    && PriorFile(prior, e.rel) == Some(Hash(e.bytes))
  }

  /** A file that needs a conflict copy, judged by the disk as the call finds it. */
  ghost predicate NeedsCopy(disk: map<string, Node>, prior: map<string, SyncedRow>, entries: seq<MergeEntry>, i: int) {
    0 <= i < |entries| && Diverged(disk, prior, entries[i])
  }

  /** No conflict copy that is needed has the name of a path the snapshot brings. */
  ghost predicate CopiesElsewhere(disk: map<string, Node>, prior: map<string, SyncedRow>, entries: seq<MergeEntry>,
                                  stamps: seq<string>, rootBase: string, device: string)
    requires |stamps| == |entries|
  {
    forall i, j | NeedsCopy(disk, prior, entries, i) && 0 <= j < |entries| ::
      entries[j].path != CopyOf(entries[i], rootBase, device, stamps[i])
  }

  /** A conflict copy that is needed has the name of a local file with other bytes. */
  ghost predicate TakenName(disk: map<string, Node>, prior: map<string, SyncedRow>, entries: seq<MergeEntry>,
                            stamps: seq<string>, rootBase: string, device: string)
    requires |stamps| == |entries|
  {
    exists i :: NeedsCopy(disk, prior, entries, i)
      && var c := CopyOf(entries[i], rootBase, device, stamps[i]);
         c in disk && disk[c].FileNode? && disk[c].bytes != disk[entries[i].path].bytes
  }

  lemma CopyIsElsewhere(entries: seq<MergeEntry>, stamps: seq<string>, rootBase: string, device: string, i: int)
    requires WellFormed(entries, stamps, rootBase) && 0 <= i < |entries| && entries[i].SnapshotFile?
    ensures CopyOf(entries[i], rootBase, device, stamps[i]) != entries[i].path
  {
    hide IsStamp, ConflictRelPath;
    CopyIsLonger(entries[i].rel, rootBase, device, stamps[i]);
  }

  lemma CopiesDiffer(entries: seq<MergeEntry>, stamps: seq<string>, rootBase: string, device: string, i: int, j: int)
    requires WellFormed(entries, stamps, rootBase) && 0 <= i < j < |entries|
    requires entries[i].SnapshotFile? && entries[j].SnapshotFile?
    ensures CopyOf(entries[i], rootBase, device, stamps[i]) != CopyOf(entries[j], rootBase, device, stamps[j])
  {
    hide ConflictRelPath, IsStamp;
    ConflictPathsNeverCollide(entries[i].rel, stamps[i], entries[j].rel, stamps[j], rootBase, device);
  }

  /**
    Where the bytes x of a local file p are, once the first i entries are done: still at p, at the conflict
    copy of the diverged p, or overwritten because they were exactly what had last been synced.
  */
  ghost predicate Accounted(before: map<string, Node>, disk: map<string, Node>, prior: map<string, SyncedRow>,
                            entries: seq<MergeEntry>, stamps: seq<string>, rootBase: string, device: string, i: int,
                            p: string, x: Bytes)
    requires 0 <= i <= |entries| == |stamps|
  {
    || HoldsAt(disk, p, x)
    || (exists j :: 0 <= j < i && entries[j].SnapshotFile? && entries[j].path == p
          && ((Diverged(before, prior, entries[j]) && HoldsAt(disk, CopyOf(entries[j], rootBase, device, stamps[j]), x))
              || PriorFile(prior, entries[j].rel) == Some(Hash(x))))
  }

  ghost predicate AllAccounted(before: map<string, Node>, disk: map<string, Node>, prior: map<string, SyncedRow>,
                               entries: seq<MergeEntry>, stamps: seq<string>, rootBase: string, device: string,
                               i: int)
    requires 0 <= i <= |entries| == |stamps|
  {
    forall p | p in before && before[p].FileNode? ::
        Accounted(before, disk, prior, entries, stamps, rootBase, device, i, p, before[p].bytes)
  }

  /** What one entry may do to the disk: a conflict copy appears only for a file that diverged. */
  ghost predicate MergeStep(disk: map<string, Node>, next: map<string, Node>, prior: map<string, SyncedRow>,
                            e: MergeEntry, copy: string) {
    && (forall k | k != e.path && !(k == copy && Diverged(disk, prior, e)) :: SameNode(disk, next, k))
    && (Diverged(disk, prior, e) && copy != e.path ==>
        SameNode(disk, next, copy) || HoldsAt(next, copy, disk[e.path].bytes))
    && (e.SnapshotDir? && e.path in disk && disk[e.path].FileNode? ==> SameNode(disk, next, e.path))
    && (e.SnapshotFile? && e.path in disk && disk[e.path].FileNode? ==>
          var x := disk[e.path].bytes;
          HoldsAt(next, e.path, x) || (Diverged(disk, prior, e) && HoldsAt(next, copy, x))
              || PriorFile(prior, e.rel) == Some(Hash(x)))
  }

  ghost predicate SameNode(disk: map<string, Node>, next: map<string, Node>, k: string) {
    (k in next <==> k in disk) && (k in disk ==> next[k] == disk[k])
  }

  /** The paths of the entries still to come are as the call found them. */
  ghost predicate Untouched(before: map<string, Node>, disk: map<string, Node>, entries: seq<MergeEntry>, i: int) {
    forall j | 0 <= i <= j < |entries| :: SameNode(before, disk, entries[j].path)
  }

  /** Conflict copies go where nothing is lost. */
  ghost predicate CopiesLoseNothing(before: map<string, Node>, prior: map<string, SyncedRow>,
                                    entries: seq<MergeEntry>, stamps: seq<string>, rootBase: string, device: string)
    requires |stamps| == |entries|
  {
    && CopiesElsewhere(before, prior, entries, stamps, rootBase, device)
    && !TakenName(before, prior, entries, stamps, rootBase, device)
  }

  lemma SameDivergence(before: map<string, Node>, disk: map<string, Node>, prior: map<string, SyncedRow>, e: MergeEntry)
    requires SameNode(before, disk, e.path)
    ensures Diverged(disk, prior, e) <==> Diverged(before, prior, e)
  {}

  lemma StepAccounts(before: map<string, Node>, disk: map<string, Node>, next: map<string, Node>,
                     prior: map<string, SyncedRow>, entries: seq<MergeEntry>, stamps: seq<string>, rootBase: string,
                     device: string, i: int, p: string, x: Bytes)
    requires WellFormed(entries, stamps, rootBase) && 0 <= i < |entries|
    requires CopiesLoseNothing(before, prior, entries, stamps, rootBase, device)
             && SameNode(before, disk, entries[i].path)
    requires HoldsAt(before, p, x) && Accounted(before, disk, prior, entries, stamps, rootBase, device, i, p, x)
    requires MergeStep(disk, next, prior, entries[i], CopyOf(entries[i], rootBase, device, stamps[i]))
    ensures Accounted(before, next, prior, entries, stamps, rootBase, device, i + 1, p, x)
  {
    hide CopyOf, IsStamp, PriorFile, ConflictRelPath;
    var e := entries[i];
    var copy := CopyOf(e, rootBase, device, stamps[i]);
    SameDivergence(before, disk, prior, e);
    if HoldsAt(disk, p, x) {
      if p != e.path && Diverged(disk, prior, e) && p == copy {
        assert NeedsCopy(before, prior, entries, i);
        assert before[p].bytes == before[e.path].bytes;
      } else if p != e.path {
        assert SameNode(disk, next, p);
      }
    } else {
      var j :| 0 <= j < i && entries[j].SnapshotFile? && entries[j].path == p
          && ((Diverged(before, prior, entries[j]) && HoldsAt(disk, CopyOf(entries[j], rootBase, device, stamps[j]), x))
              || PriorFile(prior, entries[j].rel) == Some(Hash(x)));
      if Diverged(before, prior, entries[j]) {
        assert NeedsCopy(before, prior, entries, j);
        assert entries[i].path != CopyOf(entries[j], rootBase, device, stamps[j]);
        if e.SnapshotFile? { CopiesDiffer(entries, stamps, rootBase, device, j, i); }
        assert SameNode(disk, next, CopyOf(entries[j], rootBase, device, stamps[j]));
      }
    }
  }

  lemma StepUntouched(before: map<string, Node>, disk: map<string, Node>, next: map<string, Node>,
                      prior: map<string, SyncedRow>, entries: seq<MergeEntry>, stamps: seq<string>, rootBase: string,
                      device: string, i: int)
    requires WellFormed(entries, stamps, rootBase) && 0 <= i < |entries| == |stamps|
    requires CopiesElsewhere(before, prior, entries, stamps, rootBase, device) && Untouched(before, disk, entries, i)
    requires MergeStep(disk, next, prior, entries[i], CopyOf(entries[i], rootBase, device, stamps[i]))
    ensures Untouched(before, next, entries, i + 1)
  {
    hide CopyOf, IsStamp, PriorFile;
    assert SameNode(before, disk, entries[i].path);
    SameDivergence(before, disk, prior, entries[i]);
    assert Diverged(disk, prior, entries[i]) ==> NeedsCopy(before, prior, entries, i);
    forall j | i + 1 <= j < |entries| ensures SameNode(before, next, entries[j].path) {
      assert entries[i].path != entries[j].path;
      assert SameNode(before, disk, entries[j].path);
      assert SameNode(disk, next, entries[j].path);
    }
  }

  lemma StepAccountsAll(before: map<string, Node>, disk: map<string, Node>, next: map<string, Node>,
                        prior: map<string, SyncedRow>, entries: seq<MergeEntry>, stamps: seq<string>,
                        rootBase: string, device: string, i: int)
    requires WellFormed(entries, stamps, rootBase) && 0 <= i < |entries| == |stamps|
    requires CopiesLoseNothing(before, prior, entries, stamps, rootBase, device) && Untouched(before, disk, entries, i)
    requires AllAccounted(before, disk, prior, entries, stamps, rootBase, device, i)
    requires MergeStep(disk, next, prior, entries[i], CopyOf(entries[i], rootBase, device, stamps[i]))
    ensures AllAccounted(before, next, prior, entries, stamps, rootBase, device, i + 1)
  {
    hide Accounted, CopyOf, MergeStep, CopiesLoseNothing, WellFormed;
    forall p | p in before && before[p].FileNode?
      ensures Accounted(before, next, prior, entries, stamps, rootBase, device, i + 1, p, before[p].bytes)
    {
      StepAccounts(before, disk, next, prior, entries, stamps, rootBase, device, i, p, before[p].bytes);
    }
  }

  /** The disk after one entry was merged without a fault. */
  function Merged(disk: map<string, Node>, prior: map<string, SyncedRow>, e: MergeEntry,
                  copy: string): map<string, Node> {
    if e.SnapshotDir? then disk[e.path := DirNode]
    else if LocalIsNewer(disk, prior, e) then disk
    else if Diverged(disk, prior, e) then disk[copy := disk[e.path]][e.path := FileNode(e.bytes)]
    else disk[e.path := FileNode(e.bytes)]
  }

  /** The disk after the first i entries were merged without a fault. */
  function MergedAll(disk: map<string, Node>, prior: map<string, SyncedRow>, entries: seq<MergeEntry>,
                     stamps: seq<string>, rootBase: string, device: string, i: nat): map<string, Node>
    requires i <= |entries| == |stamps|
  {
    if i == 0 then disk
    else Merged(MergedAll(disk, prior, entries, stamps, rootBase, device, i - 1), prior, entries[i - 1],
                CopyOf(entries[i - 1], rootBase, device, stamps[i - 1]))
  }

  /** No directory of the snapshot is a local file, which would fail the call. */
  ghost predicate NoClash(disk: map<string, Node>, entries: seq<MergeEntry>) {
    forall i | 0 <= i < |entries| && entries[i].SnapshotDir? && entries[i].path in disk ::
        disk[entries[i].path].DirNode?
  }

  lemma MergedIsStep(disk: map<string, Node>, prior: map<string, SyncedRow>, e: MergeEntry, copy: string)
    requires e.SnapshotFile? ==> copy != e.path
    requires e.SnapshotDir? && e.path in disk ==> disk[e.path].DirNode?
    ensures MergeStep(disk, Merged(disk, prior, e, copy), prior, e, copy)
  {}

  /** The i-th entry is merged over the node that the call found at its path. */
  lemma MergedStep(before: map<string, Node>, prior: map<string, SyncedRow>, entries: seq<MergeEntry>,
                   stamps: seq<string>, rootBase: string, device: string, i: nat)
    requires |stamps| == |entries| && WellFormed(entries, stamps, rootBase) && i < |entries|
    requires NoClash(before, entries)
    requires Untouched(before, MergedAll(before, prior, entries, stamps, rootBase, device, i), entries, i)
    ensures MergeStep(MergedAll(before, prior, entries, stamps, rootBase, device, i),
                      MergedAll(before, prior, entries, stamps, rootBase, device, i + 1), prior, entries[i],
                      CopyOf(entries[i], rootBase, device, stamps[i]))
  {
    hide WellFormed, Merged, MergeStep, CopyOf;
    var disk := MergedAll(before, prior, entries, stamps, rootBase, device, i);
    assert SameNode(before, disk, entries[i].path);
    if entries[i].SnapshotFile? { CopyIsElsewhere(entries, stamps, rootBase, device, i); }
    MergedIsStep(disk, prior, entries[i], CopyOf(entries[i], rootBase, device, stamps[i]));
  }

  lemma {:induction false} MergedUntouched(before: map<string, Node>, prior: map<string, SyncedRow>,
                                           entries: seq<MergeEntry>, stamps: seq<string>, rootBase: string,
                                           device: string, i: nat)
    requires |stamps| == |entries| && WellFormed(entries, stamps, rootBase) && i <= |entries|
    requires NoClash(before, entries) && CopiesElsewhere(before, prior, entries, stamps, rootBase, device)
    ensures Untouched(before, MergedAll(before, prior, entries, stamps, rootBase, device, i), entries, i)
    decreases i
  {
    hide WellFormed, CopiesElsewhere, NoClash, Merged, MergeStep, CopyOf, Untouched;
    if i == 0 {
      InitiallyUntouched(before, entries);
    } else {
      MergedUntouched(before, prior, entries, stamps, rootBase, device, i - 1);
      var disk := MergedAll(before, prior, entries, stamps, rootBase, device, i - 1);
      MergedStep(before, prior, entries, stamps, rootBase, device, i - 1);
      StepUntouched(before, disk, MergedAll(before, prior, entries, stamps, rootBase, device, i), prior, entries,
                    stamps, rootBase, device, i - 1);
    }
  }

  lemma {:induction false} SafeMergeAccounts(before: map<string, Node>, prior: map<string, SyncedRow>,
                                             entries: seq<MergeEntry>, stamps: seq<string>, rootBase: string,
                                             device: string, i: nat)
    requires |stamps| == |entries| && WellFormed(entries, stamps, rootBase) && i <= |entries|
    requires NoClash(before, entries) && CopiesLoseNothing(before, prior, entries, stamps, rootBase, device)
    ensures AllAccounted(before, MergedAll(before, prior, entries, stamps, rootBase, device, i), prior, entries,
                         stamps, rootBase, device, i)
    decreases i
  {
    hide WellFormed, CopiesElsewhere, TakenName, NoClash, Merged, MergeStep, CopyOf, AllAccounted, Untouched;
    if i == 0 {
      InitiallyAccounted(before, prior, entries, stamps, rootBase, device);
    } else {
      SafeMergeAccounts(before, prior, entries, stamps, rootBase, device, i - 1);
      var disk := MergedAll(before, prior, entries, stamps, rootBase, device, i - 1);
      MergedUntouched(before, prior, entries, stamps, rootBase, device, i - 1);
      MergedStep(before, prior, entries, stamps, rootBase, device, i - 1);
      StepAccountsAll(before, disk, MergedAll(before, prior, entries, stamps, rootBase, device, i), prior, entries,
                      stamps, rootBase, device, i - 1);
    }
  }

  /** One step leaves an earlier file's conflict copy alone. */
  lemma CopyStays(before: map<string, Node>, disk: map<string, Node>, next: map<string, Node>,
                  prior: map<string, SyncedRow>, entries: seq<MergeEntry>, stamps: seq<string>,
                  rootBase: string, device: string, j: nat, i: nat)
    requires |stamps| == |entries| && WellFormed(entries, stamps, rootBase)
    requires CopiesElsewhere(before, prior, entries, stamps, rootBase, device) && NeedsCopy(before, prior, entries, j)
    requires j < i < |entries|
    requires MergeStep(disk, next, prior, entries[i], CopyOf(entries[i], rootBase, device, stamps[i]))
    ensures SameNode(disk, next, CopyOf(entries[j], rootBase, device, stamps[j]))
  {
    hide CopyOf, IsStamp, PriorFile, WellFormed;
    assert entries[i].path != CopyOf(entries[j], rootBase, device, stamps[j]);
    if entries[i].SnapshotFile? { CopiesDiffer(entries, stamps, rootBase, device, j, i); }
  }

  /** Once its entry had its turn, a diverged file is at its conflict copy. */
  lemma {:induction false} CopyIsMade(before: map<string, Node>, prior: map<string, SyncedRow>,
                                      entries: seq<MergeEntry>, stamps: seq<string>, rootBase: string,
                                      device: string, j: nat, i: nat)
    requires |stamps| == |entries| && WellFormed(entries, stamps, rootBase) && NoClash(before, entries)
    requires CopiesElsewhere(before, prior, entries, stamps, rootBase, device)
    requires NeedsCopy(before, prior, entries, j) && j < i <= |entries|
    ensures HoldsAt(MergedAll(before, prior, entries, stamps, rootBase, device, i),
                    CopyOf(entries[j], rootBase, device, stamps[j]), before[entries[j].path].bytes)
    decreases i
  {
    hide WellFormed, CopiesElsewhere, NoClash, MergeStep, CopyOf, Untouched, Merged, PriorFile;
    var disk := MergedAll(before, prior, entries, stamps, rootBase, device, i - 1);
    var next := MergedAll(before, prior, entries, stamps, rootBase, device, i);
    MergedUntouched(before, prior, entries, stamps, rootBase, device, i - 1);
    if j == i - 1 {
      CopyIsElsewhere(entries, stamps, rootBase, device, j);
      MakesCopy(before, disk, prior, entries, j, CopyOf(entries[j], rootBase, device, stamps[j]));
    } else {
      CopyIsMade(before, prior, entries, stamps, rootBase, device, j, i - 1);
      MergedStep(before, prior, entries, stamps, rootBase, device, i - 1);
      CopyStays(before, disk, next, prior, entries, stamps, rootBase, device, j, i - 1);
    }
  }

  lemma MakesCopy(before: map<string, Node>, disk: map<string, Node>, prior: map<string, SyncedRow>,
                  entries: seq<MergeEntry>, j: nat, copy: string)
    requires NeedsCopy(before, prior, entries, j) && Untouched(before, disk, entries, j) && copy != entries[j].path
    ensures HoldsAt(Merged(disk, prior, entries[j], copy), copy, before[entries[j].path].bytes)
  {
    assert SameNode(before, disk, entries[j].path);
  }

  /**
    A snapshot applied without a fault loses no local file if and only if no conflict copy that is needed
    has the name of a local file with other bytes: the rename does not look.
  */
  lemma EveryFileAccountedIff(before: map<string, Node>, prior: map<string, SyncedRow>, entries: seq<MergeEntry>,
                              stamps: seq<string>, rootBase: string, device: string)
    requires |stamps| == |entries| && WellFormed(entries, stamps, rootBase) && NoClash(before, entries)
    requires CopiesElsewhere(before, prior, entries, stamps, rootBase, device)
    ensures var disk := MergedAll(before, prior, entries, stamps, rootBase, device, |entries|);
            AllAccounted(before, disk, prior, entries, stamps, rootBase, device, |entries|)
            <==> !TakenName(before, prior, entries, stamps, rootBase, device)
  {
    hide WellFormed, CopyOf, MergedAll, PriorFile;
    if TakenName(before, prior, entries, stamps, rootBase, device) {
      var i :| NeedsCopy(before, prior, entries, i)
        && var c := CopyOf(entries[i], rootBase, device, stamps[i]);
           c in before && before[c].FileNode? && before[c].bytes != before[entries[i].path].bytes;
      CopyIsMade(before, prior, entries, stamps, rootBase, device, i, |entries|);
      var c := CopyOf(entries[i], rootBase, device, stamps[i]);
      var disk := MergedAll(before, prior, entries, stamps, rootBase, device, |entries|);
      assert !Accounted(before, disk, prior, entries, stamps, rootBase, device, |entries|, c, before[c].bytes);
    } else {
      SafeMergeAccounts(before, prior, entries, stamps, rootBase, device, |entries|);
    }
  }

  /**
    One entry: other files keep their bytes unless a conflict copy is due and its name is already taken by a
    file with other content.
  */
  lemma OtherFilesKeptIff(disk: map<string, Node>, prior: map<string, SyncedRow>, e: MergeEntry, copy: string,
                          k: string, x: Bytes)
    requires e.SnapshotFile? && copy != e.path && k != e.path && HoldsAt(disk, k, x)
    ensures HoldsAt(Merged(disk, prior, e, copy), k, x)
            <==> !(Diverged(disk, prior, e) && k == copy && disk[e.path].bytes != x)
  {}

  /** What a file entry's path holds afterwards: a local edit of what the snapshot brings, or its bytes. */
  lemma {:induction false} FileLands(before: map<string, Node>, prior: map<string, SyncedRow>,
                                     entries: seq<MergeEntry>, stamps: seq<string>, rootBase: string, device: string,
                                     j: nat, i: nat)
    requires |stamps| == |entries| && WellFormed(entries, stamps, rootBase) && NoClash(before, entries)
    requires CopiesElsewhere(before, prior, entries, stamps, rootBase, device)
    requires j < i <= |entries| && entries[j].SnapshotFile?
    ensures HoldsAt(MergedAll(before, prior, entries, stamps, rootBase, device, i), entries[j].path,
                    FileBytes(before, prior, entries[j]))
    decreases i
  {
    hide WellFormed, CopiesElsewhere, NoClash, MergeStep, CopyOf, Untouched, Merged, FileBytes;
    var disk := MergedAll(before, prior, entries, stamps, rootBase, device, i - 1);
    MergedUntouched(before, prior, entries, stamps, rootBase, device, i - 1);
    if j == i - 1 {
      if entries[j].SnapshotFile? { CopyIsElsewhere(entries, stamps, rootBase, device, j); }
      FileIsWritten(before, disk, prior, entries, j, CopyOf(entries[j], rootBase, device, stamps[j]));
    } else {
      FileLands(before, prior, entries, stamps, rootBase, device, j, i - 1);
      MergedStep(before, prior, entries, stamps, rootBase, device, i - 1);
      EarlierPathStays(before, disk, MergedAll(before, prior, entries, stamps, rootBase, device, i), prior, entries,
                       stamps, rootBase, device, j, i - 1);
    }
  }

  function FileBytes(before: map<string, Node>, prior: map<string, SyncedRow>, e: MergeEntry): Bytes
    requires e.SnapshotFile?
  {
    if e.path in before && before[e.path].FileNode? && before[e.path].bytes != e.bytes
       && e.rel in prior && prior[e.rel].SyncedFile? && prior[e.rel].hash == Hash(e.bytes)
    then before[e.path].bytes else e.bytes
  }

  lemma FileIsWritten(before: map<string, Node>, disk: map<string, Node>, prior: map<string, SyncedRow>,
                      entries: seq<MergeEntry>, j: nat, copy: string)
    requires j < |entries| && entries[j].SnapshotFile? && Untouched(before, disk, entries, j)
    requires copy != entries[j].path
    ensures HoldsAt(Merged(disk, prior, entries[j], copy), entries[j].path, FileBytes(before, prior, entries[j]))
  {
    assert SameNode(before, disk, entries[j].path);
  }

  /** A later entry's step leaves an earlier entry's path alone. */
  lemma EarlierPathStays(before: map<string, Node>, disk: map<string, Node>, next: map<string, Node>,
                         prior: map<string, SyncedRow>, entries: seq<MergeEntry>, stamps: seq<string>,
                         rootBase: string, device: string, j: nat, i: nat)
    requires |stamps| == |entries| && WellFormed(entries, stamps, rootBase) && j < i < |entries|
    requires CopiesElsewhere(before, prior, entries, stamps, rootBase, device) && Untouched(before, disk, entries, i)
    requires MergeStep(disk, next, prior, entries[i], CopyOf(entries[i], rootBase, device, stamps[i]))
    ensures SameNode(disk, next, entries[j].path)
  {
    hide CopyOf, IsStamp, PriorFile;
    assert SameNode(before, disk, entries[i].path);
    SameDivergence(before, disk, prior, entries[i]);
    assert Diverged(disk, prior, entries[i]) ==> NeedsCopy(before, prior, entries, i);
    assert entries[j].path != entries[i].path;
  }

  /** Whatever is neither a path of the snapshot nor a needed copy is as it was. */
  lemma {:induction false} OthersStay(before: map<string, Node>, prior: map<string, SyncedRow>,
                                      entries: seq<MergeEntry>, stamps: seq<string>, rootBase: string, device: string,
                                      k: string, i: nat)
    requires |stamps| == |entries| && WellFormed(entries, stamps, rootBase) && NoClash(before, entries)
    requires CopiesElsewhere(before, prior, entries, stamps, rootBase, device) && i <= |entries|
    requires forall j | 0 <= j < |entries| :: entries[j].path != k
    requires forall j | NeedsCopy(before, prior, entries, j) :: CopyOf(entries[j], rootBase, device, stamps[j]) != k
    ensures SameNode(before, MergedAll(before, prior, entries, stamps, rootBase, device, i), k)
    decreases i
  {
    hide WellFormed, CopiesElsewhere, NoClash, MergeStep, CopyOf, Untouched, Merged;
    if i > 0 {
      var disk := MergedAll(before, prior, entries, stamps, rootBase, device, i - 1);
      var next := MergedAll(before, prior, entries, stamps, rootBase, device, i);
      OthersStay(before, prior, entries, stamps, rootBase, device, k, i - 1);
      MergedUntouched(before, prior, entries, stamps, rootBase, device, i - 1);
      MergedStep(before, prior, entries, stamps, rootBase, device, i - 1);
      OtherStays(before, disk, next, prior, entries, i - 1, CopyOf(entries[i - 1], rootBase, device, stamps[i - 1]), k);
    }
  }

  lemma OtherStays(before: map<string, Node>, disk: map<string, Node>, next: map<string, Node>,
                   prior: map<string, SyncedRow>, entries: seq<MergeEntry>, i: nat, copy: string, k: string)
    requires i < |entries| && Untouched(before, disk, entries, i) && MergeStep(disk, next, prior, entries[i], copy)
    requires entries[i].path != k && (NeedsCopy(before, prior, entries, i) ==> copy != k)
    ensures SameNode(disk, next, k)
  {
    hide PriorFile;
    assert SameNode(before, disk, entries[i].path);
    SameDivergence(before, disk, prior, entries[i]);
  }

  /**
    What a snapshot applied without a fault leaves, path by path: a file entry's path holds the snapshot's bytes,
    or the local ones where they differ from a row that already had the snapshot's; a local file that differs from
    both the snapshot and its row is at its copy; everything else is as it was.
  */
  lemma SnapshotLands(before: map<string, Node>, prior: map<string, SyncedRow>, entries: seq<MergeEntry>,
                      stamps: seq<string>, rootBase: string, device: string)
    requires |stamps| == |entries| && WellFormed(entries, stamps, rootBase) && NoClash(before, entries)
    requires CopiesElsewhere(before, prior, entries, stamps, rootBase, device)
    ensures Lands(before, MergedAll(before, prior, entries, stamps, rootBase, device, |entries|), prior, entries,
                  stamps, rootBase, device)
  {
    hide WellFormed, CopiesElsewhere, NoClash, MergedAll, CopyOf, HoldsAt;
    var disk := MergedAll(before, prior, entries, stamps, rootBase, device, |entries|);
    forall i | 0 <= i < |entries| && entries[i].SnapshotFile?
      ensures HoldsAt(disk, entries[i].path, FileBytes(before, prior, entries[i]))
      ensures ThreeVersions(before, prior, entries[i]) ==>
                HoldsAt(disk, CopyOf(entries[i], rootBase, device, stamps[i]), before[entries[i].path].bytes)
    {
      FileLands(before, prior, entries, stamps, rootBase, device, i, |entries|);
      if ThreeVersions(before, prior, entries[i]) {
        assert NeedsCopy(before, prior, entries, i);
        CopyIsMade(before, prior, entries, stamps, rootBase, device, i, |entries|);
      }
    }
    forall k | (forall i | 0 <= i < |entries| :: entries[i].path != k)
               && (forall i | 0 <= i < |entries| && ThreeVersions(before, prior, entries[i]) ::
                     CopyOf(entries[i], rootBase, device, stamps[i]) != k)
      ensures SameNode(before, disk, k)
    {
      forall j | NeedsCopy(before, prior, entries, j)
        ensures CopyOf(entries[j], rootBase, device, stamps[j]) != k
      {
        assert ThreeVersions(before, prior, entries[j]);
      }
      OthersStay(before, prior, entries, stamps, rootBase, device, k, |entries|);
    }
  }

  /** A local file that is neither what the snapshot brings nor what its row says, which is not that either. */
  predicate ThreeVersions(before: map<string, Node>, prior: map<string, SyncedRow>, e: MergeEntry) {
    && e.SnapshotFile? && e.path in before && before[e.path].FileNode? && before[e.path].bytes != e.bytes
    && !(e.rel in prior && prior[e.rel].SyncedFile?
         && (prior[e.rel].hash == Hash(before[e.path].bytes) || prior[e.rel].hash == Hash(e.bytes)))
  }

  ghost predicate Lands(before: map<string, Node>, disk: map<string, Node>, prior: map<string, SyncedRow>,
                        entries: seq<MergeEntry>, stamps: seq<string>, rootBase: string, device: string)
    requires |stamps| == |entries|
  {
    && (forall i | 0 <= i < |entries| && entries[i].SnapshotFile? ::
          HoldsAt(disk, entries[i].path, FileBytes(before, prior, entries[i])))
    && (forall i | 0 <= i < |entries| && ThreeVersions(before, prior, entries[i]) ::
          HoldsAt(disk, CopyOf(entries[i], rootBase, device, stamps[i]), before[entries[i].path].bytes))
    && (forall k | (forall i | 0 <= i < |entries| :: entries[i].path != k)
                   && (forall i | 0 <= i < |entries| && ThreeVersions(before, prior, entries[i]) ::
                         CopyOf(entries[i], rootBase, device, stamps[i]) != k) :: SameNode(before, disk, k))
  }

  /** The row of an entry: its kind, hash, mode and mtime, and its old seq if nothing of that is new. */
  predicate RowSays(row: SyncedRow, e: MergeEntry, prior: map<string, SyncedRow>, base: int) {
    match e
    case SnapshotDir(rel, _, mode, mtime) =>
      && row.SyncedDir? && row.mode == mode && row.mtime == mtime
      && row.seqno == if rel in prior && prior[rel].SyncedDir? && prior[rel].mode == mode && prior[rel].mtime == mtime
                      then prior[rel].seqno else base
    case SnapshotFile(rel, _, bytes, mode, mtime) =>
      && row.SyncedFile? && row.hash == Hash(bytes) && row.mode == mode && row.mtime == mtime
      && row.seqno == if rel in prior && prior[rel].SyncedFile? && prior[rel].hash == Hash(bytes)
                      then prior[rel].seqno else base
  }

  lemma RowForIsSaid(prior: map<string, SyncedRow>, e: MergeEntry, base: int)
    ensures RowSays(RowFor(prior, e, base), e, prior, base)
  {}

  /** A node of the wrong kind is in the way of an entry, or a directory has the name of its copy. */
  predicate InTheWay(disk: map<string, Node>, e: MergeEntry, copy: string) {
    || (e.path in disk && if e.SnapshotDir? then disk[e.path].FileNode? else disk[e.path].DirNode?)
    || (e.SnapshotFile? && copy in disk && disk[copy].DirNode?)
  }

  ghost predicate SomeInTheWay(disk: map<string, Node>, entries: seq<MergeEntry>, stamps: seq<string>,
                               rootBase: string, device: string)
    requires |stamps| == |entries|
  {
    exists i :: 0 <= i < |entries| && InTheWay(disk, entries[i], CopyOf(entries[i], rootBase, device, stamps[i]))
  }

  /** A concrete loss: the copy of the second a.txt takes the name an earlier copy still has. */
  lemma TakenNameLosesBytes(device: string, stamp: string)
    requires IsStamp(stamp)
    ensures var e := SnapshotFile("a.txt", "a.txt", "theirs", 0x1A4, 0);
            var copy := CopyOf(e, "root", device, stamp);
            var disk := map["a.txt" := FileNode("mine"), copy := FileNode("earlier")];
            forall k :: !HoldsAt(Merged(disk, map[], e, copy), k, "earlier")
  {
    hide ConflictRelPath, IsStamp, Merged;
    CopyIsLonger("a.txt", "root", device, stamp);
    OverwritesTaken(ConflictRelPath("a.txt", "root", device, stamp));
  }

  lemma OverwritesTaken(copy: string)
    requires |copy| > |"a.txt"|
    ensures var e := SnapshotFile("a.txt", "a.txt", "theirs", 0x1A4, 0);
            var disk := map["a.txt" := FileNode("mine"), copy := FileNode("earlier")];
            forall k :: !HoldsAt(Merged(disk, map[], e, copy), k, "earlier")
  {
    var e := SnapshotFile("a.txt", "a.txt", "theirs", 0x1A4, 0);
    var disk := map["a.txt" := FileNode("mine"), copy := FileNode("earlier")];
    assert copy != "a.txt";
    assert "mine" != "theirs" by { assert "mine"[0] != "theirs"[0]; }
    assert Diverged(disk, map[], e);
    assert "mine" != "earlier" && "theirs" != "earlier" by {
      assert "mine"[0] != "earlier"[0] && "theirs"[0] != "earlier"[0];
    }
  }

  class Merger {
    const rootBase: string
    const device: string
    var disk: map<string, Node>
    var index: map<string, SyncedRow>
    /** Some step failed. */
    ghost var faulted: bool

    constructor (base: string, name: string, files: map<string, Node>, rows: map<string, SyncedRow>)
      ensures rootBase == base && device == name && disk == files && index == rows && !faulted
    {
      rootBase, device, disk, index, faulted := base, name, files, rows, false;
    }

    method Fails() returns (b: bool)
      modifies this`faulted
      ensures faulted == (old(faulted) || b)
    {
      b := *;
      faulted := faulted || b;
    }

    /** The copy is renamed onto its name whether or not something is there. */
    method PreserveLocalConflictCopy(path: string, copy: string) returns (ok: bool)
      requires path in disk && disk[path].FileNode?
      modifies this`disk, this`faulted
      ensures ok ==> disk == old(disk)[copy := old(disk)[path]]
      ensures !ok ==> disk == old(disk)
      ensures (old(faulted) ==> faulted) && (ok || faulted || (copy in disk && disk[copy].DirNode?))
      ensures ok ==> !(copy in old(disk) && old(disk)[copy].DirNode?)
    {
      var fails := Fails();
      ok := !fails && !(copy in disk && disk[copy].DirNode?);
      if ok {
        disk := disk[copy := disk[path]];
      }
    }

    /** Download, check the digest, rename into place. */
    method Materialize(path: string, bytes: Bytes) returns (ok: bool)
      modifies this`disk, this`faulted
      ensures ok ==> disk == old(disk)[path := FileNode(bytes)]
      ensures !ok ==> disk == old(disk)
      ensures (old(faulted) ==> faulted) && (ok || faulted || (path in disk && disk[path].DirNode?))
      ensures ok ==> !(path in old(disk) && old(disk)[path].DirNode?)
    {
      var fails := Fails();
      ok := !fails && !(path in disk && disk[path].DirNode?);
      if ok {
        disk := disk[path := FileNode(bytes)];
      }
    }

    method MergeDir(e: MergeEntry, stageOnly: bool, ghost copy: string) returns (ok: bool)
      requires e.SnapshotDir?
      modifies this`disk, this`faulted
      ensures MergeStep(old(disk), disk, index, e, copy)
      ensures stageOnly ==> ok && disk == old(disk)
      ensures ok && !stageOnly ==> disk == Merged(old(disk), index, e, copy)
      ensures ok && !stageOnly ==> !(e.path in old(disk) && old(disk)[e.path].FileNode?)
      ensures (old(faulted) ==> faulted) && (ok || faulted || InTheWay(disk, e, copy))
      ensures forall p | p in old(disk) && old(disk)[p].DirNode? :: p in disk && disk[p].DirNode?
      ensures ok && !stageOnly ==> e.path in disk && disk[e.path].DirNode?
    {
      if stageOnly {
        return true;
      }
      var fails := Fails();
      ok := !fails && !(e.path in disk && disk[e.path].FileNode?);
      if ok {
        disk := disk[e.path := DirNode];
      }
    }

    /**
      The three-way decision. Afterwards the path holds the snapshot's bytes, or a local edit that is
      newer than them: the last synced content was the snapshot's and the disk has moved on.
    */
    method MergeFile(e: MergeEntry, stageOnly: bool, copy: string) returns (ok: bool)
      requires e.SnapshotFile? && copy != e.path
      modifies this`disk, this`faulted
      ensures MergeStep(old(disk), disk, index, e, copy)
      ensures stageOnly ==> ok && disk == old(disk)
      ensures ok && !stageOnly ==> disk == Merged(old(disk), index, e, copy)
      ensures ok && !stageOnly ==>
              HoldsAt(disk, e.path, e.bytes) || (LocalIsNewer(old(disk), index, e) && disk == old(disk))
      ensures (old(faulted) ==> faulted) && (ok || faulted || InTheWay(disk, e, copy))
      ensures forall p | p in old(disk) && old(disk)[p].DirNode? :: p in disk && disk[p].DirNode?
    {
      var materialize := !stageOnly;
      if materialize && e.path in disk && disk[e.path].FileNode? {
        var localHash := Hash(disk[e.path].bytes);
        var synced := e.rel in index && index[e.rel].SyncedFile?;
        if localHash == Hash(e.bytes) {
          materialize := false;
        } else if synced && index[e.rel].hash == localHash {
          // Unchanged since the last sync: the snapshot is newer.
        } else if synced && index[e.rel].hash == Hash(e.bytes) {
          materialize := false;
        } else {
          var preserved := PreserveLocalConflictCopy(e.path, copy);
          if !preserved {
            return false;
          }
        }
      }
      if materialize {
        ok := Materialize(e.path, e.bytes);
        return;
      }
      return true;
    }

    /**
      Whatever step fails, every local file is accounted for as long as conflict copies find their names
      free; a call that succeeds loses one exactly if some name was taken. Once all entries are through,
      the index is replaced by the snapshot's entries, each with the seq its content was last synced at.
    */
    method ApplySnapshot(entries: seq<MergeEntry>, base: int, stageOnly: bool, stamps: seq<string>)
      returns (ok: bool)
      requires |stamps| == |entries| && WellFormed(entries, stamps, rootBase)
      modifies this
      ensures CopiesLoseNothing(old(disk), old(index), entries, stamps, rootBase, device) ==>
                AllAccounted(old(disk), disk, old(index), entries, stamps, rootBase, device, |entries|)
      ensures ok && !stageOnly ==> disk == MergedAll(old(disk), old(index), entries, stamps, rootBase, device,
              |entries|)
      ensures ok && !stageOnly && CopiesElsewhere(old(disk), old(index), entries, stamps, rootBase, device) ==>
                (AllAccounted(old(disk), disk, old(index), entries, stamps, rootBase, device, |entries|)
                 <==> !TakenName(old(disk), old(index), entries, stamps, rootBase, device))
      ensures stageOnly ==> disk == old(disk)
      ensures !ok ==> index == old(index)
      ensures ok ==> index.Keys == set i | 0 <= i < |entries| :: entries[i].rel
      ensures ok ==> forall i | 0 <= i < |entries| ::
                RowSays(index[entries[i].rel], entries[i], if stageOnly then map[] else old(index), base)
      ensures ok && !stageOnly ==> forall i | 0 <= i < |entries| && entries[i].SnapshotDir? ::
                entries[i].path in disk && disk[entries[i].path].DirNode?
      ensures ok && !stageOnly && CopiesElsewhere(old(disk), old(index), entries, stamps, rootBase, device) ==>
                Lands(old(disk), disk, old(index), entries, stamps, rootBase, device)
      ensures ok || faulted || SomeInTheWay(disk, entries, stamps, rootBase, device)
    {
      hide WellFormed, MergeStep, AllAccounted, CopyOf, RowFor, RowSays, InTheWay, Lands, Merged, MergedAll;
      hide CopiesElsewhere, TakenName, DiskOk, RowsOk, SomeInTheWay;
      ghost var before := disk;
      var prior: map<string, SyncedRow> := if stageOnly then map[] else index;
      var rows: map<string, SyncedRow> := map[];
      NothingMerged(before, index, entries, stamps, rootBase, device, stageOnly, prior, base);
      var i := 0;
      while i < |entries|
        invariant 0 <= i <= |entries| && index == old(index)
        invariant DiskOk(before, disk, index, entries, stamps, rootBase, device, stageOnly, i)
        invariant RowsOk(rows, entries, prior, base, i)
      {
        var e := entries[i];
        var copy := CopyOf(e, rootBase, device, stamps[i]);
        ghost var was := disk;
        if e.SnapshotDir? {
          ok := MergeDir(e, stageOnly, copy);
        } else {
          CopyIsElsewhere(entries, stamps, rootBase, device, i);
          ok := MergeFile(e, stageOnly, copy);
        }
        if !ok {
          GivenUp(before, was, disk, index, entries, stamps, rootBase, device, stageOnly, i);
          if !faulted { OneInTheWay(disk, entries, stamps, rootBase, device, i); }
          return;
        }
        DiskNext(before, was, disk, index, entries, stamps, rootBase, device, stageOnly, i);
        RowsNext(rows, entries, stamps, rootBase, prior, base, i);
        rows := rows[e.rel := RowFor(prior, e, base)];
        i := i + 1;
      }
      AllMerged(before, disk, index, entries, stamps, rootBase, device, stageOnly, rows, prior, base);
      index := rows;
      ok := true;
    }
  }

  /** What the disk owes to the first i entries. */
  ghost predicate DiskOk(before: map<string, Node>, disk: map<string, Node>, prior: map<string, SyncedRow>,
                         entries: seq<MergeEntry>, stamps: seq<string>, rootBase: string, device: string,
                         stageOnly: bool, i: nat)
    requires i <= |entries| == |stamps|
  {
    && (CopiesLoseNothing(before, prior, entries, stamps, rootBase, device) ==>
          AllAccounted(before, disk, prior, entries, stamps, rootBase, device, i))
    && (CopiesElsewhere(before, prior, entries, stamps, rootBase, device) ==>
          Untouched(before, disk, entries, i) && (stageOnly || NoClash(before, entries[..i])))
    && if stageOnly then disk == before
       else
         && disk == MergedAll(before, prior, entries, stamps, rootBase, device, i)
         && forall j | 0 <= j < i && entries[j].SnapshotDir? ::
              entries[j].path in disk && disk[entries[j].path].DirNode?
  }

  ghost predicate RowsOk(rows: map<string, SyncedRow>, entries: seq<MergeEntry>, prior: map<string, SyncedRow>,
                         base: int, i: nat)
    requires i <= |entries|
  {
    && rows.Keys == (set j | 0 <= j < i :: entries[j].rel)
    && forall j | 0 <= j < i :: RowSays(rows[entries[j].rel], entries[j], prior, base)
  }

  lemma NothingMerged(before: map<string, Node>, prior: map<string, SyncedRow>, entries: seq<MergeEntry>,
                      stamps: seq<string>, rootBase: string, device: string, stageOnly: bool,
                      rowsBefore: map<string, SyncedRow>, base: int)
    requires |stamps| == |entries|
    ensures DiskOk(before, before, prior, entries, stamps, rootBase, device, stageOnly, 0)
    ensures RowsOk(map[], entries, rowsBefore, base, 0)
  {
    InitiallyAccounted(before, prior, entries, stamps, rootBase, device);
  }

  lemma RowsNext(rows: map<string, SyncedRow>, entries: seq<MergeEntry>, stamps: seq<string>, rootBase: string,
                 prior: map<string, SyncedRow>, base: int, i: nat)
    requires WellFormed(entries, stamps, rootBase) && i < |entries| && RowsOk(rows, entries, prior, base, i)
    ensures RowsOk(rows[entries[i].rel := RowFor(prior, entries[i], base)], entries, prior, base, i + 1)
  {
    hide RowFor, RowSays;
    RowForIsSaid(prior, entries[i], base);
  }

  lemma DiskNext(before: map<string, Node>, disk: map<string, Node>, next: map<string, Node>,
                 prior: map<string, SyncedRow>, entries: seq<MergeEntry>, stamps: seq<string>, rootBase: string,
                 device: string, stageOnly: bool, i: nat)
    requires WellFormed(entries, stamps, rootBase) && i < |entries| == |stamps|
    requires DiskOk(before, disk, prior, entries, stamps, rootBase, device, stageOnly, i)
    requires MergeStep(disk, next, prior, entries[i], CopyOf(entries[i], rootBase, device, stamps[i]))
    requires if stageOnly then next == disk
             else next == Merged(disk, prior, entries[i], CopyOf(entries[i], rootBase, device, stamps[i]))
    requires !stageOnly && entries[i].SnapshotDir? ==>
               && !(entries[i].path in disk && disk[entries[i].path].FileNode?)
               && entries[i].path in next && next[entries[i].path].DirNode?
    requires forall p | p in disk && disk[p].DirNode? :: p in next && next[p].DirNode?
    ensures DiskOk(before, next, prior, entries, stamps, rootBase, device, stageOnly, i + 1)
  {
    hide WellFormed, MergeStep, AllAccounted, CopyOf, Merged, CopiesElsewhere, TakenName, Untouched, NoClash;
    AfterStep(before, disk, next, prior, entries, stamps, rootBase, device, i);
    if !stageOnly {
      ClashFree(before, disk, entries, i, CopiesElsewhere(before, prior, entries, stamps, rootBase, device));
    }
  }

  lemma GivenUp(before: map<string, Node>, disk: map<string, Node>, next: map<string, Node>,
                prior: map<string, SyncedRow>, entries: seq<MergeEntry>, stamps: seq<string>, rootBase: string,
                device: string, stageOnly: bool, i: nat)
    requires WellFormed(entries, stamps, rootBase) && i < |entries| == |stamps|
    requires DiskOk(before, disk, prior, entries, stamps, rootBase, device, stageOnly, i)
    requires MergeStep(disk, next, prior, entries[i], CopyOf(entries[i], rootBase, device, stamps[i]))
    ensures CopiesLoseNothing(before, prior, entries, stamps, rootBase, device) ==>
              AllAccounted(before, next, prior, entries, stamps, rootBase, device, |entries|)
  {
    hide WellFormed, MergeStep, AllAccounted, CopyOf, CopiesElsewhere, TakenName, Untouched, NoClash, MergedAll;
    AfterStep(before, disk, next, prior, entries, stamps, rootBase, device, i);
    if CopiesLoseNothing(before, prior, entries, stamps, rootBase, device) {
      AccountedLater(before, next, prior, entries, stamps, rootBase, device, i + 1);
    }
  }

  lemma OneInTheWay(disk: map<string, Node>, entries: seq<MergeEntry>, stamps: seq<string>, rootBase: string,
                    device: string, i: nat)
    requires i < |entries| == |stamps| && InTheWay(disk, entries[i], CopyOf(entries[i], rootBase, device, stamps[i]))
    ensures SomeInTheWay(disk, entries, stamps, rootBase, device)
  {
    hide InTheWay, CopyOf;
  }

  lemma AllMerged(before: map<string, Node>, disk: map<string, Node>, prior: map<string, SyncedRow>,
                  entries: seq<MergeEntry>, stamps: seq<string>, rootBase: string, device: string, stageOnly: bool,
                  rows: map<string, SyncedRow>, rowsBefore: map<string, SyncedRow>, base: int)
    requires |stamps| == |entries| && WellFormed(entries, stamps, rootBase)
    requires DiskOk(before, disk, prior, entries, stamps, rootBase, device, stageOnly, |entries|)
    requires RowsOk(rows, entries, rowsBefore, base, |entries|)
    ensures CopiesLoseNothing(before, prior, entries, stamps, rootBase, device) ==>
              AllAccounted(before, disk, prior, entries, stamps, rootBase, device, |entries|)
    ensures stageOnly ==> disk == before
    ensures !stageOnly ==>
              && disk == MergedAll(before, prior, entries, stamps, rootBase, device, |entries|)
              && (forall i | 0 <= i < |entries| && entries[i].SnapshotDir? ::
                    entries[i].path in disk && disk[entries[i].path].DirNode?)
    ensures !stageOnly && CopiesElsewhere(before, prior, entries, stamps, rootBase, device) ==>
              && Lands(before, disk, prior, entries, stamps, rootBase, device)
              && (AllAccounted(before, disk, prior, entries, stamps, rootBase, device, |entries|)
                  <==> !TakenName(before, prior, entries, stamps, rootBase, device))
    ensures rows.Keys == set i | 0 <= i < |entries| :: entries[i].rel
    ensures forall i | 0 <= i < |entries| :: RowSays(rows[entries[i].rel], entries[i], rowsBefore, base)
  {
    hide WellFormed, AllAccounted, CopiesElsewhere, TakenName, Untouched, MergedAll, Lands, RowSays;
    if !stageOnly && CopiesElsewhere(before, prior, entries, stamps, rootBase, device) {
      assert entries[..|entries|] == entries;
      EveryFileAccountedIff(before, prior, entries, stamps, rootBase, device);
      SnapshotLands(before, prior, entries, stamps, rootBase, device);
    }
  }

  lemma AfterStep(before: map<string, Node>, disk: map<string, Node>, next: map<string, Node>,
                  prior: map<string, SyncedRow>, entries: seq<MergeEntry>, stamps: seq<string>, rootBase: string,
                  device: string, i: int)
    requires WellFormed(entries, stamps, rootBase) && 0 <= i < |entries| == |stamps|
    requires CopiesLoseNothing(before, prior, entries, stamps, rootBase, device) ==>
               AllAccounted(before, disk, prior, entries, stamps, rootBase, device, i)
    requires CopiesElsewhere(before, prior, entries, stamps, rootBase, device) ==> Untouched(before, disk, entries, i)
    requires MergeStep(disk, next, prior, entries[i], CopyOf(entries[i], rootBase, device, stamps[i]))
    ensures CopiesLoseNothing(before, prior, entries, stamps, rootBase, device) ==>
              AllAccounted(before, next, prior, entries, stamps, rootBase, device, i + 1)
    ensures CopiesElsewhere(before, prior, entries, stamps, rootBase, device) ==>
            Untouched(before, next, entries, i + 1)
  {
    hide WellFormed, AllAccounted, MergeStep, CopyOf, Untouched, CopiesElsewhere, TakenName;
    if CopiesElsewhere(before, prior, entries, stamps, rootBase, device) {
      StepUntouched(before, disk, next, prior, entries, stamps, rootBase, device, i);
    }
    if CopiesLoseNothing(before, prior, entries, stamps, rootBase, device) {
      StepAccountsAll(before, disk, next, prior, entries, stamps, rootBase, device, i);
    }
  }

  lemma ClashFree(before: map<string, Node>, disk: map<string, Node>, entries: seq<MergeEntry>, i: int, elsewhere: bool)
    requires 0 <= i < |entries|
    requires elsewhere ==> Untouched(before, disk, entries, i) && NoClash(before, entries[..i])
    requires entries[i].SnapshotDir? && entries[i].path in disk ==> disk[entries[i].path].DirNode?
    ensures elsewhere ==> NoClash(before, entries[..i + 1])
  {
    if elsewhere {
      assert SameNode(before, disk, entries[i].path);
      assert entries[..i + 1] == entries[..i] + [entries[i]];
    }
  }

  lemma InitiallyAccounted(disk: map<string, Node>, prior: map<string, SyncedRow>, entries: seq<MergeEntry>,
                           stamps: seq<string>, rootBase: string, device: string)
    requires |stamps| == |entries|
    ensures AllAccounted(disk, disk, prior, entries, stamps, rootBase, device, 0)
  {}

  lemma InitiallyUntouched(disk: map<string, Node>, entries: seq<MergeEntry>)
    ensures Untouched(disk, disk, entries, 0)
  {}

  lemma AccountedLater(before: map<string, Node>, disk: map<string, Node>, prior: map<string, SyncedRow>,
                       entries: seq<MergeEntry>, stamps: seq<string>, rootBase: string, device: string, i: int)
    requires 0 <= i <= |entries| == |stamps|
    requires AllAccounted(before, disk, prior, entries, stamps, rootBase, device, i)
    ensures AllAccounted(before, disk, prior, entries, stamps, rootBase, device, |entries|)
  {
    hide CopyOf, PriorFile;
    forall p | p in before && before[p].FileNode?
      ensures Accounted(before, disk, prior, entries, stamps, rootBase, device, |entries|, p, before[p].bytes)
    {
      assert Accounted(before, disk, prior, entries, stamps, rootBase, device, i, p, before[p].bytes);
    }
  }
}
