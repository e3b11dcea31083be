/**
  A rescan compares the index with what is on disk under a hint and submits the difference. Without
  conflicts it is a fixpoint: a second rescan of the same tree has nothing to say.
*/
module Rescan {
  import opened Records
  import opened Clients
  import opened Hints

  datatype Submission = Submission(rel: string, value: Content, base: int)

  function IndexedRow(index: map<string, Entry>, rel: string): Option<Entry> {
    if rel in index then Some(index[rel]) else None
  }

  function IndexedContent(index: map<string, Entry>, rel: string): Content {
    if rel in index then index[rel].value else Gone
  }

  function FoundAt(scan: map<string, Content>, rel: string): Content {
    if rel in scan then scan[rel] else Gone
  }

  /** What a rescan takes for unchanged. A directory's mtime says nothing: its children's changes move it. */
  predicate SameFound(v: Content, found: Content) {
    match found
    case Gone => v.Gone?
    case Dir(mode, _) => v.Dir? && v.mode == mode
    case File(hash, _, mode, mtime) => v.File? && v.hash == hash && v.mode == mode && v.mtime == mtime
  }

  /** A path is due when it changed and no ignore rule expects exactly this change. */
  predicate IsDue(index: map<string, Entry>, scan: map<string, Content>, ignored: map<string, Content>, force: bool,
                  rel: string) {
    var found := FoundAt(scan, rel);
    if found.Gone? then !IndexedContent(index, rel).Gone? && !(rel in ignored && ignored[rel].Gone?)
    else
      && (force || !SameFound(IndexedContent(index, rel), found))
      && !(found.File? && rel in ignored && SameFound(ignored[rel], found))
  }

  /** The row a rescan leaves: a due path takes what was found, with a new seq; a directory row is refreshed. */
  predicate RowAfter(before: Option<Entry>, found: Content, due: bool, top: int, after: Option<Entry>) {
    if due then after.Some? && after.value.value == found && top < after.value.tag
    else if found.Dir? && before.Some? && SameFound(before.value.value, found)
        then after == Some(Entry(found, before.value.tag))
    else after == before
  }

  ghost predicate RowsAfter(before: map<string, Entry>, scan: map<string, Content>, ignored: map<string, Content>,
                            force: bool, top: int, after: map<string, Entry>, done: iset<string>) {
    forall rel ::
      if rel in done then RowAfter(IndexedRow(before, rel), FoundAt(scan, rel),
          IsDue(before, scan, ignored, force, rel), top, IndexedRow(after, rel))
      else IndexedRow(after, rel) == IndexedRow(before, rel)
  }

  /** Submissions name each due path once, with the seq the index had. */
  ghost predicate Submits(before: map<string, Entry>, scan: map<string, Content>, ignored: map<string, Content>,
                          force: bool, sent: seq<Submission>, done: iset<string>) {
    && (forall i | 0 <= i < |sent| :: sent[i].rel in done && IsDue(before, scan, ignored, force, sent[i].rel)
          && sent[i].value == FoundAt(scan, sent[i].rel)
          && sent[i].base == if sent[i].rel in before then before[sent[i].rel].tag else 0)
    && (forall rel | rel in done && IsDue(before, scan, ignored, force, rel) :: exists i ::
        0 <= i < |sent| && sent[i].rel == rel)
    && (forall i, j | 0 <= i < j < |sent| :: sent[i].rel != sent[j].rel)
  }

  ghost function Covered(hint: string): iset<string> {
    iset rel: string | EntryInHint(rel, hint)
  }

  // ---- the fixpoint

  /** Index and disk agree on a path, up to a directory's mtime. */
  predicate Settled(index: map<string, Entry>, scan: map<string, Content>, rel: string) {
    SameFound(IndexedContent(index, rel), FoundAt(scan, rel))
  }

  /** Without ignore rules, nothing is due if and only if index and disk agree. */
  lemma NothingDueIffSettled(index: map<string, Entry>, scan: map<string, Content>, rel: string)
    ensures !IsDue(index, scan, map[], false, rel) <==> Settled(index, scan, rel)
  {}

  /** After a rescan the live index under the hint is the scan, mtimes included, and the rest is untouched. */
  lemma RescanSettles(before: map<string, Entry>, scan: map<string, Content>, top: int, after: map<string, Entry>,
                      hint: string, rel: string)
    requires RowsAfter(before, scan, map[], false, top, after, Covered(hint))
    ensures !EntryInHint(rel, hint) ==> IndexedRow(after, rel) == IndexedRow(before, rel)
    ensures EntryInHint(rel, hint) ==> Settled(after, scan, rel)
    ensures EntryInHint(rel, hint) && FoundAt(scan, rel).Dir? ==> IndexedContent(after, rel) == scan[rel]
  {
    NothingDueIffSettled(before, scan, rel);
    assert rel in Covered(hint) <==> EntryInHint(rel, hint);
    assert if rel in Covered(hint)
      then RowAfter(IndexedRow(before, rel), FoundAt(scan, rel), IsDue(before, scan, map[], false, rel), top,
          IndexedRow(after, rel))
      else IndexedRow(after, rel) == IndexedRow(before, rel);
  }

  /**
    What a conflict-free rescan without ignore rules leaves at a path under the hint, field by field: no live
    row where nothing was found, and otherwise a row of what was found, whether it had to be submitted or not.
  */
  lemma RescanRecordsTheScan(before: map<string, Entry>, scan: map<string, Content>, force: bool, top: int,
                             after: map<string, Entry>, hint: string, rel: string)
    requires RowsAfter(before, scan, map[], force, top, after, Covered(hint)) && EntryInHint(rel, hint)
    requires rel in scan ==> !scan[rel].Gone?
    ensures rel !in scan <==> (rel in after ==> after[rel].value.Gone?)
    ensures rel in scan && scan[rel].File? ==>
              rel in after && after[rel].value.File? && after[rel].value.hash == scan[rel].hash
              && after[rel].value.mode == scan[rel].mode && after[rel].value.mtime == scan[rel].mtime
    ensures rel in scan && scan[rel].Dir? ==>
              rel in after && after[rel].value.Dir? && after[rel].value.mode == scan[rel].mode
              && after[rel].value.mtime == scan[rel].mtime
  {
    RowAt(before, scan, map[], force, top, after, hint, rel);
  }

  lemma RowAt(before: map<string, Entry>, scan: map<string, Content>, ignored: map<string, Content>, force: bool,
              top: int, after: map<string, Entry>, hint: string, rel: string)
    requires RowsAfter(before, scan, ignored, force, top, after, Covered(hint)) && EntryInHint(rel, hint)
    ensures RowAfter(IndexedRow(before, rel), FoundAt(scan, rel), IsDue(before, scan, ignored, force, rel), top,
                     IndexedRow(after, rel))
  {
    hide EntryInHint;
    assert rel in Covered(hint) <==> EntryInHint(rel, hint);
  }

  /**
    Exactly what a rescan submits for a path. A removal: the index has a live row, and no rule expects the
    removal. A found path: a rescan is forced, or the kind, a file's hash, mode or mtime, or a directory's mode
    differs; and no rule names a file of just that hash, mode and mtime. A rule never holds a directory back.
  */
  lemma SubmittedIff(before: map<string, Entry>, scan: map<string, Content>, ignored: map<string, Content>,
                     force: bool, sent: seq<Submission>, hint: string, rel: string)
    requires Submits(before, scan, ignored, force, sent, Covered(hint)) && EntryInHint(rel, hint)
    requires rel in scan ==> !scan[rel].Gone?
    ensures rel !in scan ==>
              ((exists i | 0 <= i < |sent| :: sent[i].rel == rel) <==>
               rel in before && !before[rel].value.Gone? && !(rel in ignored && ignored[rel].Gone?))
    ensures rel in scan && scan[rel].Dir? ==>
              ((exists i | 0 <= i < |sent| :: sent[i].rel == rel) <==>
               force || rel !in before || !before[rel].value.Dir? || before[rel].value.mode != scan[rel].mode)
    ensures rel in scan && scan[rel].File? ==>
              ((exists i | 0 <= i < |sent| :: sent[i].rel == rel) <==>
               && (force || rel !in before || !before[rel].value.File? || before[rel].value.hash != scan[rel].hash
                   || before[rel].value.mode != scan[rel].mode || before[rel].value.mtime != scan[rel].mtime)
               && !(rel in ignored && ignored[rel].File? && ignored[rel].hash == scan[rel].hash
                    && ignored[rel].mode == scan[rel].mode && ignored[rel].mtime == scan[rel].mtime))
    ensures forall i | 0 <= i < |sent| && sent[i].rel == rel ::
              && sent[i].value == (if rel in scan then scan[rel] else Gone)
              && sent[i].base == if rel in before then before[rel].tag else 0
  {
    hide EntryInHint;
    assert rel in Covered(hint);
    assert (exists i | 0 <= i < |sent| :: sent[i].rel == rel) <==> IsDue(before, scan, ignored, force, rel);
  }

  /** A path that was not submitted keeps its seq, one that was carries a newer one, and no other row changes. */
  lemma SeqMovesIffSubmitted(before: map<string, Entry>, scan: map<string, Content>, ignored: map<string, Content>,
                             force: bool, top: int, after: map<string, Entry>, sent: seq<Submission>, hint: string,
                             rel: string)
    requires RowsAfter(before, scan, ignored, force, top, after, Covered(hint))
    requires Submits(before, scan, ignored, force, sent, Covered(hint))
    requires rel in before ==> before[rel].tag <= top
    ensures (exists i | 0 <= i < |sent| :: sent[i].rel == rel) <==>
              rel in after && top < after[rel].tag
    ensures !(exists i | 0 <= i < |sent| :: sent[i].rel == rel) ==>
              (rel in after <==> rel in before) && (rel in before ==> after[rel].tag == before[rel].tag)
    ensures !EntryInHint(rel, hint) ==>
              (rel in after <==> rel in before) && (rel in before ==> after[rel] == before[rel])
  {
    hide EntryInHint, IsDue;
    assert (exists i | 0 <= i < |sent| :: sent[i].rel == rel) <==>
           rel in Covered(hint) && IsDue(before, scan, ignored, force, rel);
    if EntryInHint(rel, hint) {
      RowAt(before, scan, ignored, force, top, after, hint, rel);
    } else {
      assert rel !in Covered(hint);
      assert IndexedRow(after, rel) == IndexedRow(before, rel);
    }
  }

  /** A repeated rescan of the same tree submits nothing. */
  lemma RescanIsFixpoint(before: map<string, Entry>, scan: map<string, Content>, top: int, after: map<string, Entry>,
                         hint: string, again: seq<Submission>)
    requires RowsAfter(before, scan, map[], false, top, after, Covered(hint))
    requires Submits(after, scan, map[], false, again, Covered(hint))
    ensures again == []
  {
    hide RowsAfter, IsDue, Settled;
    if again != [] {
      var rel := again[0].rel;
      assert rel in Covered(hint) && IsDue(after, scan, map[], false, rel);
      RescanSettles(before, scan, top, after, hint, rel);
      NothingDueIffSettled(after, scan, rel);
    }
  }

  /** The directories above a path, the root itself among them. */
  function Ancestors(path: string): set<string> {
    set i | 0 <= i < |Parts(path)| :: Join(Parts(path)[..i])
  }

  /** What a remote put has to make before it can write the path: every directory above it that is not there. */
  function MissingParents(scan: map<string, Content>, path: string): set<string> {
    set a | a in Ancestors(path) && a !in scan
  }

  /**
    The tree after a remote put of the value that succeeded: it is at its path, missing directories above it
    were made, and directory mtimes may have moved.
  */
  ghost predicate PutLeaves(scan: map<string, Content>, path: string, value: Content, moved: map<string, Content>) {
    && moved.Keys == scan.Keys + {path} + MissingParents(scan, path)
    && (forall rel | rel in MissingParents(scan, path) :: moved[rel].Dir?)
    && (forall rel | rel in scan[path := value] ::
          var was := scan[path := value][rel];
          if was.Dir? then moved[rel].Dir? && moved[rel].mode == was.mode else moved[rel] == was)
  }

  lemma NotItsOwnAncestor(path: string)
    requires IsNormal(path)
    ensures path !in Ancestors(path)
  {
    hide Split, Join;
    if path in Ancestors(path) {
      var i :| 0 <= i < |Parts(path)| && Join(Parts(path)[..i]) == path;
      forall p | p in Parts(path)[..i] ensures p != "" && '/' !in p { assert p in Parts(path); }
      PartsOfJoin(Parts(path)[..i]);
    }
  }

  /**
    Once index and disk agree, materialising a remote put changes both alike, and although the parents'
    mtimes move, the next rescan has nothing to submit if and only if every directory above the path that
    the hint covers was there: one that the put had to make is echoed, since no row knows it yet.
  */
  lemma RemotePutIsEchoedIffItMadeParents(index: map<string, Entry>, scan: map<string, Content>, path: string,
          e: Entry, moved: map<string, Content>, hint: string, again: seq<Submission>)
    requires IsNormal(path) && !e.value.Gone? && PutLeaves(scan, path, e.value, moved)
    requires forall rel | EntryInHint(rel, hint) :: Settled(index, scan, rel)
    requires Submits(index[path := e], moved, map[], false, again, Covered(hint))
    ensures again == [] <==> forall a | a in Ancestors(path) && EntryInHint(a, hint) :: a in scan
  {
    hide IsDue, SameFound, PutLeaves, Ancestors, IsNormal, EntryInHint;
    if again != [] {
      var rel := again[0].rel;
      assert rel in Covered(hint) && IsDue(index[path := e], moved, map[], false, rel);
      NothingDueIffSettled(index[path := e], moved, rel);
      StillSettled(index, scan, path, e, moved, rel);
    }
    if a :| a in Ancestors(path) && EntryInHint(a, hint) && a !in scan {
      assert a in Covered(hint);
      NothingDueIffSettled(index[path := e], moved, a);
      StillSettled(index, scan, path, e, moved, a);
      assert exists i :: 0 <= i < |again| && again[i].rel == a;
    }
  }

  lemma StillSettled(index: map<string, Entry>, scan: map<string, Content>, path: string, e: Entry,
                     moved: map<string, Content>, rel: string)
    requires IsNormal(path) && Settled(index, scan, rel) && !e.value.Gone? && PutLeaves(scan, path, e.value, moved)
    ensures Settled(index[path := e], moved, rel) <==> rel !in MissingParents(scan, path)
  {
    hide Ancestors, IsNormal;
    NotItsOwnAncestor(path);
  }

  /** A concrete echo: a put of a/b.txt into an empty root makes a, and the next rescan submits a. */
  lemma MadeParentIsEchoed(root: Content, doc: Entry, a: Content, again: seq<Submission>)
    requires root.Dir? && a.Dir? && doc.value.File?
    requires Submits(map["" := Entry(root, 1), "a/b.txt" := doc], map["" := root, "a" := a, "a/b.txt" := doc.value],
                     map[], false, again, Covered(""))
    ensures PutLeaves(map["" := root], "a/b.txt", doc.value, map["" := root, "a" := a, "a/b.txt" := doc.value])
    ensures again == [Submission("a", a, 0)]
  {
    ParentsOfDoc();
    var index := map["" := Entry(root, 1), "a/b.txt" := doc];
    var moved := map["" := root, "a" := a, "a/b.txt" := doc.value];
    OnlyTheParentIsDue(root, doc, a);
    hide IsDue;
    assert "a" in Covered("");
    var i :| 0 <= i < |again| && again[i].rel == "a";
    assert forall j | 0 <= j < |again| :: again[j].rel == "a";
    assert again[|again| - 1].rel == again[0].rel;
  }

  lemma OnlyTheParentIsDue(root: Content, doc: Entry, a: Content)
    requires root.Dir? && a.Dir? && doc.value.File?
    ensures var index := map["" := Entry(root, 1), "a/b.txt" := doc];
            var moved := map["" := root, "a" := a, "a/b.txt" := doc.value];
            forall rel :: IsDue(index, moved, map[], false, rel) <==> rel == "a"
  {}

  lemma ParentsOfDoc()
    ensures Ancestors("a/b.txt") == {"", "a"}
  {
    assert "a/b.txt" == "a" + "/" + "b.txt";
    SplitCons("a", "b.txt");
    var parts := Parts("a/b.txt");
    assert parts == ["a", "b.txt"] by { NoSeparatorInDoc(); }
    assert parts[..0] == [] && parts[..1] == ["a"];
    assert Join(parts[..0]) in Ancestors("a/b.txt") && Join(parts[..1]) in Ancestors("a/b.txt");
  }

  lemma NoSeparatorInDoc()
    ensures Split("b.txt") == ["b.txt"]
  {
    assert '/' !in "b.txt";
  }

  // ---- the loops

  class Index {
    var rows: map<string, Entry>
    var submitted: seq<Submission>
    var seqno: int

    constructor (start: map<string, Entry>, top: int)
      ensures rows == start && submitted == [] && seqno == top
    {
      rows, submitted, seqno := start, [], top;
    }

    /** The server accepts: no conflict, and a seq above every earlier one. */
    method Submit(rel: string, value: Content, base: int) returns (accepted: int)
      modifies this`submitted, this`seqno
      ensures accepted == seqno && old(seqno) < seqno
      ensures submitted == old(submitted) + [Submission(rel, value, base)]
    {
      var gap: int :| 0 <= gap;
      seqno := seqno + 1 + gap;
      submitted := submitted + [Submission(rel, value, base)];
      accepted := seqno;
    }

    /** A live row whose file is gone becomes a tombstone, unless its removal was expected. */
    method SubmitDeletion(rel: string, ignored: map<string, Content>)
      requires rel in rows
      modifies this
      ensures old(seqno) <= seqno
      ensures var due := !old(rows)[rel].value.Gone? && !(rel in ignored && ignored[rel].Gone?);
              if due then rows == old(rows)[rel := Entry(Gone, seqno)] && old(seqno) < seqno
                          && submitted == old(submitted) + [Submission(rel, Gone, old(rows)[rel].tag)]
              else rows == old(rows) && submitted == old(submitted)
    {
      if rows[rel].value.Gone? {
        return;
      }
      if rel in ignored && ignored[rel].Gone? {
        return;
      }
      var accepted := Submit(rel, Gone, rows[rel].tag);
      rows := rows[rel := Entry(Gone, accepted)];
    }

    method SubmitFound(rel: string, found: Content, ignored: map<string, Content>, force: bool)
      requires !found.Gone?
      modifies this
      ensures old(seqno) <= seqno
      ensures var v := IndexedContent(old(rows), rel);
              var due := (force || !SameFound(v, found))
                  && !(found.File? && rel in ignored && SameFound(ignored[rel], found));
              if due then rows == old(rows)[rel := Entry(found, seqno)] && old(seqno) < seqno
                          && submitted == old(submitted)
                              + [Submission(rel, found, if rel in old(rows) then old(rows)[rel].tag else 0)]
              else submitted == old(submitted)
                   && if found.Dir? && SameFound(v, found)
                       then rel in old(rows) && rows == old(rows)[rel := Entry(found, old(rows)[rel].tag)]
                      else rows == old(rows)
    {
      var base := if rel in rows then rows[rel].tag else 0;
      if found.Dir? {
        if !force && rel in rows && rows[rel].value.Dir? && rows[rel].value.mode == found.mode {
          if rows[rel].value.mtime != found.mtime {
            rows := rows[rel := Entry(found, rows[rel].tag)];
          }
          assert rows == old(rows)[rel := Entry(found, old(rows)[rel].tag)];
          return;
        }
      } else {
        if !force && rel in rows && rows[rel].value.File? && rows[rel].value.hash == found.hash
           && rows[rel].value.mode == found.mode && rows[rel].value.mtime == found.mtime {
          return;
        }
        if rel in ignored && ignored[rel].File? && ignored[rel].hash == found.hash
           && ignored[rel].mode == found.mode && ignored[rel].mtime == found.mtime {
          return;
        }
      }
      var accepted := Submit(rel, found, base);
      rows := rows[rel := Entry(found, accepted)];
    }

    /** The rows under the hint that the scan no longer finds, in any order. */
    method SubmitMissing(scan: map<string, Content>, missing: set<string>, ignored: map<string, Content>,
                         ghost force: bool)
      returns (ghost sent: seq<Submission>, ghost done: iset<string>)
      requires missing <= rows.Keys && missing !! scan.Keys
      modifies this
      ensures submitted == old(submitted) + sent && old(seqno) <= seqno && done == iset rel | rel in missing
      ensures RowsAfter(old(rows), scan, ignored, force, old(seqno), rows, done)
      ensures Submits(old(rows), scan, ignored, force, sent, done)
    {
      hide RowsAfter, Submits, RowAfter, IsDue, SameFound;
      ghost var before, top := rows, seqno;
      sent, done := [], iset{};
      NothingDone(before, scan, ignored, force, top);
      var rest := missing;
      while rest != {}
        invariant rest <= missing && done == iset rel | rel in missing && rel !in rest
        invariant submitted == old(submitted) + sent && top <= seqno
        invariant RowsAfter(before, scan, ignored, force, top, rows, done)
                  && Submits(before, scan, ignored, force, sent, done)
        decreases |rest|
      {
        var rel := AnyOf(rest);
        ghost var mid := rows;
        UndoneRow(before, scan, ignored, force, top, mid, done, rel);
        SubmitDeletion(rel, ignored);
        ghost var added := submitted[|old(submitted) + sent|..];
        DeletionStep(before, scan, ignored, force, top, mid, rows, seqno, rel, added);
        StepRows(before, scan, ignored, force, top, mid, rows, done, rel);
        StepSubmits(before, scan, ignored, force, sent, added, done, rel);
        sent, done, rest := sent + added, done + iset{rel}, rest - {rel};
      }
    }

    /** Everything the scan found, in scan order. */
    method SubmitAllFound(scan: map<string, Content>, order: seq<string>, ignored: map<string, Content>, force: bool,
                          ghost before: map<string, Entry>, ghost top: int, ghost first: seq<Submission>,
                          ghost gone: iset<string>)
      returns (ghost sent: seq<Submission>, ghost done: iset<string>)
      requires (forall rel | rel in order :: rel in scan && !scan[rel].Gone? && rel !in gone)
      requires forall i, j | 0 <= i < j < |order| :: order[i] != order[j]
      requires top <= seqno && |first| <= |submitted| && submitted[|submitted| - |first|..] == first
      requires RowsAfter(before, scan, ignored, force, top, rows, gone)
               && Submits(before, scan, ignored, force, first, gone)
      modifies this
      ensures |first| <= |sent| && submitted == old(submitted) + sent[|first|..] && first == sent[..|first|]
      ensures done == iset rel | rel in gone || rel in order
      ensures RowsAfter(before, scan, ignored, force, top, rows, done)
              && Submits(before, scan, ignored, force, sent, done)
    {
      hide RowsAfter, Submits, RowAfter, IsDue, SameFound;
      sent, done := first, gone;
      for i := 0 to |order|
        invariant done == iset rel | rel in gone || rel in order[..i]
        invariant |first| <= |sent| && submitted == old(submitted) + sent[|first|..] && first == sent[..|first|]
                  && top <= seqno
        invariant RowsAfter(before, scan, ignored, force, top, rows, done)
                  && Submits(before, scan, ignored, force, sent, done)
      {
        var rel := order[i];
        ghost var mid, was := rows, submitted;
        UndoneRow(before, scan, ignored, force, top, mid, done, rel);
        SubmitFound(rel, scan[rel], ignored, force);
        ghost var added := submitted[|was|..];
        FoundStep(before, scan, ignored, force, top, mid, rows, seqno, rel, added);
        StepRows(before, scan, ignored, force, top, mid, rows, done, rel);
        StepSubmits(before, scan, ignored, force, sent, added, done, rel);
        assert (sent + added)[|first|..] == sent[|first|..] + added;
        sent, done := sent + added, done + iset{rel};
        assert order[..i + 1] == order[..i] + [rel];
      }
      assert order[..|order|] == order;
    }

    /** A conflict-free rescan of a hint. */
    method RescanRootHint(scan: map<string, Content>, order: seq<string>, hint: string, ignored: map<string, Content>,
                          force: bool)
      returns (ghost sent: seq<Submission>)
      requires (set rel | rel in order) == scan.Keys && forall i, j | 0 <= i < j < |order| :: order[i] != order[j]
      requires forall rel | rel in scan :: !scan[rel].Gone? && EntryInHint(rel, hint)
      modifies this
      ensures submitted == old(submitted) + sent
      ensures RowsAfter(old(rows), scan, ignored, force, old(seqno), rows, Covered(hint))
      ensures Submits(old(rows), scan, ignored, force, sent, Covered(hint))
    {
      hide RowsAfter, Submits, EntryInHint;
      ghost var before, top := rows, seqno;
      assert forall rel | rel in order :: rel in set r | r in order;
      var missing := set rel | rel in rows && EntryInHint(rel, hint) && rel !in scan;
      ghost var first, gone := SubmitMissing(scan, missing, ignored, force);
      ghost var done;
      assert submitted[|submitted| - |first|..] == first;
      sent, done := SubmitAllFound(scan, order, ignored, force, before, top, first, gone);
      assert first + sent[|first|..] == sent;
      assert forall rel | rel in scan :: rel in order by {
        assert forall rel | rel in scan :: rel in set r | r in order;
      }
      RestIsUntouched(before, scan, ignored, force, top, rows, sent, done, hint);
    }
  }

  lemma NothingDone(before: map<string, Entry>, scan: map<string, Content>, ignored: map<string, Content>,
                    force: bool, top: int)
    ensures RowsAfter(before, scan, ignored, force, top, before, iset{})
    ensures Submits(before, scan, ignored, force, [], iset{})
  {}

  lemma UndoneRow(before: map<string, Entry>, scan: map<string, Content>, ignored: map<string, Content>, force: bool,
                  top: int, mid: map<string, Entry>, done: iset<string>, rel: string)
    requires RowsAfter(before, scan, ignored, force, top, mid, done) && rel !in done
    ensures IndexedRow(mid, rel) == IndexedRow(before, rel)
    ensures rel in mid <==> rel in before
    ensures rel in before ==> mid[rel] == before[rel]
  {}

  lemma StepRows(before: map<string, Entry>, scan: map<string, Content>, ignored: map<string, Content>, force: bool,
                 top: int, mid: map<string, Entry>, after: map<string, Entry>, done: iset<string>, rel: string)
    requires RowsAfter(before, scan, ignored, force, top, mid, done) && rel !in done
    requires forall r | r != rel :: IndexedRow(after, r) == IndexedRow(mid, r)
    requires RowAfter(IndexedRow(before, rel), FoundAt(scan, rel), IsDue(before, scan, ignored, force, rel), top,
             IndexedRow(after, rel))
    ensures RowsAfter(before, scan, ignored, force, top, after, done + iset{rel})
  {
    hide RowAfter, IsDue;
  }

  lemma StepSubmits(before: map<string, Entry>, scan: map<string, Content>, ignored: map<string, Content>,
                    force: bool, sent: seq<Submission>, added: seq<Submission>, done: iset<string>, rel: string)
    requires Submits(before, scan, ignored, force, sent, done) && rel !in done
    requires added == if IsDue(before, scan, ignored, force, rel)
                      then [Submission(rel, FoundAt(scan, rel), if rel in before then before[rel].tag else 0)] else []
    ensures Submits(before, scan, ignored, force, sent + added, done + iset{rel})
  {
    hide IsDue, FoundAt;
    var all := sent + added;
    forall r | r in done + iset{rel} && IsDue(before, scan, ignored, force, r)
        ensures exists i :: 0 <= i < |all| && all[i].rel == r {
      if r == rel {
        assert all[|sent|].rel == rel;
      } else {
        var i :| 0 <= i < |sent| && sent[i].rel == r;
        assert all[i].rel == r;
      }
    }
  }

  lemma DeletionStep(before: map<string, Entry>, scan: map<string, Content>, ignored: map<string, Content>,
                     force: bool, top: int, mid: map<string, Entry>, after: map<string, Entry>, seqno: int,
                     rel: string, added: seq<Submission>)
    requires rel in mid && rel in before && mid[rel] == before[rel] && rel !in scan
    requires var due := !mid[rel].value.Gone? && !(rel in ignored && ignored[rel].Gone?);
             if due then after == mid[rel := Entry(Gone, seqno)] && top < seqno
                 && added == [Submission(rel, Gone, mid[rel].tag)]
             else after == mid && added == []
    ensures forall r | r != rel :: IndexedRow(after, r) == IndexedRow(mid, r)
    ensures RowAfter(IndexedRow(before, rel), FoundAt(scan, rel), IsDue(before, scan, ignored, force, rel), top,
            IndexedRow(after, rel))
    ensures added == if IsDue(before, scan, ignored, force, rel)
                     then [Submission(rel, FoundAt(scan, rel), if rel in before then before[rel].tag else 0)] else []
  {}

  lemma FoundStep(before: map<string, Entry>, scan: map<string, Content>, ignored: map<string, Content>, force: bool,
                  top: int, mid: map<string, Entry>, after: map<string, Entry>, seqno: int, rel: string,
                  added: seq<Submission>)
    requires rel in scan && !scan[rel].Gone? && (rel in mid <==> rel in before)
             && (rel in before ==> mid[rel] == before[rel])
    requires var v, found := IndexedContent(mid, rel), scan[rel];
             var due := (force || !SameFound(v, found))
                 && !(found.File? && rel in ignored && SameFound(ignored[rel], found));
             if due then after == mid[rel := Entry(found, seqno)] && top < seqno
                         && added == [Submission(rel, found, if rel in mid then mid[rel].tag else 0)]
             else added == []
                  && if found.Dir? && SameFound(v, found)
                      then rel in mid && after == mid[rel := Entry(found, mid[rel].tag)] else after == mid
    ensures forall r | r != rel :: IndexedRow(after, r) == IndexedRow(mid, r)
    ensures RowAfter(IndexedRow(before, rel), FoundAt(scan, rel), IsDue(before, scan, ignored, force, rel), top,
            IndexedRow(after, rel))
    ensures added == if IsDue(before, scan, ignored, force, rel)
                     then [Submission(rel, FoundAt(scan, rel), if rel in before then before[rel].tag else 0)] else []
  {}

  /** Paths under the hint that neither the index nor the scan knows need nothing. */
  lemma RestIsUntouched(before: map<string, Entry>, scan: map<string, Content>, ignored: map<string, Content>,
                        force: bool, top: int, after: map<string, Entry>, sent: seq<Submission>, done: iset<string>,
                        hint: string)
    requires RowsAfter(before, scan, ignored, force, top, after, done)
             && Submits(before, scan, ignored, force, sent, done)
    requires forall rel | rel in done :: EntryInHint(rel, hint)
    requires forall rel | EntryInHint(rel, hint) && rel !in done :: rel !in before && rel !in scan
    ensures RowsAfter(before, scan, ignored, force, top, after, Covered(hint))
    ensures Submits(before, scan, ignored, force, sent, Covered(hint))
  {
    hide EntryInHint;
  }
}
