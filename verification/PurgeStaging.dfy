/**
  The two phases of a purge around its database commit. Blobs are content-addressed, so a blob is its
  object id: it is in the store, in a staging directory, or nowhere. Any step may fail, the process may
  stop at any step, and a rename that was not synced may be undone by the stop.
*/
module PurgeStaging {
  import opened Records

  datatype Fault = Fine | Error | Stop
  datatype Outcome = Done | Failed | Stopped

  type StageDir = string

  class Admin {
    var rows: set<ObjectId>
    var store: set<ObjectId>
    var stages: map<StageDir, set<ObjectId>>
    /** Renames into a staging directory that no sync has made durable yet. */
    var unsynced: set<ObjectId>
    /** Some step failed or was the last one of its process. */
    ghost var faulted: bool

    constructor (objects: set<ObjectId>, blobs: set<ObjectId>)
      ensures rows == objects && store == blobs && stages == map[] && unsynced == {} && !faulted
    {
      rows, store, stages, unsynced, faulted := objects, blobs, map[], {}, false;
    }

    ghost predicate Staged(o: ObjectId)
      reads this`stages
    {
      exists d :: d in stages && o in stages[d]
    }

    /**
      Every row of `had` still has its blob somewhere; no blob of `banned` is in the store, nor can it get there;
      and of the blobs of `had`, which are all there are, only those of `aside` may be out of the store.
    */
    ghost predicate Sound(had: set<ObjectId>, banned: set<ObjectId>, aside: set<ObjectId>)
      reads this
    {
      && (forall o | o in had && o in rows :: o in store || Staged(o))
      && (forall o | o in banned :: o !in store && o !in rows && o !in unsynced)
      && (forall o | o in unsynced :: Staged(o))
      && had - aside <= store <= had
      && (forall o | Staged(o) :: o in had)
    }

    /** What a step meets: nothing, an error it can report, or the end of the process. */
    method Step() returns (f: Fault)
      modifies this`faulted
      ensures faulted == (old(faulted) || f != Fine)
    {
      f := *;
      faulted := faulted || f != Fine;
    }

    /** The machine comes back: renames that were never synced may have been undone. */
    method Restart(ghost had: set<ObjectId>, ghost banned: set<ObjectId>, ghost aside: set<ObjectId>)
      requires Sound(had, banned, aside)
      modifies this`store, this`stages, this`unsynced
      ensures Sound(had, banned, aside) && unsynced == {}
      ensures stages.Keys == old(stages).Keys
    {
      var undone: set<ObjectId> := *;
      undone := undone * unsynced;
      store := store + undone;
      stages := map d | d in stages :: stages[d] - undone;
      unsynced := {};
      assert forall o | old(Staged(o)) && o !in undone :: Staged(o) by {
        forall o | old(Staged(o)) && o !in undone ensures Staged(o) {
          var d :| d in old(stages) && o in old(stages)[d];
          assert d in stages && o in stages[d];
        }
      }
    }

    /** The target wins if it exists; otherwise the staged file is renamed back. */
    method RestoreStagedObject(dir: StageDir, o: ObjectId, ghost had: set<ObjectId>, ghost banned: set<ObjectId>,
                               ghost aside: set<ObjectId>)
      returns (r: Outcome)
      requires Sound(had, banned, aside) && dir in stages && o !in banned
      modifies this`store, this`stages, this`unsynced, this`faulted
      ensures Sound(had, banned, aside) && stages.Keys == old(stages).Keys
      ensures forall d | d in stages && d != dir :: stages[d] == old(stages)[d]
      ensures old(stages)[dir] - {o} <= stages[dir] <= old(stages)[dir]
      ensures old(store) <= store <= old(store) + {o}
      ensures r == Done ==> stages[dir] == old(stages)[dir] - {o}
      ensures r == Done && o in old(stages)[dir] ==> o in store
      ensures unsynced <= old(unsynced)
      ensures (old(faulted) ==> faulted) && (r == Done || faulted)
    {
      var f := Step();
      if f != Fine {
        return if f == Error then Failed else Stopped;
      }
      if o in store {
        stages := stages[dir := stages[dir] - {o}];
        unsynced := unsynced - {o};
      } else if o in stages[dir] {
        store := store + {o};
        stages := stages[dir := stages[dir] - {o}];
        unsynced := unsynced - {o};
      }
      KeepsOthersStaged(old(stages), dir, o);
      f := Step();
      return if f == Fine then Done else if f == Error then Failed else Stopped;
    }

    /** Taking one object out of one directory leaves every other staged object staged. */
    lemma KeepsOthersStaged(before: map<StageDir, set<ObjectId>>, dir: StageDir, o: ObjectId)
      requires dir in before && stages.Keys == before.Keys
      requires forall d | d in before && d != dir :: stages[d] == before[d]
      requires before[dir] - {o} <= stages[dir]
      ensures forall p, d | d in before && p in before[d] && p != o :: Staged(p)
    {
      forall p, d | d in before && p in before[d] && p != o ensures Staged(p) {
        assert p in stages[d];
      }
    }

    /** Errors are remembered but do not end the loop; the emptied directory is removed last. */
    method RestoreStagedObjects(dir: StageDir, staged: set<ObjectId>, ghost had: set<ObjectId>,
                                ghost banned: set<ObjectId>, ghost aside: set<ObjectId>)
      returns (r: Outcome)
      requires Sound(had, banned, aside) && dir in stages && staged !! banned
      modifies this`store, this`stages, this`unsynced, this`faulted
      ensures Sound(had, banned, aside)
      ensures forall d | d in old(stages) && d != dir :: d in stages && stages[d] == old(stages)[d]
      ensures stages.Keys <= old(stages).Keys
      ensures store <= old(store) + staged
      ensures (old(faulted) ==> faulted)
    {
      r := Done;
      var rest := staged;
      while rest != {}
        invariant old(faulted) ==> faulted
        invariant rest <= staged && Sound(had, banned, aside) && stages.Keys == old(stages).Keys && dir in stages
        invariant forall d | d in stages && d != dir :: stages[d] == old(stages)[d]
        invariant store <= old(store) + staged
        decreases |rest|
      {
        var o := AnyOf(rest);
        var one := RestoreStagedObject(dir, o, had, banned, aside);
        if one == Stopped {
          return Stopped;
        }
        if one != Done {
          r := Failed;
        }
        rest := rest - {o};
      }
      var removed := RemoveEmpty(dir, had, banned, aside);
      if removed != Done {
        r := removed;
      }
    }

    /** rmdir refuses a directory that still holds a file. */
    method RemoveEmpty(dir: StageDir, ghost had: set<ObjectId>, ghost banned: set<ObjectId>, ghost aside: set<ObjectId>)
      returns (r: Outcome)
      requires Sound(had, banned, aside) && dir in stages
      modifies this`stages, this`faulted
      ensures Sound(had, banned, aside)
      ensures stages == old(stages) || (stages == old(stages) - {dir} && old(stages)[dir] == {})
      ensures r == Done ==> stages == old(stages) - {dir}
      ensures (old(faulted) ==> faulted) && (r == Done || faulted || old(stages)[dir] != {})
    {
      var f := Step();
      if f == Fine && stages[dir] == {} {
        stages := stages - {dir};
        EmptyDirsDoNotMatter(old(stages), dir);
        f := Step();
        return if f == Fine then Done else if f == Error then Failed else Stopped;
      }
      return if f == Stop then Stopped else Failed;
    }

    lemma EmptyDirsDoNotMatter(before: map<StageDir, set<ObjectId>>, dir: StageDir)
      requires dir in before && before[dir] == {} && stages == before - {dir}
      ensures forall o, d | d in before && o in before[d] :: Staged(o)
    {
      forall o, d | d in before && o in before[d] ensures Staged(o) {
        assert d != dir && d in stages;
      }
    }

    /** Renames one blob into the staging directory; a missing blob is no error. */
    method StageObject(dir: StageDir, o: ObjectId, ghost had: set<ObjectId>, ghost banned: set<ObjectId>,
                       ghost aside: set<ObjectId>)
      returns (r: Outcome, moved: bool)
      requires Sound(had, banned, aside) && dir in stages && o in aside
      modifies this`store, this`stages, this`unsynced, this`faulted
      ensures Sound(had, banned, aside) && stages.Keys == old(stages).Keys
      ensures forall d | d in stages && d != dir :: stages[d] == old(stages)[d]
      ensures moved ==> o in old(store) && store == old(store) - {o} && stages[dir] == old(stages)[dir] + {o}
      ensures !moved ==> store == old(store) && stages == old(stages)
      ensures r == Done ==> moved == (o in old(store))
      ensures moved ==> r == Done || r == Stopped
      ensures (old(faulted) ==> faulted) && (r == Done || faulted)
    {
      var f := Step();
      if f != Fine {
        return (if f == Error then Failed else Stopped), false;
      }
      if o !in store {
        return Done, false;
      }
      store := store - {o};
      stages := stages[dir := stages[dir] + {o}];
      unsynced := unsynced + {o};
      StagingAddsOnly(old(stages), dir, o);
      f := Step();
      return (if f == Stop then Stopped else Done), true;
    }

    lemma StagingAddsOnly(before: map<StageDir, set<ObjectId>>, dir: StageDir, o: ObjectId)
      requires dir in before && stages == before[dir := before[dir] + {o}]
      ensures Staged(o)
      ensures forall p, d | d in before && p in before[d] :: Staged(p)
    {
      assert dir in stages && o in stages[dir];
      forall p, d | d in before && p in before[d] ensures Staged(p) {
        assert d in stages && p in stages[d];
      }
    }

    /** Moves every candidate's blob aside, durably: only then may the database forget the rows. */
    method StagePurgeObjects(objects: seq<ObjectId>, dir: StageDir, ghost had: set<ObjectId>,
                             ghost banned: set<ObjectId>, ghost aside: set<ObjectId>)
      returns (r: Outcome, staged: set<ObjectId>)
      requires Sound(had, banned, aside) && stages == map[] && unsynced == {} && (set o | o in objects) <= aside
      modifies this`store, this`stages, this`unsynced, this`faulted
      ensures Sound(had, banned, aside) && staged !! banned
      ensures r == Done ==> unsynced == {} && staged <= old(store) && store == old(store) - staged
      ensures r == Done ==> staged == (set o | o in objects) * old(store)
      ensures r == Done ==> stages == if |objects| == 0 then map[] else map[dir := staged]
      ensures (old(faulted) ==> faulted) && (r == Done || faulted)
    {
      staged := {};
      if |objects| == 0 {
        return Done, {};
      }
      var f := Step();
      if f != Fine {
        return (if f == Error then Failed else Stopped), {};
      }
      stages := stages[dir := {}];
      assert forall o :: !Staged(o);
      f := Step();
      if f != Fine {
        var ignored := RemoveEmpty(dir, had, banned, aside);
        return (if f == Error then Failed else Stopped), {};
      }
      var i := 0;
      while i < |objects|
        invariant old(faulted) ==> faulted
        invariant 0 <= i <= |objects| && Sound(had, banned, aside) && stages == map[dir := staged]
        invariant staged <= old(store) && staged !! banned && store == old(store) - staged
        invariant staged == (set o | o in objects[..i]) * old(store)
      {
        var moved;
        r, moved := StageObject(dir, objects[i], had, banned, aside);
        assert objects[..i + 1] == objects[..i] + [objects[i]];
        if moved {
          staged := staged + {objects[i]};
        }
        if r == Stopped {
          return;
        }
        if r == Failed {
          var ignored := RestoreStagedObjects(dir, staged, had, banned, aside);
          return;
        }
        i := i + 1;
      }
      assert objects[..i] == objects;
      f := Step();
      if f == Stop {
        return Stopped, staged;
      }
      if f == Error {
        var ignored := RestoreStagedObjects(dir, staged, had, banned, aside);
        return Failed, staged;
      }
      unsynced := {};
      return Done, staged;
    }

    /** Everything the commit left a row for goes back; the rest of the directory is deleted. */
    method FinishPurge(dir: StageDir, staged: set<ObjectId>, deleted: set<ObjectId>, ghost had: set<ObjectId>,
                       ghost banned: set<ObjectId>, ghost aside: set<ObjectId>)
      returns (r: Outcome)
      requires Sound(had, banned, aside) && stages == map[dir := staged] && deleted !! rows
               && staged * deleted <= banned
      requires (staged - deleted) !! banned
      modifies this`store, this`stages, this`unsynced, this`faulted
      ensures Sound(had, banned, aside)
      ensures r == Done ==> stages == map[] && store == old(store) + (staged - deleted)
      ensures (old(faulted) ==> faulted) && (r == Done || faulted)
    {
      var rest := staged;
      while rest != {}
        invariant old(faulted) ==> faulted
        invariant rest <= staged && Sound(had, banned, aside) && stages.Keys == {dir}
        invariant stages[dir] == staged - (staged - rest - deleted)
        invariant store == old(store) + (staged - rest - deleted)
        decreases |rest|
      {
        var o := AnyOf(rest);
        if o !in deleted {
          r := RestoreStagedObject(dir, o, had, banned, aside);
          if r != Done {
            return;
          }
        }
        rest := rest - {o};
      }
      r := RemoveTree(dir, had, banned, aside);
    }

    /** Deleting the directory may stop half-way; only blobs without a row are in it by now. */
    method RemoveTree(dir: StageDir, ghost had: set<ObjectId>, ghost banned: set<ObjectId>, ghost aside: set<ObjectId>)
      returns (r: Outcome)
      requires Sound(had, banned, aside) && stages.Keys == {dir}
      requires forall o | o in stages[dir] && o in rows :: o in store
      modifies this`stages, this`unsynced, this`faulted
      ensures Sound(had, banned, aside)
      ensures r == Done ==> stages == map[]
      ensures (old(faulted) ==> faulted) && (r == Done || faulted)
    {
      var f := Step();
      var kept: set<ObjectId> := *;
      unsynced := {};
      if f == Fine {
        stages := map[];
        return Done;
      }
      stages := map[dir := stages[dir] * kept];
      return if f == Error then Failed else Stopped;
    }

    /**
      A purge of objects nobody else may name. `doomed` are the candidates the transaction would delete:
      the commit takes all of their rows or none. The result says which staged blobs have lost their row.
    */
    method PurgeWorkspace(objects: seq<ObjectId>, doomed: set<ObjectId>, dir: StageDir, ghost had: set<ObjectId>,
                          ghost banned: set<ObjectId>, ghost aside: set<ObjectId>)
      returns (r: Outcome, ghost gone: set<ObjectId>)
      requires Sound(had, banned, aside) && stages == map[] && unsynced == {} && (set o | o in objects) <= aside
      requires doomed <= set o | o in objects
      modifies this
      ensures rows == old(rows) || rows == old(rows) - doomed
      ensures gone == (old(rows) - rows) * old(store)
      ensures Sound(had, banned + gone, aside)
      ensures r == Done ==> stages == map[] && rows == old(rows) - doomed && store == old(store) - (doomed * old(rows))
      ensures (old(faulted) ==> faulted) && (r == Done || faulted)
    {
      gone := {};
      assert banned + gone == banned;
      var staged;
      r, staged := StagePurgeObjects(objects, dir, had, banned, aside);
      if r != Done {
        return;
      }
      var f := Step();
      if f == Error {
        if dir in stages {
          var ignored := RestoreStagedObjects(dir, staged, had, banned, aside);
        }
        return Failed, {};
      }
      var committed: bool := *;
      if f == Stop && !committed {
        return Stopped, {};
      }
      var deleted := doomed * rows;
      rows := rows - doomed;
      gone := staged * deleted;
      if f == Stop {
        return Stopped, gone;
      }
      if |objects| == 0 {
        return Done, gone;
      }
      r := FinishPurge(dir, staged, deleted, had, banned + gone, aside);
    }

    /** One staged file: back to the store if its row exists, deleted otherwise. */
    method RecoverObject(dir: StageDir, o: ObjectId, ghost had: set<ObjectId>, ghost banned: set<ObjectId>,
                         ghost aside: set<ObjectId>)
      returns (r: Outcome)
      requires Sound(had, banned, aside) && dir in stages && o in stages[dir]
      modifies this`store, this`stages, this`unsynced, this`faulted
      ensures Sound(had, banned, aside) && stages.Keys == old(stages).Keys
      ensures forall d | d in stages && d != dir :: stages[d] == old(stages)[d]
      ensures r == Done ==> stages[dir] == old(stages)[dir] - {o}
      ensures stages[dir] <= old(stages)[dir]
      ensures old(store) <= store
      ensures r == Done && o in rows ==> o in store
      ensures (old(faulted) ==> faulted) && (r == Done || faulted)
    {
      if o in rows {
        r := RestoreStagedObject(dir, o, had, banned, aside);
        return;
      }
      var f := Step();
      if f == Fine {
        stages := stages[dir := stages[dir] - {o}];
        unsynced := unsynced - {o};
        KeepsOthersStaged(old(stages), dir, o);
        return Done;
      }
      return if f == Error then Failed else Stopped;
    }

    method RecoverDir(dir: StageDir, ghost had: set<ObjectId>, ghost banned: set<ObjectId>, ghost aside: set<ObjectId>)
      returns (r: Outcome)
      requires Sound(had, banned, aside) && dir in stages
      modifies this`store, this`stages, this`unsynced, this`faulted
      ensures Sound(had, banned, aside) && stages.Keys <= old(stages).Keys
      ensures r == Done ==> stages.Keys == old(stages).Keys - {dir}
      ensures (old(faulted) ==> faulted) && (r == Done || faulted)
    {
      var rest := stages[dir];
      while rest != {}
        invariant old(faulted) ==> faulted
        invariant Sound(had, banned, aside) && stages.Keys == old(stages).Keys && rest == stages[dir]
        decreases |rest|
      {
        var o := AnyOf(rest);
        r := RecoverObject(dir, o, had, banned, aside);
        if r != Done {
          return;
        }
        rest := rest - {o};
      }
      r := RemoveEmpty(dir, had, banned, aside);
    }

    /** Start-up recovery: whatever it meets, it keeps every blob that has a row and brings back none that has not. */
    method RecoverPurgeStaging(ghost had: set<ObjectId>, ghost banned: set<ObjectId>, ghost aside: set<ObjectId>)
      returns (r: Outcome)
      requires Sound(had, banned, aside)
      modifies this`store, this`stages, this`unsynced, this`faulted
      ensures Sound(had, banned, aside)
      ensures r == Done ==> stages == map[]
      ensures r == Done ==> forall o | o in had && o in rows :: o in store
      ensures (old(faulted) ==> faulted) && (r == Done || faulted)
    {
      var dirs := stages.Keys;
      while dirs != {}
        invariant old(faulted) ==> faulted
        invariant Sound(had, banned, aside) && stages.Keys == dirs
        decreases |dirs|
      {
        var dir :| dir in dirs;
        r := RecoverDir(dir, had, banned, aside);
        if r != Done {
          return;
        }
        dirs := dirs - {dir};
      }
      r := Done;
    }

    /**
      Purge crash safety. A purge that stops anywhere, then any number of recoveries that themselves may
      stop or fail anywhere: as soon as one completes, no staging is left, every row that had a blob has
      it, and no blob whose row the purge deleted is back in the store.
    */
    method PurgeSurvivesCrashes(objects: seq<ObjectId>, doomed: set<ObjectId>, dir: StageDir, restarts: nat)
      returns (recovered: bool, ghost gone: set<ObjectId>)
      requires stages == map[] && unsynced == {} && doomed <= set o | o in objects
      modifies this
      ensures rows == old(rows) || rows == old(rows) - doomed
      ensures recovered ==> stages == map[]
      ensures recovered ==> forall o | o in old(store) && o in rows :: o in store
      ensures old(store) - (set o | o in objects) <= store <= old(store)
      ensures recovered && (forall o | o in objects :: o in old(rows)) ==> store == old(store) - gone
      ensures recovered || restarts == 0 || faulted
      ensures forall o | o in gone :: o !in store && o !in rows
      ensures gone == (old(rows) - rows) * old(store)
    {
      ghost var had, aside := store, set o | o in objects;
      var r;
      r, gone := PurgeWorkspace(objects, doomed, dir, had, {}, aside);
      assert {} + gone == gone;
      recovered := false;
      ghost var left := rows;
      var i := 0;
      while i < restarts && !recovered
        invariant old(faulted) ==> faulted
        invariant Sound(had, gone, aside) && rows == left
        invariant recovered ==> stages == map[] && forall o | o in had && o in rows :: o in store
        invariant recovered || i == 0 || faulted
      {
        Restart(had, gone, aside);
        r := RecoverPurgeStaging(had, gone, aside);
        recovered := r == Done;
        i := i + 1;
      }
    }
  }
}
