/** The orphan sweeper, `MediaCleanupService.RunOnce`, run on its own. */
module Cleanup {
  import opened Text
  import opened Faults
  import opened Paths
  import opened KeyLayout
  import opened MediaTable
  import opened ObjectStore

  /** The keys removed when all these prefixes are deleted. */
  function DoomedByAll(objects: set<string>, prefixes: map<string, string>, ids: set<string>): set<string> {
    set id, k | id in ids && id in prefixes && k in Doomed(objects, TrimSpace(prefixes[id])) :: k
  }

  class MediaCleanupService {
    const mediaRepo: MediaRepository
    const storage: StorageService
    const batchSize: nat

    constructor (mediaRepo: MediaRepository, storage: StorageService, batchSize: int)
      ensures this.mediaRepo == mediaRepo && this.storage == storage
      ensures this.batchSize == if batchSize <= 0 then 1000 else batchSize
    {
      this.mediaRepo := mediaRepo;
      this.storage := storage;
      this.batchSize := if batchSize <= 0 then 1000 else batchSize;
    }

    /** The slice of the ids to check, in whatever order the map yields them. */
    method CollectIDs(prefixByID: map<string, string>) returns (ids: seq<string>)
      ensures Distinct(ids)
      ensures forall id :: id in ids <==> id in prefixByID && TrimSpace(id) != ""
    {
      ids := [];
      var left := prefixByID.Keys;
      while left != {}
        invariant left <= prefixByID.Keys && Distinct(ids)
        invariant forall id :: id in ids <==> id in prefixByID && id !in left && TrimSpace(id) != ""
        decreases |left|
      {
        var id :| id in left;
        left := left - {id};
        if TrimSpace(id) == "" { continue; }
        ids := ids + [id];
      }
    }

    /** Asks for the live ids chunk by chunk, all but the last chunk full. The chunks together
        answer what one query over all ids would. */
    method ExistingIDs(ids: seq<string>) returns (existing: set<string>, ok: bool, ghost asked: seq<seq<string>>)
      requires batchSize > 0
      modifies mediaRepo`calls, mediaRepo`queries
      ensures mediaRepo.calls >= old(mediaRepo.calls)
      ensures ok <==> Calm(mediaRepo.faults, old(mediaRepo.calls), mediaRepo.calls)
      ensures ok ==> existing == set id | id in ids && Live(mediaRepo.rows, id)
      ensures ok ==> mediaRepo.queries == old(mediaRepo.queries) + asked && Flatten(asked) == ids
      ensures ok ==> forall k :: 0 <= k < |asked| ==>
        1 <= |asked[k]| <= batchSize && (k < |asked| - 1 ==> |asked[k]| == batchSize)
    {
      existing, ok, asked := {}, true, [];
      var start := 0;
      while start < |ids|
        invariant 0 <= start && ok
        invariant existing == set id | id in ids[..if start < |ids| then start else |ids|]
          && Live(mediaRepo.rows, id)
        invariant mediaRepo.calls >= old(mediaRepo.calls)
        invariant Calm(mediaRepo.faults, old(mediaRepo.calls), mediaRepo.calls)
        invariant mediaRepo.queries == old(mediaRepo.queries) + asked
        invariant Flatten(asked) == ids[..if start < |ids| then start else |ids|]
        invariant forall k :: 0 <= k < |asked| ==>
          1 <= |asked[k]| <= batchSize && (k < |asked| - 1 || start < |ids| ==> |asked[k]| == batchSize)
        decreases |ids| - start
      {
        var end := start + batchSize;
        if end > |ids| { end := |ids|; }
        var chunk;
        ghost var before := mediaRepo.calls;
        chunk, ok := mediaRepo.ListExistingIDs(ids[start..end]);
        CalmThen(mediaRepo.faults, old(mediaRepo.calls), before, mediaRepo.calls);
        if !ok { return; }
        assert ids[..end] == ids[..start] + ids[start..end];
        FlattenMore(asked, ids[start..end]);
        asked := asked + [ids[start..end]];
        existing := existing + set id | id in chunk;
        start := start + batchSize;
      }
      assert ids[..|ids|] == ids;
    }

    /** One sweep. On a normal return every scanned id was live, deleted or failed; each
        orphan (`tried`, in order) was attempted once, by a deletion of the prefix recorded
        for it, and counts as failed exactly if that reported an error; and the bucket has lost
        what the successful attempts doom and nothing outside what all attempts doom. Without
        faults it returns normally and no attempt fails. */
    method RunOnce() returns (scanned: nat, deleted: nat, failed: nat, ok: bool,
                              ghost listed: seq<string>, ghost found: map<string, string>,
                              ghost swept: set<string>, ghost missed: set<string>, ghost tried: seq<string>)
      requires batchSize > 0
      modifies storage`objects, storage`batches, storage`calls, storage`deletions
      modifies mediaRepo`calls, mediaRepo`queries
      ensures !ok ==> storage.objects == old(storage.objects) && deleted == failed == 0
      ensures !ok ==> storage.deletions == old(storage.deletions)
      ensures !ok ==> (
        || !storage.named || !Calm(storage.faults, old(storage.calls), storage.calls)
        || !Calm(mediaRepo.faults, old(mediaRepo.calls), mediaRepo.calls))
      ensures ok ==> storage.named && Calm(mediaRepo.faults, old(mediaRepo.calls), mediaRepo.calls)
      ensures ok ==> ListedAll(old(storage.objects), "users/", listed) && found == FirstWins(Refs(listed))
      ensures ok ==> Sweep(mediaRepo.rows, old(storage.objects), storage.objects, found, swept, missed)
      ensures ok ==> deleted == |swept| && failed == |missed|
      ensures ok ==> scanned == |Scanned(found)| == |LiveScanned(mediaRepo.rows, found)| + deleted + failed
      ensures ok ==> Distinct(tried)
      ensures ok ==> forall id :: id in tried <==>
        id in found && TrimSpace(id) != "" && !Live(mediaRepo.rows, id)
      ensures ok ==> Logged(old(storage.deletions), storage.deletions, found, tried, missed)
      ensures Calm(storage.faults, old(storage.calls), storage.calls) ==> missed == {} && failed == 0
      ensures storage.named && Reliable(storage.faults) && Reliable(mediaRepo.faults) ==> ok && missed == {}
    {
      scanned, deleted, failed, swept, missed, tried := 0, 0, 0, {}, {}, [];
      var prefixByID;
      prefixByID, ok, listed := storage.ListMediaPrefixes();
      found := prefixByID;
      if !ok { return; }
      if |prefixByID| == 0 {
        assert Scanned(found) == {};
        return;
      }

      var ids := CollectIDs(prefixByID);
      scanned := |ids|;
      var existing;
      ghost var asked;
      existing, ok, asked := ExistingIDs(ids);
      if !ok { return; }

      ghost var before := storage.calls;
      PrefixesNotBlank(listed, found);
      deleted, failed, swept, missed, tried := DeleteOrphans(prefixByID, ids, existing);
      CalmThen(storage.faults, old(storage.calls), before, storage.calls);
      Accounting(mediaRepo.rows, found, ids, existing, swept, missed);
    }

    /** The deleting loop of `RunOnce`. */
    method DeleteOrphans(prefixByID: map<string, string>, ids: seq<string>, existing: set<string>)
      returns (deleted: nat, failed: nat, ghost swept: set<string>, ghost missed: set<string>, ghost tried: seq<string>)
      requires Distinct(ids) && forall id :: id in ids ==> id in prefixByID
      modifies storage`objects, storage`batches, storage`calls, storage`deletions
      ensures swept !! missed && deleted == |swept| && failed == |missed|
      ensures swept + missed == Attempted(ids, existing)
      ensures Swept(old(storage.objects), storage.objects, prefixByID, swept, missed)
      ensures Distinct(tried) && forall id :: id in tried <==> id in ids && id !in existing
      ensures Logged(old(storage.deletions), storage.deletions, prefixByID, tried, missed)
      ensures storage.calls >= old(storage.calls)
      ensures NeverBlank(prefixByID) && storage.named && Calm(storage.faults, old(storage.calls), storage.calls) ==>
        missed == {}
    {
      deleted, failed, swept, missed, tried := 0, 0, {}, {}, [];
      var i := 0;
      while i < |ids|
        invariant 0 <= i <= |ids| && deleted == |swept| && failed == |missed|
        invariant Stands(old(storage.objects), old(storage.deletions), old(storage.calls), prefixByID, ids[..i],
          existing, swept, missed, tried)
      {
        var id := ids[i];
        if id in existing {
          ProgressStep(ids, i, existing, swept, missed, tried);
          i := i + 1;
          continue;
        }
        var done;
        done, swept, missed, tried := DeleteOrphan(prefixByID, ids, i, existing, old(storage.objects),
          old(storage.deletions), old(storage.calls), swept, missed, tried);
        i := i + 1;
        if !done {
          failed := failed + 1;
          continue;
        }
        deleted := deleted + 1;
      }
      assert ids[..i] == ids;
    }

    /** Where a sweep stands, after these ids, that began with these objects, deletions and
        calls. */
    ghost predicate Stands(was: set<string>, before: seq<Deletion>, start: nat, prefixByID: map<string, string>,
                           seen: seq<string>, existing: set<string>, swept: set<string>, missed: set<string>,
                           tried: seq<string>)
      reads storage
    {
      && Progress(seen, existing, swept, missed, tried)
      && Swept(was, storage.objects, prefixByID, swept, missed)
      && Logged(before, storage.deletions, prefixByID, tried, missed)
      && storage.calls >= start
      && (NeverBlank(prefixByID) && storage.named && Calm(storage.faults, start, storage.calls) ==> missed == {})
    }

    /** One turn of it: the next id, which is not live. */
    method DeleteOrphan(prefixByID: map<string, string>, ids: seq<string>, i: nat, existing: set<string>,
                        ghost was: set<string>, ghost before: seq<Deletion>, ghost start: nat,
                        ghost swept: set<string>, ghost missed: set<string>, ghost tried: seq<string>)
      returns (done: bool, ghost sweptNow: set<string>, ghost missedNow: set<string>, ghost triedNow: seq<string>)
      requires Distinct(ids) && i < |ids| && ids[i] in prefixByID && ids[i] !in existing
      requires Stands(was, before, start, prefixByID, ids[..i], existing, swept, missed, tried)
      modifies storage`objects, storage`batches, storage`calls, storage`deletions
      ensures Stands(was, before, start, prefixByID, ids[..i + 1], existing, sweptNow, missedNow, triedNow)
      ensures |sweptNow| == (if done then |swept| + 1 else |swept|)
      ensures |missedNow| == (if done then |missed| else |missed| + 1)
    {
      ghost var calls, id := storage.calls, ids[i];
      ProgressStep(ids, i, existing, swept, missed, tried);
      done := Attempt(prefixByID[ids[i]]);
      SweptStep(was, old(storage.objects), storage.objects, prefixByID, swept, missed, id, done);
      LoggedStep(before, old(storage.deletions), prefixByID, tried, missed, id, !done);
      CalmParts(storage.faults, start, calls, storage.calls);
      sweptNow, missedNow, triedNow :=
        if done then swept + {id} else swept, if done then missed else missed + {id}, tried + [id];
    }

    method Attempt(prefix: string) returns (done: bool)
      modifies storage`objects, storage`batches, storage`calls, storage`deletions
      ensures storage.objects <= old(storage.objects)
      ensures old(storage.objects) - storage.objects <= Doomed(old(storage.objects), TrimSpace(prefix))
      ensures done ==> storage.objects == old(storage.objects) - Doomed(old(storage.objects), TrimSpace(prefix))
      ensures storage.deletions == old(storage.deletions) + [Deletion(prefix, !done)]
      ensures storage.calls >= old(storage.calls)
      ensures done <==>
        storage.named && TrimSpace(prefix) != "" && Calm(storage.faults, old(storage.calls), storage.calls)
    {
      var err, _, _ := storage.DeleteObjectsByPrefix(prefix);
      done := err.None?;
    }
  }

  /** Where the deleting loop stands after these ids. */
  ghost predicate Progress(ids: seq<string>, existing: set<string>, swept: set<string>, missed: set<string>,
                           tried: seq<string>) {
    && swept !! missed && swept + missed == Attempted(ids, existing)
    && Distinct(tried) && forall id :: id in tried <==> id in ids && id !in existing
  }

  lemma ProgressStep(ids: seq<string>, i: nat, existing: set<string>, swept: set<string>, missed: set<string>,
                     tried: seq<string>)
    requires Distinct(ids) && i < |ids| && Progress(ids[..i], existing, swept, missed, tried)
    ensures ids[i] !in swept && ids[i] !in missed && ids[i] !in tried && ids[i] in ids
    ensures ids[i] in existing ==> Progress(ids[..i + 1], existing, swept, missed, tried)
    ensures ids[i] !in existing ==> Progress(ids[..i + 1], existing, swept + {ids[i]}, missed, tried + [ids[i]])
    ensures ids[i] !in existing ==> Progress(ids[..i + 1], existing, swept, missed + {ids[i]}, tried + [ids[i]])
  {
    AttemptedStep(ids, i, existing, swept, missed);
    assert ids[..i + 1] == ids[..i] + [ids[i]];
    assert ids[i] !in ids[..i];
  }

  /** The deletions made are one for each id tried, in that order, with the prefix recorded
      for it; those reporting an error are those of the ids missed. */
  ghost predicate Logged(before: seq<Deletion>, after: seq<Deletion>, prefixes: map<string, string>,
                         tried: seq<string>, missed: set<string>) {
    && |after| == |before| + |tried| && after[..|before|] == before
    && (forall k :: 0 <= k < |tried| ==>
      tried[k] in prefixes && after[|before| + k] == Deletion(prefixes[tried[k]], tried[k] in missed))
    && (forall id :: id in missed ==> id in tried)
  }

  lemma LoggedStep(before: seq<Deletion>, after: seq<Deletion>, prefixes: map<string, string>, tried: seq<string>,
                   missed: set<string>, id: string, failed: bool)
    requires Logged(before, after, prefixes, tried, missed) && id in prefixes && id !in tried
    ensures Logged(before, after + [Deletion(prefixes[id], failed)], prefixes, tried + [id],
      if failed then missed + {id} else missed)
  {
    var now := after + [Deletion(prefixes[id], failed)];
    assert now[..|before|] == before;
    forall k | 0 <= k < |tried| ensures now[|before| + k] == after[|before| + k] && tried[k] != id {
      assert tried[k] in tried;
    }
  }

  predicate NeverBlank(prefixes: map<string, string>) {
    forall id :: id in prefixes ==> TrimSpace(prefixes[id]) != ""
  }

  /** A recorded prefix ends in a slash. */
  lemma PrefixesNotBlank(listed: seq<string>, found: map<string, string>)
    requires found == FirstWins(Refs(listed))
    ensures NeverBlank(found)
  {
    forall id | id in found ensures TrimSpace(found[id]) != "" {
      FirstPrefixWins(Refs(listed), id);
      var i :| FirstRef(Refs(listed), id, i);
      var dir := PathJoin(Split(TrimSlashes(TrimSpace(TrimSpace(listed[i]))), '/')[..4]);
      assert found[id] == dir + "/";
      TrimSpaceSolid(dir + "/", |dir|);
    }
  }

  lemma FlattenMore(asked: seq<seq<string>>, chunk: seq<string>)
    ensures Flatten(asked + [chunk]) == Flatten(asked) + chunk
  {
    assert (asked + [chunk])[..|asked|] == asked;
  }

  /** The ids a sweep scans, and those of them with a live row. */
  function Scanned(found: map<string, string>): set<string> {
    set id | id in found && TrimSpace(id) != ""
  }

  function LiveScanned(rows: Rows, found: map<string, string>): set<string> {
    set id | id in Scanned(found) && Live(rows, id)
  }

  /** The ids of the list the check did not report live. */
  function Attempted(ids: seq<string>, existing: set<string>): set<string> {
    set id | id in ids && id !in existing
  }

  lemma AttemptedStep(ids: seq<string>, i: nat, existing: set<string>, swept: set<string>, missed: set<string>)
    requires Distinct(ids) && i < |ids| && swept !! missed && swept + missed == Attempted(ids[..i], existing)
    ensures ids[i] in existing ==> swept + missed == Attempted(ids[..i + 1], existing)
    ensures ids[i] !in existing ==>
      (swept + {ids[i]}) + missed == swept + (missed + {ids[i]}) == Attempted(ids[..i + 1], existing)
    ensures ids[i] !in swept && ids[i] !in missed
  {
    var id := ids[i];
    assert ids[..i + 1] == ids[..i] + [id];
    assert id !in ids[..i];
    assert id !in swept + missed;
    var next := Attempted(ids[..i + 1], existing);
    if id in existing {
      assert next == Attempted(ids[..i], existing);
    } else {
      assert next == Attempted(ids[..i], existing) + {id};
    }
  }

  lemma Accounting(rows: Rows, found: map<string, string>, ids: seq<string>, existing: set<string>,
                   swept: set<string>, missed: set<string>)
    requires Distinct(ids) && forall id :: id in ids <==> id in found && TrimSpace(id) != ""
    requires existing == set id | id in ids && Live(rows, id)
    requires swept !! missed && swept + missed == Attempted(ids, existing)
    ensures swept + missed == Scanned(found) - LiveScanned(rows, found)
    ensures |ids| == |Scanned(found)| == |LiveScanned(rows, found)| + |swept| + |missed|
  {
    var all, live := Scanned(found), LiveScanned(rows, found);
    assert live <= all;
    assert forall id :: id in ids <==> id in all;
    assert Attempted(ids, existing) == all - live;
    DistinctCount(ids, all);
    CountParts(all, live, swept, missed);
  }

  lemma CountParts(all: set<string>, live: set<string>, a: set<string>, b: set<string>)
    requires live <= all && a !! b && a + b == all - live
    ensures |all| == |live| + |a| + |b|
  {
    assert |all - live| == |all| - |live|;
    assert |a + b| == |a| + |b|;
  }

  ghost predicate Swept(was: set<string>, now: set<string>, prefixes: map<string, string>, swept: set<string>,
                        missed: set<string>) {
    && now <= was
    && now !! DoomedByAll(was, prefixes, swept)
    && was - now <= DoomedByAll(was, prefixes, swept + missed)
  }

  /** What one sweep that found these prefixes did to the bucket. */
  ghost predicate Sweep(rows: Rows, before: set<string>, after: set<string>, found: map<string, string>,
                        swept: set<string>, missed: set<string>) {
    && swept !! missed
    && swept + missed == Scanned(found) - LiveScanned(rows, found)
    && Swept(before, after, found, swept, missed)
  }

  lemma DoomedTrimmed(objects: set<string>, prefixes: map<string, string>, ids: set<string>, k: string)
    requires k in DoomedByAll(objects, prefixes, ids)
    ensures TrimSpace(k) == k
  {
    var id :| id in ids && id in prefixes && k in Doomed(objects, TrimSpace(prefixes[id]));
    var x :| x in objects && TrimSpace(x) == k;
    TrimSpaceFixed(x);
    TrimSpaceFixed(k);
  }

  /** Earlier attempts only took trimmed keys away, so an attempt on what is left still
      removes all it would have removed at the start. */
  lemma SweptStep(was: set<string>, now: set<string>, next: set<string>, prefixes: map<string, string>,
                  swept: set<string>, missed: set<string>, id: string, done: bool)
    requires Swept(was, now, prefixes, swept, missed) && id in prefixes
    requires next <= now && now - next <= Doomed(now, TrimSpace(prefixes[id]))
    requires done ==> next == now - Doomed(now, TrimSpace(prefixes[id]))
    ensures done ==> Swept(was, next, prefixes, swept + {id}, missed)
    ensures !done ==> Swept(was, next, prefixes, swept, missed + {id})
  {
    var p := TrimSpace(prefixes[id]);
    var swept', missed' := if done then swept + {id} else swept, if done then missed else missed + {id};
    forall k | k in was - next ensures k in DoomedByAll(was, prefixes, swept' + missed') {
      if k in now {
        assert k in Doomed(now, p) by { assert k in now - next; }
        var x :| x in now && p <= x && TrimSpace(x) != "" && TrimSpace(x) == k;
        assert k in Doomed(was, p);
      } else {
        assert k in DoomedByAll(was, prefixes, swept + missed);
      }
    }
    forall k | k in DoomedByAll(was, prefixes, swept') ensures k !in next {
      if k !in DoomedByAll(was, prefixes, swept) {
        assert done && k in Doomed(was, p);
        var x :| x in was && p <= x && TrimSpace(x) != "" && TrimSpace(x) == k;
        if x in now {
          assert k in Doomed(now, p);
        } else {
          DoomedTrimmed(was, prefixes, swept + missed, x);
        }
      }
    }
  }

  lemma {:induction false} DistinctCount(ids: seq<string>, all: set<string>)
    requires Distinct(ids) && forall id :: id in ids <==> id in all
    ensures |ids| == |all|
  {
    if ids == [] {
      assert all == {};
    } else {
      var rest, last := ids[..|ids| - 1], ids[|ids| - 1];
      assert ids == rest + [last];
      DistinctCount(rest, all - {last});
    }
  }

  // ---- what a sweep is for -----------------------------------------------------------

  /** A listing and the prefixes recorded from it. */
  ghost predicate Found(objects: set<string>, listed: seq<string>, found: map<string, string>) {
    ListedAll(objects, "users/", listed) && found == FirstWins(Refs(listed))
  }

  /** The prefix recorded for an id is the prefix of an object that parses to it. */
  lemma RecordedPrefix(objects: set<string>, listed: seq<string>, found: map<string, string>, id: string)
    returns (key: string)
    requires Found(objects, listed, found) && id in found
    ensures key in objects
    ensures ExtractMediaPrefix(TrimSpace(key)) == Some(MediaRef(id, found[id]))
  {
    FirstPrefixWins(Refs(listed), id);
    var i :| FirstRef(Refs(listed), id, i);
    key := listed[i];
    assert key in listed;
  }

  lemma FoundWhenListed(objects: set<string>, listed: seq<string>, found: map<string, string>, key: string,
                        id: string, prefix: string)
    requires Found(objects, listed, found) && key in objects && "users/" <= key
    requires ExtractMediaPrefix(TrimSpace(key)) == Some(MediaRef(id, prefix))
    ensures id in found
  {
    assert key in listed;
    var i :| 0 <= i < |listed| && listed[i] == key;
    assert Refs(listed)[i] == Some(MediaRef(id, prefix));
    var j := FirstRefExists(Refs(listed), id);
    FirstPrefixWins(Refs(listed), id);
  }

  /** A canonical key that parses lies in a media directory, and parses the same trimmed. */
  lemma Owner(key: string, id: string, prefix: string) returns (owner: string)
    requires Canonical(key)
    requires ExtractMediaPrefix(TrimSpace(key)) == Some(MediaRef(id, prefix))
          || ExtractMediaPrefix(key) == Some(MediaRef(id, prefix))
    ensures InMediaDir(key, owner, id) && prefix == MediaPrefix(owner, id)
    ensures ExtractMediaPrefix(TrimSpace(key)) == ExtractMediaPrefix(key) == Some(MediaRef(id, prefix))
  {
    TrimSpaceFixed(key);
    TrimSpaceFixed(TrimSpace(key));
    var o, i :| InMediaDir(key, o, i);
    InMediaDirParses(key, o, i);
    owner := o;
  }

  /** Sweeper safety, run alone: whatever faults occur, a key that a sweep removes is a
      trimmed key strictly below the directory of a media that has no live row. */
  lemma SweepSafe(rows: Rows, before: set<string>, after: set<string>, listed: seq<string>, found: map<string, string>,
                  swept: set<string>, missed: set<string>, k: string)
    requires Found(before, listed, found) && Sweep(rows, before, after, found, swept, missed)
    requires forall key :: key in before ==> Canonical(key)
    requires k in before - after
    ensures ExtractMediaPrefix(k).Some? && Trimmed(k)
    ensures var ref := ExtractMediaPrefix(k).value; !Live(rows, ref.id) && ref.prefix <= k
  {
    DoomedTrimmed(before, found, swept + missed, k);
    TrimSpaceFixed(k);
    var id :| id in swept + missed && id in found && k in Doomed(before, TrimSpace(found[id]));
    var key := RecordedPrefix(before, listed, found, id);
    var owner := Owner(key, id, found[id]);
    MediaPrefixShape(owner, id);
    var x :| x in before && found[id] <= x && TrimSpace(x) == k;
    TrimStaysBelowPrefix(owner, id, x);
    ExtractBelowPrefix(owner, id, k);
  }

  /** What a sweep should remove: trimmed keys strictly below the directory of a media
      without a live row. */
  predicate Sweepable(rows: Rows, k: string) {
    var ref := ExtractMediaPrefix(k);
    ref.Some? && Trimmed(k) && !Live(rows, ref.value.id) && ref.value.prefix <= k
  }

  ghost predicate IdsDetermineOwners(objects: set<string>) {
    forall a, b :: a in objects && b in objects ==>
      SameMediaSamePrefix(ExtractMediaPrefix(a), ExtractMediaPrefix(b))
  }

  predicate SameMediaSamePrefix(a: Option<MediaRef>, b: Option<MediaRef>) {
    a.Some? && b.Some? && a.value.id == b.value.id ==> a.value.prefix == b.value.prefix
  }

  /** Sweeper completeness: when ids determine owners, a sweep in which no attempt failed
      removes every canonical key it should, whatever else is in the bucket. */
  lemma OrphanIsSwept(rows: Rows, before: set<string>, after: set<string>, listed: seq<string>,
                      found: map<string, string>, swept: set<string>, k: string)
    requires Found(before, listed, found) && Sweep(rows, before, after, found, swept, {})
    requires IdsDetermineOwners(before)
    requires k in before && Canonical(k) && Sweepable(rows, k)
    ensures k !in after
  {
    var id, prefix := ExtractMediaPrefix(k).value.id, ExtractMediaPrefix(k).value.prefix;
    var owner := Owner(k, id, prefix);
    MediaPrefixShape(owner, id);
    FoundWhenListed(before, listed, found, k, id, prefix);
    var key := RecordedPrefix(before, listed, found, id);
    ParsesTrimmed(key);
    assert SameMediaSamePrefix(ExtractMediaPrefix(k), ExtractMediaPrefix(key));
    TrimSpaceFixed(k);
    assert k in Doomed(before, prefix);
    assert id in Scanned(found) && id !in LiveScanned(rows, found);
    assert id in swept + {};
    assert k in DoomedByAll(before, found, swept);
  }

  lemma ParsesTrimmed(key: string)
    ensures ExtractMediaPrefix(TrimSpace(key)) == ExtractMediaPrefix(key)
  {
    TrimSpaceFixed(key);
    TrimSpaceFixed(TrimSpace(key));
  }

  /** Over canonical keys such a sweep removes exactly what it should. */
  lemma SweepComplete(rows: Rows, before: set<string>, after: set<string>, listed: seq<string>,
                      found: map<string, string>, swept: set<string>)
    requires Found(before, listed, found) && Sweep(rows, before, after, found, swept, {})
    requires forall key :: key in before ==> Canonical(key)
    requires IdsDetermineOwners(before)
    ensures after == set k | k in before && !Sweepable(rows, k)
  {
    forall k | k in before ensures k in after <==> !Sweepable(rows, k) {
      if Sweepable(rows, k) {
        OrphanIsSwept(rows, before, after, listed, found, swept, k);
      } else if k !in after {
        SweepSafe(rows, before, after, listed, found, swept, {}, k);
      }
    }
  }

  /** An object uploaded under the base name ".." outlives its media: it is the media
      directory's own key, which no sweep and no DeleteMedia ever matches. */
  lemma DotDotUploadIsNeverSwept(rows: Rows, before: set<string>, after: set<string>, listed: seq<string>,
                                 found: map<string, string>,
                                 swept: set<string>, missed: set<string>, owner: string, id: string, name: string)
    requires Found(before, listed, found) && Sweep(rows, before, after, found, swept, missed)
    requires forall key :: key in before ==> Canonical(key)
    requires Component(owner) && Component(id) && Base(TrimSpace(name)) == ".."
    requires OriginalKey(owner, id, name) in before
    ensures OriginalKey(owner, id, name) in after
    ensures OriginalKey(owner, id, name) !in Doomed(before, MediaPrefix(owner, id))
  {
    var k := OriginalKey(owner, id, name);
    OriginalKeyRoundTrip(owner, id, name);
    MediaPrefixShape(owner, id);
    TrimSpaceFixed(MediaPrefix(owner, id));
    if k !in after {
      SweepSafe(rows, before, after, listed, found, swept, missed, k);
    }
    if k in Doomed(before, MediaPrefix(owner, id)) {
      DeletionExact(before, MediaPrefix(owner, id));
    }
  }

  /** Why the exact form asks for canonical keys: an object stored under "..", which no
      upload of the service creates, parses to a media whose prefix is a whole user's. */
  lemma DotDotMediaParses(owner: string)
    requires Component(owner)
    ensures ExtractMediaPrefix("users/" + owner + "/media/../x") == Some(MediaRef("..", "users/" + owner + "/"))
  {
    var key := "users/" + owner + "/media/../x";
    var parts := ["users", owner, "media", "..", "x"];
    assert Join(["x"], '/') == "x";
    DotDotKey(owner, key, parts);
    TrimSpaceFixed(key);
    SplitJoin(parts, '/');
    assert TrimSlashes(key) == key;
    assert ["users", owner, "media", ".."] == ["users", owner] + ["media", ".."] == parts[..4];
    var _ := DotDotDir(owner);
  }

  /** Were there such an object, the sweep would remove all trimmed objects of that user,
      those of live media too. */
  lemma DotDotMediaTakesTheUser(rows: Rows, before: set<string>, after: set<string>, listed: seq<string>,
                                found: map<string, string>, swept: set<string>, owner: string, k: string)
    requires Found(before, listed, found) && Sweep(rows, before, after, found, swept, {})
    requires Component(owner) && !Live(rows, "..") && "users/" + owner + "/media/../x" in before
    requires forall other :: other in before && ParsesToDotDot(other) ==> other == "users/" + owner + "/media/../x"
    requires k in before && Trimmed(k) && "users/" + owner + "/" <= k
    ensures k !in after
  {
    var key, prefix := "users/" + owner + "/media/../x", "users/" + owner + "/";
    DotDotMediaParses(owner);
    ParsesTrimmed(key);
    FoundWhenListed(before, listed, found, key, "..", prefix);
    var first := RecordedPrefix(before, listed, found, "..");
    ParsesTrimmed(first);
    assert ParsesToDotDot(first);
    TrimSpaceFixed(k);
    TrimSpaceFixed(prefix);
    assert TrimSpace("..") != "" by { TrimSpaceFixed(".."); }
    assert ".." in Scanned(found) && ".." !in LiveScanned(rows, found);
    assert ".." in swept + {};
    assert k in Doomed(before, prefix);
    assert k in DoomedByAll(before, found, swept);
  }

  predicate ParsesToDotDot(key: string) {
    var ref := ExtractMediaPrefix(key);
    ref.Some? && ref.value.id == ".."
  }

  lemma DotDotKey(owner: string, key: string, parts: seq<string>)
    requires Component(owner) && key == "users/" + owner + "/media/../x"
      && parts == ["users", owner, "media", "..", "x"]
    ensures key == Join(parts, '/') && Free(parts, '/')
  {
    JoinFront("..", ["x"], "x");
    JoinFront("media", ["..", "x"], "../x");
    JoinFront(owner, ["media", "..", "x"], "media/../x");
    JoinFront("users", [owner, "media", "..", "x"], owner + "/" + "media/../x");
    assert ["users"] + [owner, "media", "..", "x"] == parts;
    assert "users" + "/" + (owner + "/" + "media/../x") == key;
  }

  lemma JoinFront(first: string, rest: seq<string>, joined: string)
    requires |rest| > 0 && Join(rest, '/') == joined
    ensures Join([first] + rest, '/') == first + "/" + joined
  {
    assert ([first] + rest)[1..] == rest;
  }

  lemma DotDotDir(owner: string) returns (dir: string)
    requires Component(owner)
    ensures PathJoin(["users", owner, "media", ".."]) == dir == "users/" + owner
  {
    dir := "users/" + owner;
    assert AllPlain(["users", owner]);
    assert ["users", owner, "media", ".."] == ["users", owner] + ["media", ".."];
    DotDotCollapses(["users", owner], "media");
    JoinCut(["users"], [owner], '/');
    assert ["users"] + [owner] == ["users", owner];
  }
}
