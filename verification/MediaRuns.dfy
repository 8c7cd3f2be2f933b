/** The programs and the protocol: what a deletion, an orphan sweep or a transcoding job does
    on its own is what one run of the media protocol does. So all that holds of every run,
    whatever is interleaved with it, is about these programs. */
module MediaRuns {
  import opened Text
  import opened KeyLayout
  import opened MediaTable
  import opened ObjectStore
  import opened MediaProtocol
  import opened MediaSafety
  import C = Cleanup
  import J = Jobs
  import B = Playback

  /** Some run of the protocol leads from s to t. */
  ghost predicate Reaches(s: State, t: State) { exists run :: Legal(s, run) && Exec(s, run) == t }

  lemma Start(s: State)
    ensures Reaches(s, s)
  {
    assert Legal(s, []) && Exec(s, []) == s;
  }

  /** One more step. */
  lemma Then(s: State, t: State, a: Action, u: State)
    requires Reaches(s, t) && Enabled(t, a) && Do(t, a) == u
    ensures Reaches(s, u)
  {
    var run :| Legal(s, run) && Exec(s, run) == t;
    RunAppend(s, run, a);
    assert Legal(s, run + [a]) && Exec(s, run + [a]) == u;
  }

  lemma ReachKeeps(s: State, t: State)
    requires Inv(s) && Reaches(s, t)
    ensures Inv(t) && Evolves(s.rows, t.rows) && t.foreign == s.foreign
  {
    var run :| Legal(s, run) && Exec(s, run) == t;
    RunKeeps(s, run);
  }

  /** s with process p at q. */
  function With(s: State, p: nat, q: Proc): State { s.(procs := s.procs[p := q]) }

  // ---- DeleteMedia ------------------------------------------------------------------------

  /** What a DeleteMedia that reaches its soft delete leaves of table and bucket by its
      contract (`Playback.MediaUploadService.DeleteMedia`), whether or not that reports an
      error, a run of the protocol leaves. */
  lemma DeletionIsARun(s: State, p: nat, owner: string, id: string, at: int, playback: B.State)
    requires Inv(s) && p !in s.procs && Live(s.rows, id) && s.rows[id].owner == owner
    requires playback.rows == s.rows && playback.objects == s.objects
    ensures var deleted := B.HalfDeleted(playback, id, at);
      Reaches(s, Purge(s, Doomed(s.objects, MediaPrefix(owner, id))).(rows := deleted.rows))
    ensures B.HalfDeleted(playback, id, at).objects == Purge(s, Doomed(s.objects, MediaPrefix(owner, id))).objects
  {
    var prefix := MediaPrefix(owner, id);
    MediaPrefixShape(owner, id);
    ReachPurging(s, p, owner, id);
    PurgeSome(s, s, p, id, prefix, Doomed(s.objects, prefix));
    EndDeletion(s, Purge(s, Doomed(s.objects, prefix)), p, id, prefix, at);
  }

  /** And so is one that stops before, with whatever it has deleted by then. */
  lemma FailedDeletionIsARun(s: State, p: nat, owner: string, id: string, before: B.State, after: B.State)
    requires Inv(s) && p !in s.procs && Live(s.rows, id) && s.rows[id].owner == owner
    requires before.rows == s.rows && before.objects == s.objects && B.GaveUp(before, after, id)
    ensures Reaches(s, Purge(s, s.objects - after.objects))
      && Purge(s, s.objects - after.objects).objects == after.objects
  {
    var prefix, gone := MediaPrefix(owner, id), s.objects - after.objects;
    MediaPrefixShape(owner, id);
    ReachPurging(s, p, owner, id);
    PurgeSome(s, s, p, id, prefix, gone);
    GiveUpPurge(s, Purge(s, gone), p, id, prefix);
  }

  lemma GiveUpPurge(s: State, t: State, p: nat, id: string, prefix: string)
    requires p !in t.procs && Reaches(s, With(t, p, DeletePurging(id, prefix, {})))
    ensures Reaches(s, t)
  {
    assert With(t, p, DeletePurging(id, prefix, {})).procs - {p} == t.procs;
    Then(s, With(t, p, DeletePurging(id, prefix, {})), Abandon(p), t);
  }

  lemma ReachPurging(s: State, p: nat, owner: string, id: string)
    requires p !in s.procs && Live(s.rows, id) && s.rows[id].owner == owner
    ensures Reaches(s, With(s, p, DeletePurging(id, MediaPrefix(owner, id), {})))
  {
    Start(s);
    var read, purging := With(s, p, DeleteRead(id, owner)), With(s, p, DeletePurging(id, MediaPrefix(owner, id), {}));
    Then(s, s, Delete(p, StartDelete(id, owner)), read);
    assert read.procs[p := DeletePurging(id, MediaPrefix(owner, id), {})] == purging.procs;
    Then(s, read, Delete(p, BeginPurge), purging);
  }

  /** Of what lies below the prefix, the keys that are to go are listed and flushed. */
  lemma PurgeSome(s: State, t: State, p: nat, id: string, prefix: string, gone: set<string>)
    requires Reaches(s, With(t, p, DeletePurging(id, prefix, {}))) && gone <= Doomed(t.objects, prefix)
    ensures Reaches(s, With(Purge(t, gone), p, DeletePurging(id, prefix, {})))
  {
    var keys := set k | k in t.objects && prefix <= k && TrimSpace(k) in gone && TrimSpace(k) != "";
    TrimmedOfDoomed(t.objects, prefix, gone, keys);
    var start, listed := With(t, p, DeletePurging(id, prefix, {})), With(t, p, DeletePurging(id, prefix, gone));
    assert {} + Trims(keys) == gone;
    assert start.procs[p := DeletePurging(id, prefix, gone)] == listed.procs;
    Then(s, start, Delete(p, PurgeList(keys)), listed);
    FlushPending(s, t, p, id, prefix, gone);
  }

  lemma FlushPending(s: State, t: State, p: nat, id: string, prefix: string, gone: set<string>)
    requires Reaches(s, With(t, p, DeletePurging(id, prefix, gone)))
    ensures Reaches(s, With(Purge(t, gone), p, DeletePurging(id, prefix, {})))
  {
    var listed, flushed := With(t, p, DeletePurging(id, prefix, gone)),
      With(Purge(t, gone), p, DeletePurging(id, prefix, {}));
    assert listed.procs[p := DeletePurging(id, prefix, {})] == flushed.procs;
    Then(s, listed, Delete(p, PurgeFlush), flushed);
  }

  lemma TrimmedOfDoomed(objects: set<string>, prefix: string, gone: set<string>, keys: set<string>)
    requires gone <= Doomed(objects, prefix)
    requires keys == set k | k in objects && prefix <= k && TrimSpace(k) in gone && TrimSpace(k) != ""
    ensures Trims(keys) == gone
  {
    forall g | g in gone ensures g in Trims(keys) {
      var k :| k in objects && prefix <= k && TrimSpace(k) != "" && TrimSpace(k) == g;
      assert k in keys;
    }
  }

  lemma EndDeletion(s: State, t: State, p: nat, id: string, prefix: string, at: int)
    requires p !in t.procs && Reaches(s, With(t, p, DeletePurging(id, prefix, {})))
    ensures Reaches(s, t.(rows := Apply(t.rows, SoftDelete(id, at))))
  {
    var purging, purged := With(t, p, DeletePurging(id, prefix, {})), With(t, p, DeletePurged(id));
    assert purging.procs[p := DeletePurged(id)] == purged.procs;
    Then(s, purging, Delete(p, EndPurge), purged);
    assert purged.procs - {p} == t.procs;
    Then(s, purged, Delete(p, SoftDeleteRow(Done, at)), t.(rows := Apply(t.rows, SoftDelete(id, at))));
  }

  // ---- RunOnce ----------------------------------------------------------------------------

  /** What `RunOnce` leaves by its contract, whichever attempts failed and how far they came,
      a run of the protocol leaves. */
  lemma SweepIsARun(s: State, p: nat, listed: seq<string>, found: map<string, string>, swept: set<string>,
                    missed: set<string>, after: set<string>)
    requires Inv(s) && p !in s.procs
    requires C.Found(s.objects, listed, found) && C.Sweep(s.rows, s.objects, after, found, swept, missed)
    ensures Reaches(s, s.(objects := after))
  {
    var existing := set id | id in found.Keys && Live(s.rows, id);
    ReachChecked(s, p, listed, found, existing);
    PrefixesTrimmed(s, p, found, existing);
    assert s.(objects := s.objects) == s;
    SweepOrphans(s, p, found, existing, s.objects, after, swept + missed, swept + missed);
    EndSweep(s, p, found, existing, after);
  }

  lemma EndSweep(s: State, p: nat, found: map<string, string>, existing: set<string>, after: set<string>)
    requires p !in s.procs && Reaches(s, With(s.(objects := after), p, SweepChecked(found, found.Keys, existing)))
    ensures Reaches(s, s.(objects := after))
  {
    var t := With(s.(objects := after), p, SweepChecked(found, found.Keys, existing));
    assert t.procs - {p} == s.procs;
    Then(s, t, Abandon(p), s.(objects := after));
  }

  lemma {:induction false} SeeAll(s: State, p: nat, listed: seq<string>, n: nat)
    requires p !in s.procs && n <= |listed| && forall k :: k in listed ==> k in s.objects && "users/" <= k
    ensures Reaches(s, With(s, p, SweepListing(Refs(listed[..n]))))
  {
    if n == 0 {
      SeeNone(s, p);
      assert Refs(listed[..0]) == [];
    } else {
      SeeAll(s, p, listed, n - 1);
      OneLonger(listed, n - 1);
      assert listed[n - 1] in listed;
      SeeOne(s, p, Refs(listed[..n - 1]), listed[n - 1]);
    }
  }

  lemma OneLonger(listed: seq<string>, n: nat)
    requires n < |listed|
    ensures Refs(listed[..n + 1]) == Refs(listed[..n]) + Refs([listed[n]])
  {
    RefsAppend(listed[..n], [listed[n]]);
    assert listed[..n] + [listed[n]] == listed[..n + 1];
  }

  lemma SeeNone(s: State, p: nat)
    requires p !in s.procs
    ensures Reaches(s, With(s, p, SweepListing([])))
  {
    Start(s);
    Then(s, s, Sweep(p, StartSweep), With(s, p, SweepListing([])));
  }

  lemma SeeOne(s: State, p: nat, refs: seq<Option<MediaRef>>, key: string)
    requires Reaches(s, With(s, p, SweepListing(refs))) && key in s.objects && "users/" <= key
    ensures Reaches(s, With(s, p, SweepListing(refs + Refs([key]))))
  {
    var t, u := With(s, p, SweepListing(refs)), With(s, p, SweepListing(refs + Refs([key])));
    assert t.procs[p := SweepListing(refs + Refs([key]))] == u.procs;
    Then(s, t, Sweep(p, SweepSee(key)), u);
  }

  lemma ReachChecked(s: State, p: nat, listed: seq<string>, found: map<string, string>, existing: set<string>)
    requires p !in s.procs && (forall k :: k in listed ==> k in s.objects && "users/" <= k)
      && found == FirstWins(Refs(listed))
    requires existing == set id | id in found.Keys && Live(s.rows, id)
    ensures Reaches(s, With(s, p, SweepChecked(found, found.Keys, existing)))
  {
    SeeAll(s, p, listed, |listed|);
    assert listed[..|listed|] == listed;
    EndList(s, p, Refs(listed), found);
    CheckAll(s, p, found, existing);
  }

  lemma EndList(s: State, p: nat, refs: seq<Option<MediaRef>>, found: map<string, string>)
    requires Reaches(s, With(s, p, SweepListing(refs))) && found == FirstWins(refs)
    ensures Reaches(s, With(s, p, SweepChecked(found, {}, {})))
  {
    var t, u := With(s, p, SweepListing(refs)), With(s, p, SweepChecked(found, {}, {}));
    assert t.procs[p := SweepChecked(found, {}, {})] == u.procs;
    Then(s, t, Sweep(p, EndListing), u);
  }

  lemma CheckAll(s: State, p: nat, found: map<string, string>, existing: set<string>)
    requires Reaches(s, With(s, p, SweepChecked(found, {}, {})))
      && existing == set id | id in found.Keys && Live(s.rows, id)
    ensures Reaches(s, With(s, p, SweepChecked(found, found.Keys, existing)))
  {
    var t, u := With(s, p, SweepChecked(found, {}, {})), With(s, p, SweepChecked(found, found.Keys, existing));
    assert {} + found.Keys == found.Keys;
    assert ({} + set id | id in found.Keys && Live(t.rows, id)) == existing;
    assert t.procs[p := SweepChecked(found, found.Keys, existing)] == u.procs;
    Then(s, t, Sweep(p, SweepCheck(found.Keys)), u);
  }

  lemma PrefixesTrimmed(s: State, p: nat, found: map<string, string>, existing: set<string>)
    requires Inv(s) && Reaches(s, With(s, p, SweepChecked(found, found.Keys, existing)))
    ensures forall id :: id in found ==> TrimSpace(found[id]) == found[id]
  {
    var t := With(s, p, SweepChecked(found, found.Keys, existing));
    ReachKeeps(s, t);
    assert ProcOk(t, t.procs[p]);
    forall id | id in found ensures TrimSpace(found[id]) == found[id] {
      assert PrefixOf(id, found[id]);
      var owner :| Component(owner) && found[id] == MediaPrefix(owner, id);
      MediaPrefixShape(owner, id);
    }
  }

  /** The deleting loop: of what is to go in all, each orphan takes what lies below its
      prefix. */
  lemma {:induction false} SweepOrphans(s: State, p: nat, found: map<string, string>, existing: set<string>,
                                        now: set<string>, after: set<string>, all: set<string>, left: set<string>)
    requires Reaches(s, With(s.(objects := now), p, SweepChecked(found, found.Keys, existing)))
    requires left <= all <= found.Keys && all !! existing && after <= now <= s.objects
    requires forall id :: id in found ==> TrimSpace(found[id]) == found[id]
    requires forall t :: t in s.objects && t !in after ==> t in C.DoomedByAll(s.objects, found, all)
    requires forall t :: t in now && t !in after ==> t in C.DoomedByAll(s.objects, found, left)
    ensures Reaches(s, With(s.(objects := after), p, SweepChecked(found, found.Keys, existing)))
    decreases |left|
  {
    if left == {} {
      assert C.DoomedByAll(s.objects, found, {}) == {};
      assert now == after;
    } else {
      var id :| id in left;
      var gone := SweepNext(s, p, found, existing, now, after, all, id);
      LeftOver(s.objects, found, now, after, left, id, gone);
      SweepOrphans(s, p, found, existing, now - gone, after, all, left - {id});
    }
  }

  lemma SweepNext(s: State, p: nat, found: map<string, string>, existing: set<string>, now: set<string>,
                  after: set<string>, all: set<string>, id: string)
    returns (gone: set<string>)
    requires Reaches(s, With(s.(objects := now), p, SweepChecked(found, found.Keys, existing)))
    requires id in found && id !in existing && after <= now <= s.objects
    requires forall t :: t in s.objects && t !in after ==> t in C.DoomedByAll(s.objects, found, all)
    ensures gone == set t | t in now && t !in after && t in Doomed(s.objects, found[id])
    ensures Reaches(s, With(s.(objects := now - gone), p, SweepChecked(found, found.Keys, existing)))
  {
    gone := set t | t in now && t !in after && t in Doomed(s.objects, found[id]);
    var keys := set x | x in now && found[id] <= x && TrimSpace(x) in gone;
    GoneIsListed(s.objects, found, now, after, all, id, gone, keys);
    SweepOne(s, s.(objects := now), p, found, existing, id, gone, keys);
  }

  lemma LeftOver(objects: set<string>, found: map<string, string>, now: set<string>, after: set<string>,
                 left: set<string>, id: string, gone: set<string>)
    requires id in found && TrimSpace(found[id]) == found[id]
    requires gone == set t | t in now && t !in after && t in Doomed(objects, found[id])
    requires forall t :: t in now && t !in after ==> t in C.DoomedByAll(objects, found, left)
    ensures forall t :: t in now - gone && t !in after ==> t in C.DoomedByAll(objects, found, left - {id})
  {
    forall t | t in now - gone && t !in after ensures t in C.DoomedByAll(objects, found, left - {id}) {
      var i :| i in left && i in found && t in Doomed(objects, TrimSpace(found[i]));
      assert i != id;
    }
  }

  /** One orphan: of its keys, those whose trimmed forms are to go are listed and deleted. */
  lemma SweepOne(s: State, t: State, p: nat, found: map<string, string>, existing: set<string>, id: string,
                 gone: set<string>, keys: set<string>)
    requires Reaches(s, With(t, p, SweepChecked(found, found.Keys, existing))) && id in found && id !in existing
    requires keys <= t.objects && AllBelow(keys, found[id]) && Trims(keys) == gone
    ensures Reaches(s, With(t.(objects := t.objects - gone), p, SweepChecked(found, found.Keys, existing)))
  {
    var checked := SweepChecked(found, found.Keys, existing);
    var empty, full := SweepPurging(found, found.Keys, existing, id, {}),
      SweepPurging(found, found.Keys, existing, id, gone);
    var t1 := t.(objects := t.objects - gone);
    assert With(t, p, checked).procs[p := empty] == With(t, p, empty).procs;
    Then(s, With(t, p, checked), Sweep(p, PickOrphan(id)), With(t, p, empty));
    assert {} + Trims(keys) == gone;
    assert With(t, p, empty).procs[p := full] == With(t, p, full).procs;
    Then(s, With(t, p, empty), Sweep(p, SweepList(keys)), With(t, p, full));
    FlushAndEnd(s, t, p, found, existing, id, gone);
  }

  lemma FlushAndEnd(s: State, t: State, p: nat, found: map<string, string>, existing: set<string>, id: string,
                    gone: set<string>)
    requires Reaches(s, With(t, p, SweepPurging(found, found.Keys, existing, id, gone)))
    ensures Reaches(s, With(t.(objects := t.objects - gone), p, SweepChecked(found, found.Keys, existing)))
  {
    var checked := SweepChecked(found, found.Keys, existing);
    var empty, full := SweepPurging(found, found.Keys, existing, id, {}),
      SweepPurging(found, found.Keys, existing, id, gone);
    var t1 := t.(objects := t.objects - gone);
    assert With(t, p, full).procs[p := empty] == With(t1, p, empty).procs;
    Then(s, With(t, p, full), Sweep(p, SweepFlush), With(t1, p, empty));
    assert With(t1, p, empty).procs[p := checked] == With(t1, p, checked).procs;
    Then(s, With(t1, p, empty), Sweep(p, EndOrphan), With(t1, p, checked));
  }

  lemma GoneIsListed(objects: set<string>, found: map<string, string>, now: set<string>, after: set<string>,
                     all: set<string>, id: string, gone: set<string>, keys: set<string>)
    requires id in found && after <= now <= objects
    requires forall t :: t in objects && t !in after ==> t in C.DoomedByAll(objects, found, all)
    requires gone == set t | t in now && t !in after && t in Doomed(objects, found[id])
    requires keys == set x | x in now && found[id] <= x && TrimSpace(x) in gone
    ensures Trims(keys) == gone
  {
    forall t | t in gone ensures t in Trims(keys) {
      var x :| x in objects && found[id] <= x && TrimSpace(x) != "" && TrimSpace(x) == t;
      if x !in now { C.DoomedTrimmed(objects, found, all, x); }
      assert x in keys;
    }
  }

  /** So `RunOnce`, started in any reachable state, removes objects of no media that is live
      then or ever after, however it goes and whatever comes later. */
  lemma ProgramSweepIsSafe(s0: State, run: seq<Action>, listed: seq<string>, found: map<string, string>,
                           swept: set<string>, missed: set<string>, after: set<string>, later: seq<Action>, k: string)
    requires Initial(s0) && Legal(s0, run)
    requires var s := Exec(s0, run);
      C.Found(s.objects, listed, found) && C.Sweep(s.rows, s.objects, after, found, swept, missed)
        && k in s.objects - after
    requires Legal(Exec(s0, run).(objects := after), later)
    ensures ExtractMediaPrefix(k).Some?
    ensures var id := ExtractMediaPrefix(k).value.id;
      !Live(Exec(s0, run).rows, id) && !Live(Exec(Exec(s0, run).(objects := after), later).rows, id)
  {
    var s := Exec(s0, run);
    InitialOk(s0);
    RunKeeps(s0, run);
    var p := FreeProcess(s);
    SweepIsARun(s, p, listed, found, swept, missed, after);
    ReachKeeps(s, s.(objects := after));
    C.SweepSafe(s.rows, s.objects, after, listed, found, swept, missed, k);
    assert KeyIdIn(k, s.rows.Keys + s.foreign);
    StaysDead(s.(objects := after), later, ExtractMediaPrefix(k).value.id);
  }

  lemma {:induction false} Above(ps: set<nat>) returns (p: nat)
    ensures forall q :: q in ps ==> q < p
    decreases |ps|
  {
    if ps == {} { return 0; }
    var q :| q in ps;
    p := Above(ps - {q});
    p := if q < p then p else q + 1;
    forall x | x in ps ensures x < p { assert x != q ==> x in ps - {q}; }
  }

  lemma FreeProcess(s: State) returns (p: nat)
    ensures p !in s.procs
  {
    p := Above(s.procs.Keys);
  }

  // ---- a transcoding job -----------------------------------------------------------------

  /** What a job's program logs of its attempts: each due in its own output, only the last
      marked with success, if any. */
  predicate JobLog(owner: string, id: string, attempts: seq<J.Attempt>, done: bool) {
    && J.AttemptsOk(owner, id, attempts)
    && (forall k :: 0 <= k < |attempts| - 1 ==> attempts[k].mark != Some(Done))
    && (done <==> attempts != [] && attempts[|attempts| - 1].mark == Some(Done))
  }

  /** What the job and the protocol agree on: the table, the bucket, the queue and where the
      processes are. */
  ghost predicate Arrives(s: State, rows: Rows, objects: set<string>, p: nat, q: Proc) {
    exists t :: Reaches(s, t) && Agrees(s, t, rows, objects, p, q)
  }

  predicate Agrees(s: State, t: State, rows: Rows, objects: set<string>, p: nat, q: Proc) {
    t.rows == rows && t.objects == objects && t.procs == s.procs[p := q] && t.queue == s.queue
  }

  /** One more step of a job. */
  lemma JobStep(s: State, p: nat, rows: Rows, objects: set<string>, q: Proc, a: WorkAct, rows2: Rows,
                objects2: set<string>, q2: Proc)
    requires Arrives(s, rows, objects, p, q)
    requires forall t :: Agrees(s, t, rows, objects, p, q) ==>
      CanWork(t, p, a) && Agrees(s, DoWork(t, p, a), rows2, objects2, p, q2)
    ensures Arrives(s, rows2, objects2, p, q2)
  {
    var t :| Reaches(s, t) && Agrees(s, t, rows, objects, p, q);
    Then(s, t, Work(p, a), DoWork(t, p, a));
  }

  lemma Upload(s: State, p: nat, rows: Rows, objects: set<string>, id: string, owner: string, files: set<string>,
               put: set<string>, key: string)
    requires Outputs(files) && key in Due(owner, id, files)
    requires Arrives(s, rows, objects, p, WorkerRunning(id, owner, Due(owner, id, files), put))
    ensures Arrives(s, rows, objects + {key}, p, WorkerRunning(id, owner, Due(owner, id, files), put + {key}))
  {
    if key == PreviewKey(owner, id) {
      UploadPreview(s, p, rows, objects, id, owner, Due(owner, id, files), put);
    } else {
      var f :| f in files && key == HlsKey(owner, id, f);
      UploadOutput(s, p, rows, objects, id, owner, Due(owner, id, files), put, f);
    }
  }

  lemma UploadPreview(s: State, p: nat, rows: Rows, objects: set<string>, id: string, owner: string, due: set<string>,
                      put: set<string>)
    requires Arrives(s, rows, objects, p, WorkerRunning(id, owner, due, put))
    ensures var key := PreviewKey(owner, id);
      Arrives(s, rows, objects + {key}, p, WorkerRunning(id, owner, due, put + {key}))
  {
    var key := PreviewKey(owner, id);
    JobStep(s, p, rows, objects, WorkerRunning(id, owner, due, put), PutPreview, rows, objects + {key},
      WorkerRunning(id, owner, due, put + {key}));
  }

  lemma UploadOutput(s: State, p: nat, rows: Rows, objects: set<string>, id: string, owner: string, due: set<string>,
                     put: set<string>, f: string)
    requires FileName(f) && HlsKey(owner, id, f) in due
    requires Arrives(s, rows, objects, p, WorkerRunning(id, owner, due, put))
    ensures var key := HlsKey(owner, id, f);
      Arrives(s, rows, objects + {key}, p, WorkerRunning(id, owner, due, put + {key}))
  {
    var key := HlsKey(owner, id, f);
    JobStep(s, p, rows, objects, WorkerRunning(id, owner, due, put), PutOutput(f), rows, objects + {key},
      WorkerRunning(id, owner, due, put + {key}));
  }

  lemma {:induction false} UploadSet(s: State, p: nat, rows: Rows, objects: set<string>, id: string, owner: string,
                                     files: set<string>, put: set<string>, more: set<string>)
    requires Outputs(files) && more <= Due(owner, id, files)
    requires Arrives(s, rows, objects, p, WorkerRunning(id, owner, Due(owner, id, files), put))
    ensures Arrives(s, rows, objects + more, p, WorkerRunning(id, owner, Due(owner, id, files), put + more))
    decreases |more|
  {
    if more == {} {
      assert objects + more == objects && put + more == put;
    } else {
      var key :| key in more;
      Upload(s, p, rows, objects, id, owner, files, put, key);
      UploadSet(s, p, rows, objects + {key}, id, owner, files, put + {key}, more - {key});
      assert {key} + (more - {key}) == more;
      assert objects + {key} + (more - {key}) == objects + more && put + {key} + (more - {key}) == put + more;
    }
  }

  /** One attempt: its uploads, its mark if it came so far, and where it leads: to the next
      attempt's workspace, to the failure mark, or back to the queue. */
  lemma AttemptIsARun(s: State, p: nat, rows: Rows, objects: set<string>, id: string, owner: string, a: J.Attempt,
                      next: Option<J.Attempt>)
    requires J.AttemptOk(owner, id, a) && J.StillThere(rows, id, owner) && (next.Some? ==> Outputs(next.value.files))
    requires a.mark == Some(Done) ==> next.None?
    requires Arrives(s, rows, objects, p, WorkerRunning(id, owner, Due(owner, id, a.files), {}))
    ensures Arrives(s, J.MarkRows(rows, id, a), objects + a.put, p, NextProc(id, owner, a, next))
  {
    var due := Due(owner, id, a.files);
    UploadSet(s, p, rows, objects, id, owner, a.files, {}, a.put);
    assert {} + a.put == a.put;
    if a.mark.Some? {
      FinishIsARun(s, p, rows, objects + a.put, id, owner, due);
      MarkIsARun(s, p, rows, objects + a.put, id, owner, due, a, next);
    } else {
      BreakOffIsARun(s, p, rows, objects + a.put, id, owner, due, a, next);
    }
  }

  lemma FinishIsARun(s: State, p: nat, rows: Rows, objects: set<string>, id: string, owner: string, due: set<string>)
    requires Arrives(s, rows, objects, p, WorkerRunning(id, owner, due, due))
    ensures Arrives(s, rows, objects, p, WorkerUploaded(id, owner, due))
  {
    JobStep(s, p, rows, objects, WorkerRunning(id, owner, due, due), FinishUpload, rows, objects,
      WorkerUploaded(id, owner, due));
  }

  lemma BreakOffIsARun(s: State, p: nat, rows: Rows, objects: set<string>, id: string, owner: string, due: set<string>,
                       a: J.Attempt, next: Option<J.Attempt>)
    requires a.mark.None? && (next.Some? ==> Outputs(next.value.files))
    requires Arrives(s, rows, objects, p, WorkerRunning(id, owner, due, a.put))
    ensures Arrives(s, rows, objects, p, NextProc(id, owner, a, next))
  {
    if next.Some? {
      RetryIsARun(s, p, rows, objects, id, owner, due, a.put, next.value.files);
    } else {
      GiveUpIsARun(s, p, rows, objects, id, owner, due, a.put);
    }
  }

  lemma RetryIsARun(s: State, p: nat, rows: Rows, objects: set<string>, id: string, owner: string, due: set<string>,
                    put: set<string>, files: set<string>)
    requires Outputs(files) && Arrives(s, rows, objects, p, WorkerRunning(id, owner, due, put))
    ensures Arrives(s, rows, objects, p, WorkerRunning(id, owner, Due(owner, id, files), {}))
  {
    JobStep(s, p, rows, objects, WorkerRunning(id, owner, due, put), RetryWorkspace(files), rows, objects,
      WorkerRunning(id, owner, Due(owner, id, files), {}));
  }

  lemma GiveUpIsARun(s: State, p: nat, rows: Rows, objects: set<string>, id: string, owner: string, due: set<string>,
                     put: set<string>)
    requires Arrives(s, rows, objects, p, WorkerRunning(id, owner, due, put))
    ensures Arrives(s, rows, objects, p, WorkerFailing(id))
  {
    JobStep(s, p, rows, objects, WorkerRunning(id, owner, due, put), WorkerFail, rows, objects, WorkerFailing(id));
  }

  function NextProc(id: string, owner: string, a: J.Attempt, next: Option<J.Attempt>): Proc {
    if a.mark == Some(Done) then WorkerIdle
    else if next.Some? then WorkerRunning(id, owner, Due(owner, id, next.value.files), {})
    else WorkerFailing(id)
  }

  lemma MarkIsARun(s: State, p: nat, rows: Rows, objects: set<string>, id: string, owner: string, due: set<string>,
                   a: J.Attempt, next: Option<J.Attempt>)
    requires J.StillThere(rows, id, owner) && a.mark.Some? && (next.Some? ==> Outputs(next.value.files))
    requires a.mark == Some(Done) ==> next.None?
    requires Arrives(s, rows, objects, p, WorkerUploaded(id, owner, due))
    ensures Arrives(s, J.MarkRows(rows, id, a), objects, p, NextProc(id, owner, a, next))
  {
    var retry: Option<set<string>> := if next.Some? then Some(next.value.files) else None;
    var act := MarkReady(a.mark.value, a.url, Some(a.preview), a.duration, retry);
    var q, q2 := WorkerUploaded(id, owner, due), NextProc(id, owner, a, next);
    forall t | Agrees(s, t, rows, objects, p, q)
      ensures CanWork(t, p, act) && Agrees(s, DoWork(t, p, act), J.MarkRows(rows, id, a), objects, p, q2)
    {
      MarkAgrees(s, t, p, rows, objects, id, owner, due, a, next, retry);
    }
    JobStep(s, p, rows, objects, q, act, J.MarkRows(rows, id, a), objects, q2);
  }

  lemma MarkAgrees(s: State, t: State, p: nat, rows: Rows, objects: set<string>, id: string, owner: string,
                   due: set<string>, a: J.Attempt, next: Option<J.Attempt>, retry: Option<set<string>>)
    requires J.StillThere(rows, id, owner) && a.mark.Some? && (a.mark == Some(Done) ==> next.None?)
    requires retry == if next.Some? then Some(next.value.files) else None
    requires (retry.Some? ==> Outputs(retry.value)) && Agrees(s, t, rows, objects, p, WorkerUploaded(id, owner, due))
    ensures var act := MarkReady(a.mark.value, a.url, Some(a.preview), a.duration, retry);
      CanWork(t, p, act) && Agrees(s, DoWork(t, p, act), J.MarkRows(rows, id, a), objects, p,
        NextProc(id, owner, a, next))
  {
  }

  /** The attempts from the n-th on. */
  lemma {:induction false} AttemptsAreARun(s: State, p: nat, rows: Rows, objects: set<string>, id: string,
                                           owner: string, attempts: seq<J.Attempt>, done: bool, n: nat)
    requires n < |attempts| && JobLog(owner, id, attempts, done) && J.StillThere(rows, id, owner)
    requires Arrives(s, J.AfterAttempts(rows, id, attempts[..n]), objects + J.Stored(attempts[..n]), p,
      WorkerRunning(id, owner, Due(owner, id, attempts[n].files), {}))
    ensures Arrives(s, J.AfterAttempts(rows, id, attempts), objects + J.Stored(attempts), p,
      if done then WorkerIdle else WorkerFailing(id))
    decreases |attempts| - n
  {
    var a, rows0, objects0 := attempts[n], J.AfterAttempts(rows, id, attempts[..n]), objects + J.Stored(attempts[..n]);
    var next: Option<J.Attempt> := if n + 1 < |attempts| then Some(attempts[n + 1]) else None;
    assert J.AttemptOk(owner, id, a) && (next.Some? ==> J.AttemptOk(owner, id, next.value));
    RowStays(rows, id, owner, attempts[..n]);
    AttemptIsARun(s, p, rows0, objects0, id, owner, a, next);
    AttemptPrefix(rows, objects, id, attempts, n);
    if n + 1 < |attempts| {
      AttemptsAreARun(s, p, rows, objects, id, owner, attempts, done, n + 1);
    } else {
      assert attempts[..n + 1] == attempts;
    }
  }

  lemma AttemptPrefix(rows: Rows, objects: set<string>, id: string, attempts: seq<J.Attempt>, n: nat)
    requires n < |attempts|
    ensures J.AfterAttempts(rows, id, attempts[..n + 1]) ==
      J.MarkRows(J.AfterAttempts(rows, id, attempts[..n]), id, attempts[n])
    ensures objects + J.Stored(attempts[..n + 1]) == objects + J.Stored(attempts[..n]) + attempts[n].put
  {
    J.OneMoreAttempt(rows, id, attempts[..n], attempts[n]);
    assert attempts[..n] + [attempts[n]] == attempts[..n + 1];
  }

  lemma {:induction false} RowStays(rows: Rows, id: string, owner: string, attempts: seq<J.Attempt>)
    requires J.StillThere(rows, id, owner)
    ensures J.StillThere(J.AfterAttempts(rows, id, attempts), id, owner)
  {
    if attempts != [] {
      RowStays(rows, id, owner, attempts[..|attempts| - 1]);
      J.MarkKeepsRow(J.AfterAttempts(rows, id, attempts[..|attempts| - 1]), id, owner, attempts[|attempts| - 1]);
    }
  }

  /** What a worker's turn leaves by its contract (`Jobs.MediaTranscoder.WorkOn`), whichever
      stages and writes failed, a run of the protocol leaves. */
  lemma JobIsARun(s: State, p: nat, id: string, attempts: seq<J.Attempt>, done: bool, w: Write)
    requires p in s.procs && s.procs[p] == WorkerTook(id) && (attempts != [] ==> Live(s.rows, id))
    requires Live(s.rows, id) ==> JobLog(s.rows[id].owner, id, attempts, done)
    requires attempts == [] ==> !done
    ensures Arrives(s, J.AfterJob(s.rows, id, attempts, done, w), s.objects + J.Stored(attempts), p, WorkerIdle)
  {
    Start(s);
    assert Agrees(s, s, s.rows, s.objects, p, WorkerTook(id));
    assert s.objects + J.Stored([]) == s.objects;
    if attempts == [] {
      JobStep(s, p, s.rows, s.objects, WorkerTook(id), WorkerFail, s.rows, s.objects, WorkerFailing(id));
      FailIsARun(s, p, s.rows, s.objects, id, w);
    } else {
      BegunJobIsARun(s, p, id, s.rows[id].owner, attempts, done);
      if !done { FailIsARun(s, p, J.AfterAttempts(s.rows, id, attempts), s.objects + J.Stored(attempts), id, w); }
    }
  }

  lemma BegunJobIsARun(s: State, p: nat, id: string, owner: string, attempts: seq<J.Attempt>, done: bool)
    requires Live(s.rows, id) && s.rows[id].owner == owner && attempts != [] && JobLog(owner, id, attempts, done)
    requires Arrives(s, s.rows, s.objects, p, WorkerTook(id))
    ensures Arrives(s, J.AfterAttempts(s.rows, id, attempts), s.objects + J.Stored(attempts), p,
      if done then WorkerIdle else WorkerFailing(id))
  {
    assert J.AttemptOk(owner, id, attempts[0]) && attempts[..0] == [];
    assert s.objects + J.Stored([]) == s.objects;
    ReadIsARun(s, p, id, owner, attempts[0].files);
    AttemptsAreARun(s, p, s.rows, s.objects, id, owner, attempts, done, 0);
  }

  lemma ReadIsARun(s: State, p: nat, id: string, owner: string, files: set<string>)
    requires Live(s.rows, id) && s.rows[id].owner == owner && Outputs(files)
    requires Arrives(s, s.rows, s.objects, p, WorkerTook(id))
    ensures Arrives(s, s.rows, s.objects, p, WorkerRunning(id, owner, Due(owner, id, files), {}))
  {
    JobStep(s, p, s.rows, s.objects, WorkerTook(id), WorkerRead(files), s.rows, s.objects,
      WorkerRunning(id, owner, Due(owner, id, files), {}));
  }

  lemma FailIsARun(s: State, p: nat, rows: Rows, objects: set<string>, id: string, w: Write)
    requires Arrives(s, rows, objects, p, WorkerFailing(id))
    ensures Arrives(s, if w == Refused then rows else Apply(rows, SetStatus(id, Failed)), objects, p, WorkerIdle)
  {
    JobStep(s, p, rows, objects, WorkerFailing(id), MarkFailed(w),
      if w == Refused then rows else Apply(rows, SetStatus(id, Failed)), objects, WorkerIdle);
  }
}
