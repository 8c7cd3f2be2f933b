/** When the objects of a media are in the bucket: exactly, in every run, and for a media
    marked ready in particular. */
module ReadyMedia {
  import opened Text
  import opened Paths
  import opened KeyLayout
  import opened MediaTable
  import opened ObjectStore
  import opened MediaProtocol
  import opened MediaSafety
  import opened History

  // ---- what puts an object and what takes it ---------------------------------------------

  /** The key an upload puts, by a client or by a worker. */
  function PutKey(s: State, a: Action): Option<string> {
    match a
    case ClientPut(u) => Some(UploadKey(u))
    case Work(p, PutOutput(file)) =>
      if p in s.procs && s.procs[p].WorkerRunning? then Some(HlsKey(s.procs[p].owner, s.procs[p].id, file)) else None
    case Work(p, PutPreview) =>
      if p in s.procs && s.procs[p].WorkerRunning? then Some(PreviewKey(s.procs[p].owner, s.procs[p].id)) else None
    case _ => None
  }

  predicate Puts(s: State, a: Action, key: string) { PutKey(s, a) == Some(key) }

  /** A batch delete of this key, among others, by a DeleteMedia of this media. */
  predicate Flushes(s: State, a: Action, id: string, key: string) {
    match a
    case Delete(p, PurgeFlush) =>
      p in s.procs && s.procs[p].DeletePurging? && s.procs[p].id == id && key in s.procs[p].pending
    case _ => false
  }

  /** The key is one of the media's, in any state. */
  predicate Belongs(key: string, owner: string, id: string) {
    Component(owner) && Component(id) && MediaPrefix(owner, id) <= key
  }

  /** A batch that has a key of some media is a batch of that media's deletion. */
  lemma BatchIsOfMedia(s: State, p: nat, owner: string, id: string, key: string)
    requires Inv(s) && p in s.procs && s.procs[p].DeletePurging? && key in s.procs[p].pending && Belongs(key, owner, id)
    ensures s.procs[p].id == id
  {
    var q := s.procs[p];
    assert ProcOk(s, q);
    if q.id != id { PrefixesDisjoint(owner, id, s.rows[q.id].owner, q.id, key); }
  }

  /** Requests other than deletions and sweeps only put. */
  lemma OthersPut(s: State, a: Action)
    requires Enabled(s, a) && !a.Sweep? && !a.Delete?
    ensures var t := Do(s, a);
      match PutKey(s, a)
      case None => t.objects == s.objects && t.purged == s.purged
      case Some(key) => t.objects == s.objects + {key} && t.purged == s.purged - {key}
  {
    match a
    case Work(p, x) => WorkPuts(s, p, x);
    case Complete(p, x) => CompletionPutsNothing(s, p, x);
    case _ =>
  }

  lemma WorkPuts(s: State, p: nat, x: WorkAct)
    requires CanWork(s, p, x)
    ensures var t := DoWork(s, p, x);
      match PutKey(s, Work(p, x))
      case None => t.objects == s.objects && t.purged == s.purged
      case Some(key) => t.objects == s.objects + {key} && t.purged == s.purged - {key}
  {
  }

  lemma CompletionPutsNothing(s: State, p: nat, x: CompleteAct)
    requires CanComplete(s, p, x)
    ensures DoComplete(s, p, x).objects == s.objects && DoComplete(s, p, x).purged == s.purged
  {
  }

  lemma DeletionFlushes(s: State, p: nat, x: DeleteAct, owner: string, id: string, key: string)
    requires Inv(s) && CanDelete(s, p, x) && Belongs(key, owner, id)
    ensures var t := DoDelete(s, p, x);
      && (key in t.purged <==> Flushes(s, Delete(p, x), id, key) || key in s.purged)
      && (key in t.objects <==> key in s.objects && !Flushes(s, Delete(p, x), id, key))
  {
    if x.PurgeFlush? && key in s.procs[p].pending { BatchIsOfMedia(s, p, owner, id, key); }
  }

  lemma SweepSpares(s: State, p: nat, x: SweepAct, owner: string, id: string, key: string)
    requires Inv(s) && CanSweep(s, p, x) && Belongs(key, owner, id)
    ensures DoSweep(s, p, x).purged == s.purged
    ensures id !in s.foreign && (id in s.rows ==> Live(s.rows, id)) ==>
      (key in DoSweep(s, p, x).objects <==> key in s.objects)
  {
    if key in s.objects && key !in DoSweep(s, p, x).objects {
      SweptKey(s, p, x, key);
      ExtractBelowPrefix(owner, id, key);
      KeyKnown(s, key);
    }
  }

  lemma KeyKnown(s: State, key: string)
    requires Inv(s) && key in s.objects && ExtractMediaPrefix(key).Some?
    ensures Known(s, ExtractMediaPrefix(key).value.id)
  {
    assert KeyIdIn(key, s.rows.Keys + s.foreign);
  }

  lemma PurgedStep(s: State, a: Action, owner: string, id: string, key: string)
    requires Inv(s) && Enabled(s, a) && Belongs(key, owner, id)
    ensures key in Do(s, a).purged <==> Flushes(s, a, id, key) || (key in s.purged && !Puts(s, a, key))
  {
    match a
    case Delete(p, x) => DeletionFlushes(s, p, x, owner, id, key);
    case Sweep(p, x) => SweepSpares(s, p, x, owner, id, key);
    case _ => OthersPut(s, a);
  }

  /** While a media has a live row, or none yet, its keys come and go by these steps only. */
  lemma ObjectStep(s: State, a: Action, owner: string, id: string, key: string)
    requires Inv(s) && Enabled(s, a) && Belongs(key, owner, id)
    requires id !in s.foreign && (id in s.rows ==> Live(s.rows, id))
    ensures key in Do(s, a).objects <==> Puts(s, a, key) || (key in s.objects && !Flushes(s, a, id, key))
  {
    match a
    case Delete(p, x) => DeletionFlushes(s, p, x, owner, id, key);
    case Sweep(p, x) => SweepSpares(s, p, x, owner, id, key);
    case _ => OthersPut(s, a);
  }

  // ---- over runs -------------------------------------------------------------------------

  /** The steps of a run that put a key, and those that flush it in a deletion. */
  ghost function PutsIn(s: State, run: seq<Action>, key: string): nat -> bool
    requires Legal(s, run)
  {
    (i: nat) => i < |run| && Puts(StateAt(s, run, i), run[i], key)
  }

  ghost function FlushesIn(s: State, run: seq<Action>, id: string, key: string): nat -> bool
    requires Legal(s, run)
  {
    (i: nat) => i < |run| && Flushes(StateAt(s, run, i), run[i], id, key)
  }

  ghost function PurgedIn(s: State, run: seq<Action>, key: string): nat -> bool
    requires Legal(s, run)
  {
    (i: nat) => i <= |run| && key in StateAt(s, run, i).purged
  }

  ghost function ThereIn(s: State, run: seq<Action>, key: string): nat -> bool
    requires Legal(s, run)
  {
    (i: nat) => i <= |run| && key in StateAt(s, run, i).objects
  }

  /** Some deletion of the media deleted the key, and no step since has put it back. */
  ghost predicate Taken(s: State, run: seq<Action>, id: string, key: string)
    requires Legal(s, run)
  {
    Lasting(FlushesIn(s, run, id, key), PutsIn(s, run, key), |run|)
  }

  /** Some step put the key, and no deletion of the media has deleted it since. */
  ghost predicate Kept(s: State, run: seq<Action>, id: string, key: string)
    requires Legal(s, run)
  {
    Lasting(PutsIn(s, run, key), FlushesIn(s, run, id, key), |run|)
  }

  lemma TakenIff(s0: State, run: seq<Action>, owner: string, id: string, key: string)
    requires Initial(s0) && Legal(s0, run) && Belongs(key, owner, id)
    ensures key in Exec(s0, run).purged <==> Taken(s0, run, id, key)
  {
    var on, sets, clears := PurgedIn(s0, run, key), FlushesIn(s0, run, id, key), PutsIn(s0, run, key);
    forall i: nat | i < |run| ensures Follows(on, sets, clears, i) { PurgedAt(s0, run, i, owner, id, key); }
    SetAndNotCleared(on, sets, clears, |run|);
    LastState(s0, run);
  }

  lemma PurgedAt(s0: State, run: seq<Action>, i: nat, owner: string, id: string, key: string)
    requires Initial(s0) && Legal(s0, run) && Belongs(key, owner, id) && i < |run|
    ensures Follows(PurgedIn(s0, run, key), FlushesIn(s0, run, id, key), PutsIn(s0, run, key), i)
  {
    InitialOk(s0);
    StepAt(s0, run, i);
    PurgedStep(StateAt(s0, run, i), run[i], owner, id, key);
  }

  /** In every run: a key of a live media is in the bucket exactly when some step put it and
      no deletion of that media has deleted it since. */
  lemma ThereIff(s0: State, run: seq<Action>, id: string, key: string)
    requires Initial(s0) && Legal(s0, run)
    requires var s := Exec(s0, run); Live(s.rows, id) && MediaPrefix(s.rows[id].owner, id) <= key
    ensures key in Exec(s0, run).objects <==> Kept(s0, run, id, key)
  {
    var owner := Exec(s0, run).rows[id].owner;
    RowsComponents(s0, run, id);
    NotThereAtFirst(s0, run, owner, id, key);
    var on, sets, clears := ThereIn(s0, run, key), PutsIn(s0, run, key), FlushesIn(s0, run, id, key);
    forall i: nat | i < |run| ensures Follows(on, sets, clears, i) { ThereAt(s0, run, i, owner, id, key); }
    SetAndNotCleared(on, sets, clears, |run|);
    LastState(s0, run);
  }

  lemma ThereAt(s0: State, run: seq<Action>, i: nat, owner: string, id: string, key: string)
    requires Initial(s0) && Legal(s0, run) && Belongs(key, owner, id) && i < |run| && Live(Exec(s0, run).rows, id)
    ensures Follows(ThereIn(s0, run, key), PutsIn(s0, run, key), FlushesIn(s0, run, id, key), i)
  {
    AliveBefore(s0, run, i, id);
    ObjectStep(StateAt(s0, run, i), run[i], owner, id, key);
  }

  lemma NotThereAtFirst(s0: State, run: seq<Action>, owner: string, id: string, key: string)
    requires Initial(s0) && Legal(s0, run) && id in Exec(s0, run).rows && Belongs(key, owner, id)
    ensures key !in s0.objects
  {
    InitialOk(s0);
    RunKeeps(s0, run);
    ExtractBelowPrefix(owner, id, key);
    if key in s0.objects { KeyKnown(s0, key); }
  }

  lemma AliveBefore(s0: State, run: seq<Action>, i: nat, id: string)
    requires Initial(s0) && Legal(s0, run) && i < |run| && Live(Exec(s0, run).rows, id)
    ensures var s := StateAt(s0, run, i);
      Inv(s) && Enabled(s, run[i]) && StateAt(s0, run, i + 1) == Do(s, run[i])
      && id !in s.foreign && (id in s.rows ==> Live(s.rows, id))
  {
    InitialOk(s0);
    StepAt(s0, run, i);
    RunFrom(s0, run, i);
    RunKeeps(StateAt(s0, run, i), run[i..]);
  }

  lemma {:induction false} RunFrom(s: State, run: seq<Action>, j: nat)
    requires Legal(s, run) && j <= |run|
    ensures Legal(StateAt(s, run, j), run[j..]) && Exec(StateAt(s, run, j), run[j..]) == Exec(s, run)
    decreases j
  {
    if j == 0 {
      assert run[0..] == run;
    } else {
      RunFrom(Do(s, run[0]), run[1..], j - 1);
      assert run[1..][j - 1..] == run[j..];
    }
  }

  // ---- why an object is gone -------------------------------------------------------------

  /** No object disappears without a cause: its media has no live row, or the step is a batch
      delete by a DeleteMedia of that very media. */
  lemma RemovalHasCause(s0: State, run: seq<Action>, a: Action, k: string)
    requires Initial(s0) && Legal(s0, run) && Enabled(Exec(s0, run), a)
    requires k in Exec(s0, run).objects && k !in Do(Exec(s0, run), a).objects
    ensures ExtractMediaPrefix(k).Some?
    ensures var s, id := Exec(s0, run), ExtractMediaPrefix(k).value.id; !Live(s.rows, id) || Flushes(s, a, id, k)
  {
    InitialOk(s0);
    RunKeeps(s0, run);
    var s := Exec(s0, run);
    if a.Sweep? {
      SweptKey(s, a.p, a.sweep, k);
    } else if a.Delete? {
      PurgedKey(s, a.p, a.delete, k);
    } else {
      OthersPut(s, a);
    }
  }

  lemma PurgedKey(s: State, p: nat, a: DeleteAct, k: string)
    requires Inv(s) && CanDelete(s, p, a) && k in s.objects && k !in DoDelete(s, p, a).objects
    ensures ExtractMediaPrefix(k).Some? && Flushes(s, Delete(p, a), ExtractMediaPrefix(k).value.id, k)
  {
    var q := s.procs[p];
    assert ProcOk(s, q);
    ExtractBelowPrefix(s.rows[q.id].owner, q.id, k);
  }

  // ---- a media marked ready --------------------------------------------------------------

  /** In every reachable state, of what the worker run that marked a live, ready row had to
      upload - the preview, the manifest and every other output file - each object is in the
      bucket exactly unless a deletion of the media has deleted it and nobody has put it back
      since. */
  lemma ReadyHasOutputs(s0: State, run: seq<Action>, id: string) returns (files: set<string>)
    requires Initial(s0) && Legal(s0, run)
    requires var s := Exec(s0, run); Live(s.rows, id) && s.rows[id].status == Ready
    ensures var s := Exec(s0, run);
      && Outputs(files) && id in s.outputs && s.outputs[id] == Due(s.rows[id].owner, id, files)
      && forall key :: key in s.outputs[id] ==> (key !in s.objects <==> Taken(s0, run, id, key))
  {
    var s := Exec(s0, run);
    var owner := s.rows[id].owner;
    InitialOk(s0);
    RunKeeps(s0, run);
    files := OutputFiles(s, id);
    forall key | key in s.outputs[id] ensures key !in s.objects <==> Taken(s0, run, id, key) {
      assert Mine(s, id, key) && Owed(s, id, key);
      TakenIff(s0, run, owner, id, key);
    }
  }

  lemma OutputFiles(s: State, id: string) returns (files: set<string>)
    requires Inv(s) && Live(s.rows, id) && s.rows[id].status == Ready
    ensures id in s.outputs && HasAll(s, id, s.outputs[id])
    ensures Outputs(files) && s.outputs[id] == Due(s.rows[id].owner, id, files)
  {
    assert HasOutputs(s, id);
    files :| Outputs(files) && s.outputs[id] == Due(s.rows[id].owner, id, files);
  }

  /** In particular the manifest that playback reads. */
  lemma ReadyHasManifest(s0: State, run: seq<Action>, id: string)
    requires Initial(s0) && Legal(s0, run)
    requires var s := Exec(s0, run); Live(s.rows, id) && s.rows[id].status == Ready
    ensures var key := ManifestKey(Exec(s0, run).rows[id].owner, id);
      key !in Exec(s0, run).objects <==> Taken(s0, run, id, key)
  {
    var files := ReadyHasOutputs(s0, run, id);
    RowsComponents(s0, run, id);
    ManifestKeyIsUploaded(Exec(s0, run).rows[id].owner, id);
  }

  lemma RowsComponents(s0: State, run: seq<Action>, id: string)
    requires Initial(s0) && Legal(s0, run) && id in Exec(s0, run).rows
    ensures Component(Exec(s0, run).rows[id].owner) && Component(id)
  {
    InitialOk(s0);
    RunKeeps(s0, run);
  }

  /** Such a deletion need not end the media: from every state in which a ready row has its
      manifest, a DeleteMedia that gives up after its first batch has ended, the row is live
      and ready, and the manifest is gone. */
  lemma GivenUpDeleteStrandsReady(s: State, p: nat, id: string) returns (run: seq<Action>)
    requires Inv(s) && p !in s.procs
    requires Live(s.rows, id) && s.rows[id].status == Ready
    requires ManifestKey(s.rows[id].owner, id) in s.objects
    ensures Legal(s, run) && Exec(s, run).rows == s.rows && Exec(s, run).procs == s.procs
    ensures ManifestKey(s.rows[id].owner, id) !in Exec(s, run).objects
  {
    var key := ManifestKey(s.rows[id].owner, id);
    ManifestIsFlushable(s.rows[id].owner, id);
    run := PurgeKeyAndGiveUp(s, p, id, key);
  }

  lemma PurgeKeyAndGiveUp(s: State, p: nat, id: string, key: string) returns (run: seq<Action>)
    requires p !in s.procs && Live(s.rows, id) && key in s.objects
    requires MediaPrefix(s.rows[id].owner, id) <= key && TrimSpace(key) == key != ""
    ensures Legal(s, run) && Exec(s, run).rows == s.rows && Exec(s, run).procs == s.procs
    ensures key !in Exec(s, run).objects
  {
    run := ReachPurge(s, p, id);
    run := PurgeOneAndGiveUp(s, run, p, key);
    assert s.procs[p := DeletePurging(id, MediaPrefix(s.rows[id].owner, id), {})] - {p} == s.procs;
  }

  lemma ManifestIsFlushable(owner: string, id: string)
    requires Component(owner) && Component(id)
    ensures var key := ManifestKey(owner, id); MediaPrefix(owner, id) <= key && TrimSpace(key) == key != ""
  {
    ManifestKeyIsUploaded(owner, id);
    OutputKeysRoundTrip(owner, id, "index.m3u8");
    HlsKeyTrimmed(owner, id);
  }

  lemma ReachPurge(s: State, p: nat, id: string) returns (run: seq<Action>)
    requires p !in s.procs && Live(s.rows, id)
    ensures Legal(s, run)
    ensures Exec(s, run) == s.(procs := s.procs[p := DeletePurging(id, MediaPrefix(s.rows[id].owner, id), {})])
  {
    var a1, a2 := Delete(p, StartDelete(id, s.rows[id].owner)), Delete(p, BeginPurge);
    RunAppend(s, [], a1);
    RunAppend(s, [] + [a1], a2);
    run := [] + [a1] + [a2];
  }

  /** A DeleteMedia that lists one key, deletes it and then fails. */
  lemma PurgeOneAndGiveUp(s: State, before: seq<Action>, p: nat, key: string) returns (run: seq<Action>)
    requires Legal(s, before) && p in Exec(s, before).procs && Exec(s, before).procs[p].DeletePurging?
    requires key in Exec(s, before).objects && Exec(s, before).procs[p].prefix <= key
    requires TrimSpace(key) == key != ""
    ensures Legal(s, run) && Exec(s, run).rows == Exec(s, before).rows && key !in Exec(s, run).objects
    ensures Exec(s, run).procs == Exec(s, before).procs - {p}
  {
    var s2 := Exec(s, before);
    var a3, a4, a5 := Delete(p, PurgeList({key})), Delete(p, PurgeFlush), Abandon(p);
    assert key in Trims({key});
    var s3 := Do(s2, a3);
    var s4 := Do(s3, a4);
    RunAppend(s, before, a3);
    RunAppend(s, before + [a3], a4);
    RunAppend(s, before + [a3] + [a4], a5);
    run := before + [a3] + [a4] + [a5];
  }

  lemma HlsKeyTrimmed(owner: string, id: string)
    requires Component(owner) && Component(id)
    ensures TrimSpace(HlsKey(owner, id, "index.m3u8")) == HlsKey(owner, id, "index.m3u8") != ""
  {
    HlsKeyIs(owner, id, "index.m3u8");
    MediaPrefixShape(owner, id);
    var k := HlsKey(owner, id, "index.m3u8");
    JoinCut(["hls"], ["index.m3u8"], '/');
    assert ["hls"] + ["index.m3u8"] == ["hls", "index.m3u8"];
    TrimSpaceFixed(k);
  }
}
