/** PlayableMedia: what the manifest that playback serves refers to, and when all of it is in
    the bucket. The protocol says which objects are there and which worker run put the
    manifest; playback says for which keys its lines are signed. */
module PlayableMedia {
  import opened Text
  import opened Paths
  import opened KeyLayout
  import opened Manifest
  import opened MediaTable
  import opened MediaProtocol
  import opened MediaSafety
  import opened ReadyMedia
  import opened History
  import B = Playback
  import J = Jobs
  import R = MediaRuns

  /** The j-th step is the last that put the manifest, by a worker run with these files. */
  ghost predicate WrittenBy(s0: State, run: seq<Action>, owner: string, id: string, j: nat, files: set<string>)
    requires Legal(s0, run)
  {
    var key := ManifestKey(owner, id);
    && Since(PutsIn(s0, run, key), PutsIn(s0, run, key), j, |run|)
    && WritesManifest(StateAt(s0, run, j), run[j], owner, id, files)
  }

  /** A worker run with these files puts its manifest. */
  predicate WritesManifest(s: State, a: Action, owner: string, id: string, files: set<string>) {
    && Outputs(files) && a.Work? && a.work == PutOutput("index.m3u8")
    && a.p in s.procs && s.procs[a.p].WorkerRunning?
    && s.procs[a.p].id == id && s.procs[a.p].owner == owner && s.procs[a.p].due == Due(owner, id, files)
  }

  /** Different files of outputs have different keys, none of them that of a preview. */
  lemma OutputKeysDiffer(o: string, i: string, f: string, owner: string, id: string, g: string)
    requires Component(o) && Component(i) && FileName(f) && Component(owner) && Component(id) && FileName(g)
    ensures HlsKey(o, i, f) == HlsKey(owner, id, g) <==> o == owner && i == id && f == g
    ensures PreviewKey(o, i) != HlsKey(owner, id, g)
  {
    OutputKeysRoundTrip(o, i, f);
    OutputKeysRoundTrip(owner, id, g);
    HlsKeyIs(owner, id, g);
    HlsKeyIs(o, i, f);
    PreviewKeyIs(o, i);
    if HlsKey(o, i, f) == HlsKey(owner, id, g) || PreviewKey(o, i) == HlsKey(owner, id, g) {
      PrefixInjective(o, i, owner, id);
      SuffixesDiffer(MediaPrefix(o, i), f, g);
    }
  }

  lemma SuffixesDiffer(prefix: string, f: string, g: string)
    ensures prefix + Join(["hls", f], '/') == prefix + Join(["hls", g], '/') <==> f == g
    ensures prefix + Join(["preview", "preview.jpg"], '/') != prefix + Join(["hls", g], '/')
  {
    var a, b, c := Join(["hls", f], '/'), Join(["hls", g], '/'), Join(["preview", "preview.jpg"], '/');
    JoinCut(["hls"], [f], '/');
    JoinCut(["hls"], [g], '/');
    assert ["hls"] + [f] == ["hls", f] && ["hls"] + [g] == ["hls", g];
    assert a == "hls/" + f && b == "hls/" + g;
    assert (prefix + a)[|prefix|..] == a && (prefix + b)[|prefix|..] == b && (prefix + c)[|prefix|..] == c;
    assert a[4..] == f && b[4..] == g && b[0] == 'h' && c[0] == 'p';
  }

  /** Only workers put manifests. */
  lemma ManifestPut(s: State, a: Action, owner: string, id: string) returns (files: set<string>)
    requires Inv(s) && Enabled(s, a) && Component(owner) && Component(id) && Puts(s, a, ManifestKey(owner, id))
    ensures WritesManifest(s, a, owner, id, files)
  {
    ManifestKeyIsUploaded(owner, id);
    if a.ClientPut? {
      UploadIsNoManifest(a.upload.owner, a.upload.id, a.upload.name, owner, id);
      assert false;
    } else {
      files := WorkerPut(s, a, owner, id);
    }
  }

  lemma WorkerPut(s: State, a: Action, owner: string, id: string) returns (files: set<string>)
    requires ProcsOk(s) && RowsOk(s) && Enabled(s, a) && a.Work? && Component(owner) && Component(id)
    requires Puts(s, a, HlsKey(owner, id, "index.m3u8"))
    ensures WritesManifest(s, a, owner, id, files)
  {
    var q := s.procs[a.p];
    assert ProcOk(s, q);
    OutputKeysDiffer(q.owner, q.id, if a.work.PutOutput? then a.work.file else "index.m3u8", owner, id, "index.m3u8");
    files :| Outputs(files) && q.due == Due(s.rows[q.id].owner, q.id, files);
  }

  lemma UploadIsNoManifest(o: string, i: string, name: string, owner: string, id: string)
    requires Component(o) && Component(i) && Component(owner) && Component(id)
    ensures OriginalKey(o, i, name) != HlsKey(owner, id, "index.m3u8")
  {
    OriginalKeyRoundTrip(o, i, name);
    OutputKeysRoundTrip(owner, id, "index.m3u8");
    if OriginalKey(o, i, name) == HlsKey(owner, id, "index.m3u8") {
      PrefixInjective(o, i, owner, id);
      OriginalIsNotOutput(owner, id, name, "index.m3u8");
    }
  }

  /** The manifest of a live media that is in the bucket has been written by some worker run,
      one of them last. */
  lemma ManifestHasWriter(s0: State, run: seq<Action>, id: string) returns (j: nat, files: set<string>)
    requires Initial(s0) && Legal(s0, run)
    requires var s := Exec(s0, run); Live(s.rows, id) && ManifestKey(s.rows[id].owner, id) in s.objects
    ensures WrittenBy(s0, run, Exec(s0, run).rows[id].owner, id, j, files)
  {
    var owner := Exec(s0, run).rows[id].owner;
    var key := ManifestKey(owner, id);
    RowsComponents(s0, run, id);
    ManifestKeyIsUploaded(owner, id);
    OutputKeysRoundTrip(owner, id, "index.m3u8");
    ThereIff(s0, run, id, key);
    var i: nat :| Since(PutsIn(s0, run, key), FlushesIn(s0, run, id, key), i, |run|);
    j := Latest(PutsIn(s0, run, key), |run|, i);
    InitialOk(s0);
    StepAt(s0, run, j);
    files := ManifestPut(StateAt(s0, run, j), run[j], owner, id);
  }

  /** A manifest that lists output files of its run only. */
  predicate Lists(body: string, files: set<string>) {
    forall i :: 0 <= i < |Split(body, '\n')| && Relative(Split(body, '\n')[i]) ==>
      TrimSpace(Split(body, '\n')[i]) in files
  }

  /** What playback sees of the protocol's state. */
  predicate Sees(st: B.State, s: State) { st.rows == s.rows && st.objects == s.objects }

  /** The object behind the i-th line of a served manifest, if the line is relative. */
  function LineKey(st: B.State, owner: string, id: string, i: nat): string
    requires i < |Split(B.Body(st, ManifestKey(owner, id)), '\n')|
  {
    HlsKey(owner, id, TrimSpace(Split(B.Body(st, ManifestKey(owner, id)), '\n')[i]))
  }

  predicate RelativeAt(st: B.State, owner: string, id: string, i: nat) {
    var lines := Split(B.Body(st, ManifestKey(owner, id)), '\n');
    i < |lines| && Relative(lines[i])
  }

  /** In every run: each relative line of a manifest that playback serves is signed for the key
      of an output file of the run that wrote the manifest last, and that object is in the
      bucket exactly if some step put it and no deletion has deleted it since. If that run is
      also the one that marked the row ready, it is there exactly unless a deletion has taken
      it. */
  lemma ServedLineThereIff(s0: State, run: seq<Action>, id: string, j: nat, files: set<string>, st: B.State, env: B.Env,
                           ttl: int, i: nat)
    requires Initial(s0) && Legal(s0, run) && UrlsOnOneLine(env.presign)
    requires var s := Exec(s0, run);
      Sees(st, s) && Live(s.rows, id) && B.Build(st, id, s.rows[id], env, ttl).Ok?
        && RelativeAt(st, s.rows[id].owner, id, i)
    requires var owner := Exec(s0, run).rows[id].owner;
      WrittenBy(s0, run, owner, id, j, files) && Lists(B.Body(st, ManifestKey(owner, id)), files)
    ensures var s := Exec(s0, run); var owner := s.rows[id].owner; var key := LineKey(st, owner, id, i);
      var served := Split(B.Build(st, id, s.rows[id], env, ttl).out.manifest, '\n');
      && i < |served| && env.presign(key) == Some(served[i])
      && key in Due(owner, id, files)
      && (key in s.objects <==> Kept(s0, run, id, key))
      && (id in s.outputs && s.outputs[id] == Due(owner, id, files) ==>
        (key !in s.objects <==> Taken(s0, run, id, key)))
  {
    var s := Exec(s0, run);
    var owner := s.rows[id].owner;
    var f := TrimSpace(Split(B.Body(st, ManifestKey(owner, id)), '\n')[i]);
    assert f in files && FileName(f);
    RowsComponents(s0, run, id);
    OutputKeysRoundTrip(owner, id, f);
    PlaybackFetchesUploads(env.presign, owner, id, B.Body(st, ManifestKey(owner, id)),
      B.Build(st, id, s.rows[id], env, ttl).out.manifest, i);
    ThereIff(s0, run, id, HlsKey(owner, id, f));
    var marked := ReadyHasOutputs(s0, run, id);
  }

  /** The preview URL that a lookup serves is signed for the key the marking run put its
      preview under, the one of its outputs that is no HLS file. The object is there exactly
      unless a deletion has taken it, and the answer holds for the time to live from now on. */
  lemma ServedPreviewThereIff(s0: State, run: seq<Action>, id: string, st: B.State, who: Option<string>, env: B.Env,
                              ttl: int)
    requires Initial(s0) && Legal(s0, run)
    requires Sees(st, Exec(s0, run)) && B.Hit(st.redis, id, env).None? && B.Lookup(st, who, id, env, ttl).1.Ok?
    ensures var s := Exec(s0, run); var owner := s.rows[id].owner; var key := PreviewKey(owner, id);
      var out := B.Lookup(st, who, id, env, ttl).1.out;
      && Live(s.rows, id) && (who.Some? ==> who.value == owner)
      && out.mediaID == id && out.status == Ready && out.previewURL == env.presign(key)
      && out.expiresAt - env.now == ttl
      && id in s.outputs && key in s.outputs[id] && (forall f :: FileName(f) ==> key != HlsKey(owner, id, f))
      && (key !in s.objects <==> Taken(s0, run, id, key))
  {
    var owner := Exec(s0, run).rows[id].owner;
    RowsComponents(s0, run, id);
    var files := ReadyHasOutputs(s0, run, id);
    forall f | FileName(f) ensures PreviewKey(owner, id) != HlsKey(owner, id, f) {
      OutputKeysDiffer(owner, id, f, owner, id, f);
    }
  }

  /** So a ready media plays in full when the run that marked it ready also wrote the manifest
      last and no deletion has taken any of its objects for good. */
  lemma ReadyPlaysInFull(s0: State, run: seq<Action>, id: string, j: nat, files: set<string>, st: B.State, env: B.Env,
                         ttl: int)
    requires Initial(s0) && Legal(s0, run) && UrlsOnOneLine(env.presign)
    requires var s := Exec(s0, run);
      Sees(st, s) && Live(s.rows, id) && B.Build(st, id, s.rows[id], env, ttl).Ok?
    requires var owner := Exec(s0, run).rows[id].owner;
      && WrittenBy(s0, run, owner, id, j, files) && Lists(B.Body(st, ManifestKey(owner, id)), files)
      && id in Exec(s0, run).outputs && Exec(s0, run).outputs[id] == Due(owner, id, files)
      && forall key :: key in Due(owner, id, files) ==> !Taken(s0, run, id, key)
    ensures var s := Exec(s0, run); var owner := s.rows[id].owner;
      var served := Split(B.Build(st, id, s.rows[id], env, ttl).out.manifest, '\n');
      forall i: nat :: RelativeAt(st, owner, id, i) ==>
        i < |served| && env.presign(LineKey(st, owner, id, i)) == Some(served[i])
          && LineKey(st, owner, id, i) in s.objects
  {
    var owner := Exec(s0, run).rows[id].owner;
    forall i: nat | RelativeAt(st, owner, id, i)
      ensures var served := Split(B.Build(st, id, Exec(s0, run).rows[id], env, ttl).out.manifest, '\n');
        && i < |served| && env.presign(LineKey(st, owner, id, i)) == Some(served[i])
        && LineKey(st, owner, id, i) in Exec(s0, run).objects
    {
      ServedLineThereIff(s0, run, id, j, files, st, env, ttl, i);
    }
  }

  /** The condition on the writer is needed: files are uploaded in the order of their names,
      the manifest before the segments, and a job does not look at the row's status. So when a
      worker has taken another job of a media, also of a ready one, two steps later the media
      serves a manifest with a line whose object is not there. */
  lemma NextJobServesMissing(s: State, p: nat, id: string, files: set<string>, f: string)
    requires Inv(s) && p in s.procs && s.procs[p] == WorkerTook(id) && Live(s.rows, id) && Outputs(files) && f in files
    requires f != "index.m3u8" && HlsKey(s.rows[id].owner, id, f) !in s.objects
    ensures var run := [Work(p, WorkerRead(files)), Work(p, PutOutput("index.m3u8"))];
      && Legal(s, run) && WritesManifest(StateAt(s, run, 1), run[1], s.rows[id].owner, id, files)
      && Exec(s, run).rows == s.rows && ManifestKey(s.rows[id].owner, id) in Exec(s, run).objects
      && HlsKey(s.rows[id].owner, id, f) !in Exec(s, run).objects
  {
    var a, b := Work(p, WorkerRead(files)), Work(p, PutOutput("index.m3u8"));
    var owner := s.rows[id].owner;
    ManifestKeyIsUploaded(owner, id);
    OutputKeysDiffer(owner, id, f, owner, id, "index.m3u8");
    assert HlsKey(owner, id, "index.m3u8") in Due(owner, id, files);
    TwoSteps(s, a, b);
  }

  lemma TwoSteps(s: State, a: Action, b: Action)
    requires Enabled(s, a) && Enabled(Do(s, a), b)
    ensures Legal(s, [a, b]) && StateAt(s, [a, b], 1) == Do(s, a) && Exec(s, [a, b]) == Do(Do(s, a), b)
  {
    RunAppend(s, [], a);
    RunAppend(s, [] + [a], b);
    assert [] + [a] + [b] == [a, b];
  }

  /** Such a worker there is: when a media is completed twice before its first job ends, the
      worker that has marked it ready takes its second job. */
  lemma ReadyWithAnotherJob(s: State, p: nat, id: string, files: set<string>) returns (t: State)
    requires p in s.procs && s.procs[p] == WorkerTook(id) && s.queue == [id] && Live(s.rows, id) && Outputs(files)
    ensures R.Reaches(s, t) && t.procs == s.procs && Live(t.rows, id) && t.rows[id].status == Ready
  {
    var owner := s.rows[id].owner;
    var job := [J.Attempt(files, Due(owner, id, files), Some(Done), "", "", 0)];
    R.JobIsARun(s, p, id, job, true, Done);
    MarkedReady(s.rows, id, job);
    var rows := J.AfterJob(s.rows, id, job, true, Done);
    var u :| R.Reaches(s, u) && R.Agrees(s, u, rows, s.objects + J.Stored(job), p, WorkerIdle);
    t := TakesNext(s, u, p, id);
  }

  lemma TakesNext(s: State, u: State, p: nat, id: string) returns (t: State)
    requires R.Reaches(s, u) && p in s.procs && s.procs[p] == WorkerTook(id)
    requires u.procs == s.procs[p := WorkerIdle] && u.queue == [id]
    ensures R.Reaches(s, t) && t.procs == s.procs && t.rows == u.rows
  {
    t := Do(u, Work(p, TakeJob));
    R.Then(s, u, Work(p, TakeJob), t);
    assert t.procs == s.procs;
  }

  lemma MarkedReady(rows: Rows, id: string, job: seq<J.Attempt>)
    requires Live(rows, id) && |job| == 1 && job[0].mark == Some(Done)
    ensures var after := J.AfterJob(rows, id, job, true, Done); Live(after, id) && after[id].status == Ready
  {
    assert job[..0] == [];
    assert J.AfterAttempts(rows, id, []) == rows;
  }
}
