/** One transcoding job as a program over the media table and the bucket: the row lookup,
    the workspaces in turn, and in each of them the download, the conversion, the uploads
    with their retries and the ready mark. */
module Jobs {
  import opened Text
  import opened Faults
  import opened KeyLayout
  import opened MediaTable
  import opened ObjectStore
  import opened Transcoding
  import P = MediaProtocol

  const MAX_ATTEMPTS := 4

  /** What happens in one workspace: which stage fails, how the store calls go, what the
      conversion leaves (file names and contents, a preview, a duration), and whether a failing
      store call reads like a full disk. */
  datatype Plan = Plan(
    workspace: Option<Failure>,
    download: Oracle,
    probe: Option<Failure>,
    convert: Option<Failure>,
    files: seq<string>,
    content: string -> string,
    shoot: Option<Failure>,
    image: string,
    uploads: nat -> Oracle,
    full: bool,
    duration: int)

  function FileSet(files: seq<string>): set<string> { set f | f in files }

  /** A conversion that succeeds leaves plain files, the manifest among them. */
  predicate Sound(plan: Plan) { plan.convert.None? ==> P.Outputs(FileSet(plan.files)) }

  /** What a run in a workspace has done: of the keys due for these files it stored `put`,
      and it tried the ready mark or did not. */
  datatype Attempt = Attempt(files: set<string>, put: set<string>, mark: Option<P.Write>, url: string, preview: string,
                             duration: int)

  function ReadyOp(id: string, a: Attempt): RowOp {
    SetTranscodeResult(id, a.url, Some(a.preview), Some(a.duration), Ready)
  }

  function MarkRows(rows: Rows, id: string, a: Attempt): Rows {
    if a.mark.None? || a.mark.value == P.Refused then rows else Apply(rows, ReadyOp(id, a))
  }

  /** How a statement that meets this fault ends. */
  function WriteOf(fault: Fault): P.Write {
    match fault
    case NoFault => P.Done
    case LostCall => P.Refused
    case LostReply => P.AppliedAnyway
  }

  predicate AttemptOk(owner: string, id: string, a: Attempt) {
    && P.Outputs(a.files) && a.put <= P.Due(owner, id, a.files)
    && (a.mark.Some? ==> a.put == P.Due(owner, id, a.files))
  }

  function AfterAttempts(rows: Rows, id: string, attempts: seq<Attempt>): Rows {
    if attempts == [] then rows
    else MarkRows(AfterAttempts(rows, id, attempts[..|attempts| - 1]), id, attempts[|attempts| - 1])
  }

  function Stored(attempts: seq<Attempt>): set<string> {
    if attempts == [] then {} else Stored(attempts[..|attempts| - 1]) + attempts[|attempts| - 1].put
  }

  /** The most store calls the first n plans can make. */
  function CallsUpTo(plans: nat -> Plan, n: nat): nat {
    if n == 0 then 0 else CallsUpTo(plans, n - 1) + MAX_ATTEMPTS * (2 + |plans(n - 1).files|)
  }

  /** When no run leaves more than m files, a job over n directories makes at most
      n * 4 * (2 + m) store calls. */
  lemma {:induction false} CallsBounded(plans: nat -> Plan, n: nat, m: nat)
    requires forall k: nat :: k < n ==> |plans(k).files| <= m
    ensures CallsUpTo(plans, n) <= n * (MAX_ATTEMPTS * (2 + m))
  {
    if n > 0 {
      CallsBounded(plans, n - 1, m);
      assert (n - 1) * (MAX_ATTEMPTS * (2 + m)) + MAX_ATTEMPTS * (2 + m) == n * (MAX_ATTEMPTS * (2 + m));
    }
  }

  datatype JobResult = JobDone | JobFailed(failure: Failure) | NothingTried | MediaMissing

  /** The object under this key is what the run made: the preview or one of the files. */
  predicate MadeBy(plan: Plan, owner: string, id: string, bodies: map<string, string>, key: string) {
    && key in bodies
    && (|| (key == PreviewKey(owner, id) && bodies[key] == plan.image)
        || exists f :: f in plan.files && key == HlsKey(owner, id, f) && bodies[key] == plan.content(f))
  }

  /** Every stage of the run does its work: the download, probing, converting, taking the
      preview, and the uploads of the preview and of each file. */
  predicate AllGoesWell(plan: Plan) {
    && WillSucceed(plan.download, MAX_ATTEMPTS) && plan.probe.None? && plan.convert.None? && plan.shoot.None?
    && forall i: nat :: i <= |plan.files| ==> WillSucceed(plan.uploads(i), MAX_ATTEMPTS)
  }

  /** How a run fails: as the first stage that does; else one of its store calls failed. */
  function FailureOf(plan: Plan): Failure {
    if !WillSucceed(plan.download, MAX_ATTEMPTS) then Failure(plan.full, "store")
    else if plan.probe.Some? then plan.probe.value
    else if plan.convert.Some? then plan.convert.value
    else if plan.shoot.Some? then plan.shoot.value
    else Failure(plan.full, "store")
  }

  /** What a directory yields for its plan: a run wherever a workspace can be made, success
      exactly if all goes well, except that a ready mark may meet a fault. */
  predicate Fits(t: Try, plan: Plan, calm: bool) {
    && (t.NoWorkspace? <==> plan.workspace.Some?) && (t.NoWorkspace? ==> t.failure == plan.workspace.value)
    && (t.RunDone? ==> AllGoesWell(plan)) && (plan.workspace.None? && AllGoesWell(plan) && calm ==> t.RunDone?)
    && (t.RunFailed? ==> t.failure == FailureOf(plan))
  }

  ghost predicate FitAll(tries: seq<Try>, plans: nat -> Plan, calm: bool) {
    forall k :: 0 <= k < |tries| ==> Fits(tries[k], plans(k), calm)
  }

  /** How many of the attempts came to their ready mark. */
  function Marks(attempts: seq<Attempt>): nat {
    if attempts == [] then 0
    else Marks(attempts[..|attempts| - 1]) + if attempts[|attempts| - 1].mark.Some? then 1 else 0
  }

  class MediaTranscoder {
    const repo: MediaRepository
    const storage: StorageService
    const objectURL: string -> string // the URL of a stored object

    constructor (repo: MediaRepository, storage: StorageService, objectURL: string -> string)
      ensures this.repo == repo && this.storage == storage && this.objectURL == objectURL
    {
      this.repo, this.storage, this.objectURL := repo, storage, objectURL;
    }

    /** One upload with its retries; a call that fails may have stored the object. */
    method Upload(key: string, body: string, o: Oracle) returns (ok: bool, calls: nat, ghost stored: bool)
      modifies storage`objects, storage`bodies
      ensures calls <= MAX_ATTEMPTS && (ok ==> stored) && (ok <==> WillSucceed(o, MAX_ATTEMPTS))
      ensures storage.objects == if stored then old(storage.objects) + {key} else old(storage.objects)
      ensures storage.bodies == if stored then old(storage.bodies)[key := body] else old(storage.bodies)
    {
      var r, tries, _ := WithRetry(MAX_ATTEMPTS, o);
      if r.Succeeded? {
        storage.Store(key, body);
        return true, tries, true;
      }
      if tries > 0 {
        if * {
          storage.Store(key, body);
          return false, tries, true;
        }
      }
      return false, tries, false;
    }

    /** uploadHLSOutput: file after file in the order of their names, up to the first that
        cannot be uploaded (which may have been stored). */
    method UploadHLSOutput(owner: string, id: string, files: seq<string>, content: string -> string,
                           uploads: nat -> Oracle)
      returns (ok: bool, calls: nat, ghost put: set<string>, ghost n: nat)
      modifies storage`objects, storage`bodies
      ensures storage.objects == old(storage.objects) + put
      ensures Stops(owner, id, files, uploads, ok, put, n)
      ensures FilesIn(old(storage.bodies), storage.bodies, owner, id, files, content, put)
      ensures calls <= MAX_ATTEMPTS * |files|
    {
      ok, calls, put, n := true, 0, {}, 0;
      for i := 0 to |files|
        invariant ok && n == i && storage.objects == old(storage.objects) + put
        invariant Reaches(owner, id, files, uploads, put, i) && calls <= MAX_ATTEMPTS * i
        invariant FilesIn(old(storage.bodies), storage.bodies, owner, id, files, content, put)
      {
        var tries: nat;
        ghost var before := put;
        ok, tries, put := StoreFile(owner, id, files, i, content, uploads(i), put, old(storage.objects),
          old(storage.bodies));
        ReachesNext(owner, id, files, uploads, before, i, ok, put);
        calls := calls + tries;
        if !ok { return; }
        n := n + 1;
      }
      assert files[..|files|] == files;
    }

    /** One file of it. */
    method StoreFile(owner: string, id: string, files: seq<string>, i: nat, content: string -> string, o: Oracle,
                     ghost put: set<string>, ghost objects: set<string>, ghost bodies: map<string, string>)
      returns (ok: bool, calls: nat, ghost now: set<string>)
      requires i < |files| && storage.objects == objects + put
      requires FilesIn(bodies, storage.bodies, owner, id, files, content, put)
      modifies storage`objects, storage`bodies
      ensures calls <= MAX_ATTEMPTS && (ok <==> WillSucceed(o, MAX_ATTEMPTS))
      ensures now == put + {HlsKey(owner, id, files[i])} || (!ok && now == put)
      ensures storage.objects == objects + now
      ensures FilesIn(bodies, storage.bodies, owner, id, files, content, now)
    {
      ghost var stored;
      OneMoreFile(bodies, storage.bodies, owner, id, files, content, put, i);
      ok, calls, stored := Upload(HlsKey(owner, id, files[i]), content(files[i]), o);
      now := if stored then put + {HlsKey(owner, id, files[i])} else put;
    }

    /** processMediaInWorkspace. The run succeeds exactly if every stage does and the ready
        mark meets no fault, and fails as the first failing stage does. The row is marked ready
        only when everything due has been stored, with the URLs of the manifest and the preview
        and the duration of this run. */
    method ProcessMediaInWorkspace(id: string, row: MediaRow, plan: Plan) returns (t: Try, calls: nat, ghost a: Attempt)
      requires StillThere(repo.rows, id, row.owner) && Sound(plan)
      modifies repo`rows, repo`calls, storage`objects, storage`bodies
      ensures !t.NoWorkspace? && AttemptOk(row.owner, id, a) && storage.objects == old(storage.objects) + a.put
      ensures Written(old(storage.bodies), storage.bodies, plan, row.owner, id, a.put)
      ensures repo.rows == MarkRows(old(repo.rows), id, a)
      ensures repo.calls == old(repo.calls) + if AllGoesWell(plan) then 1 else 0
      ensures a.mark == if AllGoesWell(plan) then Some(WriteOf(repo.faults(old(repo.calls)))) else None
      ensures AllGoesWell(plan) ==> a.files == FileSet(plan.files)
      ensures t.RunDone? <==> (
        && WillSucceed(plan.download, MAX_ATTEMPTS) && plan.probe.None? && plan.convert.None? && plan.shoot.None?
        && (forall i: nat :: i <= |plan.files| ==> WillSucceed(plan.uploads(i), MAX_ATTEMPTS))
        && repo.faults(old(repo.calls)).NoFault?)
      ensures t.RunFailed? ==> t.failure == FailureOf(plan)
      ensures t.RunFailed? && WillSucceed(plan.download, MAX_ATTEMPTS) ==>
        && (plan.probe.Some? ==> t.failure == plan.probe.value)
        && (plan.probe.None? && plan.convert.Some? ==> t.failure == plan.convert.value)
        && (plan.probe.None? && plan.convert.None? && plan.shoot.Some? ==> t.failure == plan.shoot.value)
      ensures a.mark.Some? && !a.mark.value.Refused? ==> ReadyFrom(repo.rows, id, row.owner, objectURL, plan)
      ensures calls <= MAX_ATTEMPTS * (2 + |plan.files|)
    {
      var failed := RunFailed(Failure(plan.full, "store"));
      a := Attempt({"index.m3u8"}, {}, None, "", "", 0);
      assert P.Outputs(a.files);
      var download, downloads, _ := WithRetry(MAX_ATTEMPTS, plan.download);
      calls := downloads;
      if !download.Succeeded? { return failed, calls, a; }
      if plan.probe.Some? { return RunFailed(plan.probe.value), calls, a; }
      if plan.convert.Some? { return RunFailed(plan.convert.value), calls, a; }
      if plan.shoot.Some? { return RunFailed(plan.shoot.value), calls, a; }
      a := a.(files := FileSet(plan.files));
      t, calls, a := UploadAndMark(id, row, plan, calls, a);
    }

    /** Its second half: the uploads and the ready mark. */
    method UploadAndMark(id: string, row: MediaRow, plan: Plan, earlier: nat, ghost start: Attempt)
      returns (t: Try, calls: nat, ghost a: Attempt)
      requires StillThere(repo.rows, id, row.owner) && P.Outputs(FileSet(plan.files)) && earlier <= MAX_ATTEMPTS
      requires start == Attempt(FileSet(plan.files), {}, None, "", "", 0)
      modifies repo`rows, repo`calls, storage`objects, storage`bodies
      ensures !t.NoWorkspace? && AttemptOk(row.owner, id, a) && storage.objects == old(storage.objects) + a.put
      ensures Written(old(storage.bodies), storage.bodies, plan, row.owner, id, a.put)
      ensures repo.rows == MarkRows(old(repo.rows), id, a) && a.files == FileSet(plan.files)
      ensures var uploaded := forall i: nat :: i <= |plan.files| ==> WillSucceed(plan.uploads(i), MAX_ATTEMPTS);
        && repo.calls == old(repo.calls) + (if uploaded then 1 else 0)
        && a.mark == (if uploaded then Some(WriteOf(repo.faults(old(repo.calls)))) else None)
        && (t.RunDone? <==> uploaded && repo.faults(old(repo.calls)).NoFault?)
      ensures t.RunFailed? ==> t.failure == Failure(plan.full, "store")
      ensures a.mark.Some? && !a.mark.value.Refused? ==> ReadyFrom(repo.rows, id, row.owner, objectURL, plan)
      ensures calls <= MAX_ATTEMPTS * (2 + |plan.files|)
    {
      var failed := RunFailed(Failure(plan.full, "store"));
      var ok, tries: nat;
      ok, tries, a := UploadAll(id, row.owner, plan, start);
      calls := earlier + tries;
      if !ok { return failed, calls, a; }
      var url, preview := objectURL(HlsKey(row.owner, id, "index.m3u8")), objectURL(PreviewKey(row.owner, id));
      var err := repo.Update(SetTranscodeResult(id, url, Some(preview), Some(plan.duration), Ready));
      a := a.(mark := Some(WriteOf(repo.faults(repo.calls - 1))));
      a := a.(url := url, preview := preview, duration := plan.duration);
      if err.Some? { return failed, calls, a; }
      return RunDone, calls, a;
    }

    /** The preview, then the files. */
    method UploadAll(id: string, owner: string, plan: Plan, ghost start: Attempt)
      returns (ok: bool, calls: nat, ghost a: Attempt)
      requires start == Attempt(FileSet(plan.files), {}, None, "", "", 0)
      modifies storage`objects, storage`bodies
      ensures ok <==> forall i: nat :: i <= |plan.files| ==> WillSucceed(plan.uploads(i), MAX_ATTEMPTS)
      ensures a == start.(put := a.put) && a.put <= P.Due(owner, id, a.files)
      ensures ok ==> a.put == P.Due(owner, id, a.files)
      ensures storage.objects == old(storage.objects) + a.put
      ensures Written(old(storage.bodies), storage.bodies, plan, owner, id, a.put)
      ensures calls <= MAX_ATTEMPTS * (1 + |plan.files|)
    {
      ghost var stored, put, n;
      ok, calls, stored := Upload(PreviewKey(owner, id), plan.image, plan.uploads(0));
      a := if stored then start.(put := {PreviewKey(owner, id)}) else start;
      if !ok { return; }
      ghost var before := storage.bodies;
      var tries: nat;
      var rest := (i: nat) => plan.uploads(i + 1);
      ok, tries, put, n := UploadHLSOutput(owner, id, plan.files, plan.content, rest);
      StoppedWithin(owner, id, plan.files, rest, ok, put, n);
      PreviewThenFiles(old(storage.bodies), before, storage.bodies, plan, owner, id, put);
      RestOfUploads(plan, rest, n, ok);
      calls, a := calls + tries, a.(put := a.put + put);
    }

    /** Where a job stands that began with these rows, objects and bodies and this number of
        statements: what its attempts have left. */
    ghost predicate Stands(id: string, owner: string, attempts: seq<Attempt>, rows: Rows, objects: set<string>,
                           bodies: map<string, string>, start: nat)
      reads this, repo, storage
    {
      && StillThere(repo.rows, id, owner) && AttemptsOk(owner, id, attempts)
      && repo.rows == AfterAttempts(rows, id, attempts) && storage.objects == objects + Stored(attempts)
      && repo.calls == start + Marks(attempts)
      && SameOutside(bodies, storage.bodies, Stored(attempts))
    }

    /** The last plan tried is what the row and the bucket show. */
    ghost predicate Shows(id: string, owner: string, plan: Plan)
      reads this, repo, storage
    {
      && ReadyFrom(repo.rows, id, owner, objectURL, plan)
      && forall key :: key in P.Due(owner, id, FileSet(plan.files)) ==>
        key in storage.objects && MadeBy(plan, owner, id, storage.bodies, key)
    }

    /** One turn of the loop below: a workspace in the next directory, the run in it, and its
        removal. */
    method TryNext(id: string, row: MediaRow, dirs: seq<string>, plans: nat -> Plan, log: Log,
                   ghost attempts: seq<Attempt>, ghost rows: Rows, ghost objects: set<string>,
                   ghost bodies: map<string, string>, ghost start: nat)
      returns (t: Try, logNow: Log, ghost attemptsNow: seq<Attempt>)
      requires Stands(id, row.owner, attempts, rows, objects, bodies, start) && forall k :: Sound(plans(k))
      requires LogOk(dirs, plans, log) && |log.tries| < |dirs|
      modifies repo`rows, repo`calls, storage`objects, storage`bodies
      ensures LogOk(dirs, plans, logNow) && logNow.tries == log.tries + [t]
      ensures Stands(id, row.owner, attemptsNow, rows, objects, bodies, start) && Noted(t, attempts, attemptsNow)
      ensures Fits(t, plans(|log.tries|), Calm(repo.faults, old(repo.calls), repo.calls))
      ensures t.RunDone? ==> Shows(id, row.owner, plans(|log.tries|))
    {
      var dir, plan := dirs[|log.tries|], plans(|log.tries|);
      if plan.workspace.Some? {
        NoWorkspaceLogged(dirs, plans, log, plan.workspace.value);
        t := NoWorkspace(plan.workspace.value);
        return t, Log(log.calls, log.steps + [NotMade(dir)], log.tries + [t]), attempts;
      }
      var steps := log.steps + [Made(dir)];
      var calls;
      ghost var a, before := *, storage.bodies;
      t, calls, a := ProcessMediaInWorkspace(id, row, plan);
      steps := steps + [Ran(dir)];
      steps := steps + [Removed(dir)];
      RunLogged(dirs, plans, log, t, calls);
      OneMoreAttempt(rows, id, attempts, a);
      MarkKeepsRow(AfterAttempts(rows, id, attempts), id, row.owner, a);
      OutsideMore(bodies, before, storage.bodies, plan, row.owner, id, Stored(attempts), a.put);
      return t, Log(log.calls + calls, steps, log.tries + [t]), attempts + [a];
    }

    /** The workspace loop of processMedia over any list of directories. They are tried in
        order; only a full disk leads on to the next; the error for a loop that runs dry is
        returned for the empty list alone. A job that is done shows what its last plan made. */
    method ProcessInWorkspaces(id: string, row: MediaRow, dirs: seq<string>, plans: nat -> Plan)
      returns (r: JobResult, log: Log, ghost attempts: seq<Attempt>)
      requires StillThere(repo.rows, id, row.owner) && forall k :: Sound(plans(k))
      modifies repo`rows, repo`calls, storage`objects, storage`bodies
      ensures LogOk(dirs, plans, log) && Ends(r, dirs, log, attempts) && (r.NothingTried? <==> dirs == [])
      ensures Stands(id, row.owner, attempts, old(repo.rows), old(storage.objects), old(storage.bodies),
        old(repo.calls))
      ensures FitAll(log.tries, plans, Calm(repo.faults, old(repo.calls), repo.calls))
      ensures r.JobDone? ==> Shows(id, row.owner, plans(|log.tries| - 1))
    {
      log, attempts := Log(0, [], []), [];
      for idx := 0 to |dirs|
        invariant |log.tries| == idx && (idx == |dirs| ==> dirs == [])
        invariant LogOk(dirs, plans, log) && GoesOn(log, attempts)
        invariant Stands(id, row.owner, attempts, old(repo.rows), old(storage.objects), old(storage.bodies),
          old(repo.calls))
        invariant FitAll(log.tries, plans, Calm(repo.faults, old(repo.calls), repo.calls))
      {
        var t;
        t, log, attempts := Turn(id, row, dirs, plans, log, attempts,
          old(repo.rows), old(storage.objects), old(storage.bodies), old(repo.calls));
        if t.RunDone? { return JobDone, log, attempts; }
        if t.failure.noSpace && idx < |dirs| - 1 { continue; }
        return JobFailed(t.failure), log, attempts;
      }
      // the last error is still nil here: the loop was not entered
      return NothingTried, log, attempts;
    }

    /** One turn, and what it means for the job. */
    method Turn(id: string, row: MediaRow, dirs: seq<string>, plans: nat -> Plan, log: Log,
                ghost attempts: seq<Attempt>, ghost rows: Rows, ghost objects: set<string>,
                ghost bodies: map<string, string>, ghost start: nat)
      returns (t: Try, logNow: Log, ghost attemptsNow: seq<Attempt>)
      requires Stands(id, row.owner, attempts, rows, objects, bodies, start) && forall k :: Sound(plans(k))
      requires LogOk(dirs, plans, log) && |log.tries| < |dirs| && GoesOn(log, attempts) && start <= repo.calls
      requires FitAll(log.tries, plans, Calm(repo.faults, start, repo.calls))
      modifies repo`rows, repo`calls, storage`objects, storage`bodies
      ensures LogOk(dirs, plans, logNow) && |logNow.tries| == |log.tries| + 1
      ensures Stands(id, row.owner, attemptsNow, rows, objects, bodies, start)
      ensures FitAll(logNow.tries, plans, Calm(repo.faults, start, repo.calls))
      ensures t.RunDone? ==> Shows(id, row.owner, plans(|log.tries|))
      ensures Advances(t) ==> GoesOn(logNow, attemptsNow)
      ensures t.RunDone? ==> Ends(JobDone, dirs, logNow, attemptsNow)
      ensures !t.RunDone? && (|logNow.tries| == |dirs| || !t.failure.noSpace) ==>
        Ends(JobFailed(t.failure), dirs, logNow, attemptsNow)
    {
      ghost var calls := repo.calls;
      t, logNow, attemptsNow := TryNext(id, row, dirs, plans, log, attempts, rows, objects, bodies, start);
      NextTurn(dirs, log, attempts, logNow, attemptsNow, t);
      CalmParts(repo.faults, start, calls, repo.calls);
      FitsLater(log.tries, t, plans, Calm(repo.faults, start, calls), Calm(repo.faults, calls, repo.calls),
        Calm(repo.faults, start, repo.calls));
    }

    /** What a job that found its row has come to, from the state in which it began. */
    ghost predicate Worked(id: string, owner: string, r: JobResult, log: Log, dirs: seq<string>,
                           attempts: seq<Attempt>, plans: nat -> Plan, rows: Rows, objects: set<string>,
                           bodies: map<string, string>, start: nat)
      reads this, repo, storage
    {
      && Distinct(dirs) && "." in dirs && |dirs| <= 4 && LogOk(dirs, plans, log) && Ends(r, dirs, log, attempts)
      && r != NothingTried && start <= repo.calls && Stands(id, owner, attempts, rows, objects, bodies, start)
      && FitAll(log.tries, plans, Calm(repo.faults, start, repo.calls))
      && (r.JobDone? ==> log.tries != [] && Shows(id, owner, plans(|log.tries| - 1)))
    }

    /** processMedia over the candidate directories: it always tries one, so the loop never
        runs dry, and at most four. */
    method ProcessMedia(id: string, workDir: string, tempDir: string, plans: nat -> Plan)
      returns (r: JobResult, log: Log, ghost dirs: seq<string>, ghost attempts: seq<Attempt>)
      requires forall k :: Sound(plans(k))
      modifies repo`rows, repo`calls, storage`objects, storage`bodies
      ensures r.MediaMissing? <==> !Live(old(repo.rows), id) || !repo.faults(old(repo.calls)).NoFault?
      ensures r.MediaMissing? ==> (
        && repo.rows == old(repo.rows)
        && storage.objects == old(storage.objects) && storage.bodies == old(storage.bodies)
        && log == Log(0, [], []) && attempts == [] && repo.calls == old(repo.calls) + 1)
      ensures !r.MediaMissing? ==> Worked(id, old(repo.rows)[id].owner, r, log, dirs, attempts, plans,
        old(repo.rows), old(storage.objects), old(storage.bodies), old(repo.calls) + 1)
      ensures !r.MediaMissing? ==> Candidates(workDir, tempDir, dirs)
    {
      log, dirs, attempts := Log(0, [], []), [], [];
      var row, err := repo.GetByID(id);
      if err.Some? { return MediaMissing, log, dirs, attempts; }
      r, log, dirs, attempts := ProcessRow(id, row.value, workDir, tempDir, plans);
    }

    method ProcessRow(id: string, row: MediaRow, workDir: string, tempDir: string, plans: nat -> Plan)
      returns (r: JobResult, log: Log, ghost dirs: seq<string>, ghost attempts: seq<Attempt>)
      requires StillThere(repo.rows, id, row.owner) && forall k :: Sound(plans(k))
      modifies repo`rows, repo`calls, storage`objects, storage`bodies
      ensures !r.MediaMissing? && Worked(id, row.owner, r, log, dirs, attempts, plans,
        old(repo.rows), old(storage.objects), old(storage.bodies), old(repo.calls))
      ensures Candidates(workDir, tempDir, dirs)
    {
      var bases, at := TempBaseDirs(workDir, tempDir);
      dirs := bases;
      r, log, attempts := ProcessInWorkspaces(id, row, bases, plans);
    }

    /** One turn of the worker: whatever goes wrong, it tries to mark the row failed (`w` is how
        that went), and nobody is told if that fails too. It makes one statement to read the
        row, one for each attempt that came to its mark, and one to mark a failure. */
    method WorkOn(id: string, workDir: string, tempDir: string, plans: nat -> Plan)
      returns (r: JobResult, log: Log, ghost dirs: seq<string>, ghost attempts: seq<Attempt>, ghost w: P.Write)
      requires forall k :: Sound(plans(k))
      modifies repo`rows, repo`calls, storage`objects, storage`bodies
      ensures !r.MediaMissing? ==> Candidates(workDir, tempDir, dirs) && LogOk(dirs, plans, log)
      ensures !r.MediaMissing? ==> Ends(r, dirs, log, attempts)
      ensures FitAll(log.tries, plans, Calm(repo.faults, old(repo.calls), repo.calls))
      ensures r != NothingTried && storage.objects == old(storage.objects) + Stored(attempts)
      ensures SameOutside(old(storage.bodies), storage.bodies, Stored(attempts))
      ensures Live(old(repo.rows), id) ==> AttemptsOk(old(repo.rows)[id].owner, id, attempts)
      ensures r.MediaMissing? <==> !Live(old(repo.rows), id) || !repo.faults(old(repo.calls)).NoFault?
      ensures r.MediaMissing? ==> attempts == []
      ensures r.JobDone? <==> attempts != [] && attempts[|attempts| - 1].mark == Some(P.Done)
      ensures forall k :: 0 <= k < |attempts| - 1 ==> attempts[k].mark != Some(P.Done)
      ensures r.JobDone? ==> log.tries != [] && Shows(id, old(repo.rows)[id].owner, plans(|log.tries| - 1))
      ensures repo.calls == old(repo.calls) + 1 + Marks(attempts) + if r.JobDone? then 0 else 1
      ensures !r.JobDone? ==> w == WriteOf(repo.faults(repo.calls - 1))
      ensures repo.rows == AfterJob(old(repo.rows), id, attempts, r.JobDone?, w)
      ensures !r.JobDone? && Live(old(repo.rows), id) && !w.Refused? ==>
        Live(repo.rows, id) && repo.rows[id].status == Failed
      ensures plans(0).workspace.None? && AllGoesWell(plans(0)) && Live(old(repo.rows), id) ==>
        r.JobDone? || !Calm(repo.faults, old(repo.calls), repo.calls)
      ensures log.calls <= CallsUpTo(plans, |log.tries|) && |log.tries| <= 4
    {
      r, log, dirs, attempts := ProcessMedia(id, workDir, tempDir, plans);
      ghost var calls := repo.calls;
      w := P.Done;
      if !r.JobDone? {
        var _ := repo.Update(SetStatus(id, Failed));
        w := WriteOf(repo.faults(calls));
      }
      CalmParts(repo.faults, old(repo.calls), old(repo.calls) + 1, calls);
      CalmParts(repo.faults, old(repo.calls), calls, repo.calls);
    }
  }

  /** The candidate directories, in their order. */
  ghost predicate Candidates(workDir: string, tempDir: string, dirs: seq<string>) {
    exists at :: InFirstOrder(CleanedAll([workDir, tempDir, "/var/tmp", "."]), 4, dirs, at)
  }

  ghost predicate SameOutside(before: map<string, string>, after: map<string, string>, keys: set<string>) {
    && (forall key :: key !in keys ==> (key in after <==> key in before))
    && (forall key :: key !in keys && key in before ==> after[key] == before[key])
  }

  lemma OutsideMore(a: map<string, string>, b: map<string, string>, c: map<string, string>, plan: Plan, owner: string,
                    id: string, keys: set<string>, put: set<string>)
    requires SameOutside(a, b, keys) && Written(b, c, plan, owner, id, put)
    ensures SameOutside(a, c, keys + put)
  {
  }

  /** The objects a run has put are what it made; all others hold what they held. */
  ghost predicate Written(before: map<string, string>, after: map<string, string>, plan: Plan, owner: string,
                          id: string, put: set<string>) {
    && (forall key :: key in put ==> MadeBy(plan, owner, id, after, key))
    && (forall key :: key !in put ==> (key in after <==> key in before))
    && (forall key :: key !in put && key in before ==> after[key] == before[key])
  }

  ghost predicate AllSucceed(uploads: nat -> Oracle, n: nat) {
    forall i: nat :: i < n ==> WillSucceed(uploads(i), MAX_ATTEMPTS)
  }

  /** The uploads have come as far as the n-th file. */
  ghost predicate Reaches(owner: string, id: string, files: seq<string>, uploads: nat -> Oracle,
                          put: set<string>, n: nat)
  {
    n <= |files| && AllSucceed(uploads, n) && put == HlsKeys(owner, id, files[..n])
  }

  /** They stopped there: at the end, or at a file that cannot be uploaded but may be stored. */
  ghost predicate Stops(owner: string, id: string, files: seq<string>, uploads: nat -> Oracle, ok: bool,
                        put: set<string>, n: nat)
  {
    && n <= |files| && AllSucceed(uploads, n) && (ok <==> n == |files|)
    && (ok ==> put == HlsKeys(owner, id, files))
    && (!ok ==> !WillSucceed(uploads(n), MAX_ATTEMPTS))
    && (!ok ==> Between(HlsKeys(owner, id, files[..n]), put, HlsKeys(owner, id, files[..n + 1])))
  }

  lemma ReachesNext(owner: string, id: string, files: seq<string>, uploads: nat -> Oracle, put: set<string>, i: nat,
                    ok: bool, now: set<string>)
    requires i < |files| && Reaches(owner, id, files, uploads, put, i)
    requires ok <==> WillSucceed(uploads(i), MAX_ATTEMPTS)
    requires now == put + {HlsKey(owner, id, files[i])} || (!ok && now == put)
    ensures ok ==> Reaches(owner, id, files, uploads, now, i + 1)
    ensures !ok ==> Stops(owner, id, files, uploads, ok, now, i)
  {
    OneMoreKey(owner, id, files, i);
  }

  predicate Between(low: set<string>, s: set<string>, high: set<string>) { low <= s <= high }

  /** Of the files' objects, those put hold their files; all other objects hold what they held. */
  ghost predicate FilesIn(before: map<string, string>, after: map<string, string>, owner: string, id: string,
                          files: seq<string>, content: string -> string, put: set<string>) {
    && (forall key :: key in put ==> HoldsFile(after, owner, id, files, content, key))
    && SameOutside(before, after, put)
  }

  lemma OneMoreKey(owner: string, id: string, files: seq<string>, i: nat)
    requires i < |files|
    ensures HlsKeys(owner, id, files[..i + 1]) == HlsKeys(owner, id, files[..i]) + {HlsKey(owner, id, files[i])}
  {
    assert files[..i + 1] == files[..i] + [files[i]];
  }

  lemma OneMoreFile(before: map<string, string>, now: map<string, string>, owner: string, id: string,
                    files: seq<string>, content: string -> string, put: set<string>, i: nat)
    requires i < |files| && FilesIn(before, now, owner, id, files, content, put)
    ensures var key := HlsKey(owner, id, files[i]);
      FilesIn(before, now[key := content(files[i])], owner, id, files, content, put + {key})
  {
    var key := HlsKey(owner, id, files[i]);
    var after := now[key := content(files[i])];
    forall k | k in put + {key} ensures HoldsFile(after, owner, id, files, content, k) {
      if k == key {
        assert files[i] in files;
      } else {
        assert HoldsFile(now, owner, id, files, content, k);
      }
    }
  }

  lemma SomeFiles(owner: string, id: string, files: seq<string>, n: nat)
    requires n <= |files|
    ensures HlsKeys(owner, id, files[..n]) <= HlsKeys(owner, id, files)
  {
    forall key | key in HlsKeys(owner, id, files[..n]) ensures key in HlsKeys(owner, id, files) {
      var f :| f in files[..n] && HlsKey(owner, id, f) == key;
    }
  }

  lemma StoppedWithin(owner: string, id: string, files: seq<string>, uploads: nat -> Oracle, ok: bool,
                      put: set<string>, n: nat)
    requires Stops(owner, id, files, uploads, ok, put, n)
    ensures {PreviewKey(owner, id)} + put <= P.Due(owner, id, FileSet(files))
    ensures ok ==> {PreviewKey(owner, id)} + put == P.Due(owner, id, FileSet(files))
  {
    HlsKeysOf(owner, id, files);
    if !ok { SomeFiles(owner, id, files, n + 1); }
  }

  /** First the preview was stored or not, then some of the files. */
  lemma PreviewThenFiles(a: map<string, string>, b: map<string, string>, c: map<string, string>, plan: Plan,
                         owner: string, id: string, put: set<string>)
    requires b == a[PreviewKey(owner, id) := plan.image] && FilesIn(b, c, owner, id, plan.files, plan.content, put)
    ensures Written(a, c, plan, owner, id, {PreviewKey(owner, id)} + put)
  {
    forall key | key in {PreviewKey(owner, id)} + put ensures MadeBy(plan, owner, id, c, key) {
      if key in put { assert HoldsFile(c, owner, id, plan.files, plan.content, key); }
    }
  }

  lemma RestOfUploads(plan: Plan, rest: nat -> Oracle, n: nat, ok: bool)
    requires forall i: nat :: rest(i) == plan.uploads(i + 1)
    requires n <= |plan.files| && (ok <==> n == |plan.files|) && WillSucceed(plan.uploads(0), MAX_ATTEMPTS)
    requires AllSucceed(rest, n)
    requires !ok ==> !WillSucceed(rest(n), MAX_ATTEMPTS)
    ensures ok <==> forall i: nat :: i <= |plan.files| ==> WillSucceed(plan.uploads(i), MAX_ATTEMPTS)
  {
    if ok {
      forall i: nat | i <= |plan.files| ensures WillSucceed(plan.uploads(i), MAX_ATTEMPTS) {
        if i > 0 { assert rest(i - 1) == plan.uploads(i - 1 + 1); }
      }
    } else {
      assert rest(n) == plan.uploads(n + 1);
    }
  }

  lemma FitsLater(tries: seq<Try>, t: Try, plans: nat -> Plan, before: bool, here: bool, after: bool)
    requires FitAll(tries, plans, before) && Fits(t, plans(|tries|), here) && (after ==> before && here)
    ensures FitAll(tries + [t], plans, after)
  {
  }

  predicate HoldsFile(bodies: map<string, string>, owner: string, id: string, files: seq<string>,
                     content: string -> string, key: string) {
    key in bodies && exists f :: f in files && key == HlsKey(owner, id, f) && bodies[key] == content(f)
  }

  /** The row is live and ready, for the manifest, preview and duration of this run. */
  predicate ReadyFrom(rows: Rows, id: string, owner: string, objectURL: string -> string, plan: Plan) {
    && id in rows && rows[id].deletedAt.None? && rows[id].owner == owner && rows[id].status == Ready
    && rows[id].playbackUrl == objectURL(HlsKey(owner, id, "index.m3u8"))
    && rows[id].previewUrl == Some(objectURL(PreviewKey(owner, id)))
    && rows[id].durationSec == Some(plan.duration)
    && rows[id].mime == "application/vnd.apple.mpegurl"
  }

  function AfterJob(rows: Rows, id: string, attempts: seq<Attempt>, done: bool, w: P.Write): Rows {
    var after := AfterAttempts(rows, id, attempts);
    if done || w == P.Refused then after else Apply(after, SetStatus(id, Failed))
  }

  /** What a job leaves in the log. */
  datatype Log = Log(calls: nat, steps: seq<Step>, tries: seq<Try>)

  predicate LogOk(dirs: seq<string>, plans: nat -> Plan, log: Log) {
    && |log.tries| <= |dirs| && log.steps == StepsUpTo(dirs, log.tries, |log.tries|)
    && log.calls <= CallsUpTo(plans, |log.tries|)
  }

  /** Every directory tried was full, and no attempt has marked the row with success. */
  predicate GoesOn(log: Log, attempts: seq<Attempt>) {
    && (forall j :: 0 <= j < |log.tries| ==> Advances(log.tries[j]))
    && (forall k :: 0 <= k < |attempts| ==> attempts[k].mark != Some(P.Done))
  }

  /** How a job over these directories ends: all but the last directory tried were full; it
      succeeds exactly when the last run did, by its ready mark, and else fails as that did. */
  predicate Ends(r: JobResult, dirs: seq<string>, log: Log, attempts: seq<Attempt>) {
    && (dirs != [] ==> log.tries != []) && InTurn(log.tries)
    && (r.JobDone? <==> log.tries != [] && log.tries[|log.tries| - 1].RunDone?)
    && (r.JobDone? <==> attempts != [] && attempts[|attempts| - 1].mark == Some(P.Done))
    && (forall k :: 0 <= k < |attempts| - 1 ==> attempts[k].mark != Some(P.Done))
    && (r.JobFailed? ==> log.tries != [] && FailsAs(r.failure, dirs, log.tries))
    && !r.MediaMissing?
  }

  /** A run in a workspace adds its attempt, and succeeds exactly by its ready mark. */
  predicate Noted(t: Try, before: seq<Attempt>, after: seq<Attempt>) {
    if t.NoWorkspace? then after == before
    else
      && |after| == |before| + 1 && after[..|before|] == before
      && (t.RunDone? <==> after[|before|].mark == Some(P.Done))
  }

  lemma NextTurn(dirs: seq<string>, log: Log, attempts: seq<Attempt>, logNow: Log, attemptsNow: seq<Attempt>, t: Try)
    requires GoesOn(log, attempts) && logNow.tries == log.tries + [t] && Noted(t, attempts, attemptsNow)
    ensures Advances(t) ==> GoesOn(logNow, attemptsNow)
    ensures t.RunDone? ==> Ends(JobDone, dirs, logNow, attemptsNow)
    ensures !t.RunDone? && (|logNow.tries| == |dirs| || !t.failure.noSpace) ==>
      Ends(JobFailed(t.failure), dirs, logNow, attemptsNow)
  {
    assert forall k :: 0 <= k < |attempts| ==> attemptsNow[k] == attemptsNow[..|attempts|][k] == attempts[k];
  }

  predicate FailsAs(failure: Failure, dirs: seq<string>, tries: seq<Try>)
    requires tries != []
  {
    var t := tries[|tries| - 1];
    !t.RunDone? && failure == t.failure && (|tries| == |dirs| || !failure.noSpace)
  }

  lemma NoWorkspaceLogged(dirs: seq<string>, plans: nat -> Plan, log: Log, failure: Failure)
    requires LogOk(dirs, plans, log) && |log.tries| < |dirs|
    ensures LogOk(dirs, plans,
      log.(steps := log.steps + [NotMade(dirs[|log.tries|])], tries := log.tries + [NoWorkspace(failure)]))
  {
    StepsOfPrefix(dirs, log.tries, log.tries + [NoWorkspace(failure)], |log.tries|);
  }

  lemma RunLogged(dirs: seq<string>, plans: nat -> Plan, log: Log, t: Try, made: nat)
    requires LogOk(dirs, plans, log) && |log.tries| < |dirs| && !t.NoWorkspace?
    requires made <= MAX_ATTEMPTS * (2 + |plans(|log.tries|).files|)
    ensures var dir := dirs[|log.tries|];
      var steps := log.steps + [Made(dir)] + [Ran(dir)] + [Removed(dir)];
      LogOk(dirs, plans, Log(log.calls + made, steps, log.tries + [t]))
  {
    StepsOfPrefix(dirs, log.tries, log.tries + [t], |log.tries|);
    var dir := dirs[|log.tries|];
    assert log.steps + [Made(dir)] + [Ran(dir)] + [Removed(dir)] == log.steps + StepsOf(dir, t);
  }

  lemma OneMoreAttempt(rows: Rows, id: string, attempts: seq<Attempt>, a: Attempt)
    ensures AfterAttempts(rows, id, attempts + [a]) == MarkRows(AfterAttempts(rows, id, attempts), id, a)
    ensures Stored(attempts + [a]) == Stored(attempts) + a.put
    ensures Marks(attempts + [a]) == Marks(attempts) + if a.mark.Some? then 1 else 0
  {
    assert (attempts + [a])[..|attempts|] == attempts;
  }

  lemma MarkKeepsRow(rows: Rows, id: string, owner: string, a: Attempt)
    requires StillThere(rows, id, owner)
    ensures StillThere(MarkRows(rows, id, a), id, owner)
  {
  }

  predicate StillThere(rows: Rows, id: string, owner: string) { Live(rows, id) && rows[id].owner == owner }

  predicate AttemptsOk(owner: string, id: string, attempts: seq<Attempt>) {
    forall k :: 0 <= k < |attempts| ==> AttemptOk(owner, id, attempts[k])
  }

  function HlsKeys(owner: string, id: string, files: seq<string>): set<string> {
    set f | f in files :: HlsKey(owner, id, f)
  }

  lemma HlsKeysOf(owner: string, id: string, files: seq<string>)
    ensures P.Due(owner, id, FileSet(files)) == {PreviewKey(owner, id)} + HlsKeys(owner, id, files)
  {
  }
}
