/** The media lifecycle as one concurrent protocol over the media table, the bucket and
    the job queue. Requests, workers and sweepers are processes; one step is one row
    statement, one object put, one listed page, one batch delete or one queue operation,
    and any process may take the next step. */
module MediaProtocol {
  import opened Text
  import opened Paths
  import opened KeyLayout
  import opened MediaTable
  import opened ObjectStore

  datatype Upload = Upload(id: string, owner: string, name: string)

  /** Where a process stands between two of its steps. */
  datatype Proc =
    // InitUpload: the URL is signed before the row exists and released after it
    | InitSigned(upload: Upload)
    | InitCreated(upload: Upload)
    // CompleteUpload
    | CompleteRead(id: string, storageKey: string)
    | CompleteHeaded(id: string, size: int, mime: string)
    | CompleteUploaded(id: string)
    | CompleteMarked(id: string)
    | CompleteRejected(id: string)
    // the transcoder worker; `due` are the keys this run has to upload (the preview and
    // every output file), `put` those it has uploaded
    | WorkerIdle
    | WorkerTook(id: string)
    | WorkerRunning(id: string, owner: string, due: set<string>, put: set<string>)
    | WorkerUploaded(id: string, owner: string, due: set<string>)
    | WorkerFailing(id: string)
    // DeleteMedia; `pending` is the batch being collected
    | DeleteRead(id: string, owner: string)
    | DeletePurging(id: string, prefix: string, pending: set<string>)
    | DeletePurged(id: string)
    // RunOnce
    | SweepListing(refs: seq<Option<MediaRef>>)
    | SweepChecked(found: map<string, string>, checked: set<string>, existing: set<string>)
    | SweepPurging(found: map<string, string>, checked: set<string>, existing: set<string>, orphan: string,
                   batch: set<string>)

  datatype State = State(
    rows: Rows,
    objects: set<string>,
    urls: set<Upload>,          // upload URLs handed to clients
    queue: seq<string>,
    capacity: nat,
    procs: map<nat, Proc>,
    foreign: set<string>,       // ids of objects that were in the bucket before any row
    purged: set<string>,        // keys a DeleteMedia has deleted, and no upload put back since
    outputs: map<string, set<string>>, // per media, the keys due in the run that last marked it ready
    lost: set<string>,          // ids whose job one of the writes in `Strands` let go
    accepted: seq<string>,      // every job ever queued, in order
    taken: seq<string>)         // every job ever taken by a worker, in order

  /** How a statement ends: done, refused by a fault, or applied although a fault was
      reported. */
  datatype Write = Done | Refused | AppliedAnyway

  datatype InitAct =
    | StartInit(upload: Upload)
    | CreateRow(title: string, size: int, mime: string, url: string)
    | ReleaseUrl

  datatype CompleteAct =
    | StartComplete(id: string, owner: string)
    | HeadFound(size: int, mime: string)
    | MarkUploaded(w: Write)
    | MarkProcessing(w: Write)
    | EnqueueJob
    | MarkRejected(w: Write)

  datatype WorkAct =
    | StartWorker
    | TakeJob
    | WorkerRead(files: set<string>)
    | RetryWorkspace(files: set<string>)
    | PutOutput(file: string)
    | PutPreview
    | FinishUpload
    | MarkReady(w: Write, url: string, preview: Option<string>, duration: int, retry: Option<set<string>>)
    | WorkerFail
    | MarkFailed(w: Write)

  datatype DeleteAct =
    | StartDelete(id: string, owner: string)
    | BeginPurge
    | PurgeList(keys: set<string>)
    | PurgeFlush
    | EndPurge
    | SoftDeleteRow(w: Write, at: int)

  datatype SweepAct =
    | StartSweep
    | SweepSee(key: string)
    | EndListing
    | SweepCheck(ids: set<string>)
    | PickOrphan(orphan: string)
    | SweepList(keys: set<string>)
    | SweepFlush
    | EndOrphan

  datatype Action =
    | Init(p: nat, init: InitAct)
    | Complete(p: nat, complete: CompleteAct)
    | Work(p: nat, work: WorkAct)
    | Delete(p: nat, delete: DeleteAct)
    | Sweep(p: nat, sweep: SweepAct)
    | ClientPut(upload: Upload)
    | Abandon(p: nat)

  // ---- steps ---------------------------------------------------------------------

  predicate At(s: State, p: nat) { p in s.procs }

  function Move(s: State, p: nat, q: Proc): State { s.(procs := s.procs[p := q]) }

  function Leave(s: State, p: nat): State { s.(procs := s.procs - {p}) }

  /** An upload of an object. */
  function Put(s: State, key: string): State { s.(objects := s.objects + {key}, purged := s.purged - {key}) }

  /** A batch delete of a DeleteMedia. */
  function Purge(s: State, keys: set<string>): State { s.(objects := s.objects - keys, purged := s.purged + keys) }

  function Written(s: State, op: RowOp, w: Write): State {
    if w == Refused then s else s.(rows := Apply(s.rows, op))
  }

  function Lose(s: State, id: string, lost: bool): State {
    if lost then s.(lost := s.lost + {id}) else s
  }

  /** What a run with these output files has to upload. */
  function Due(owner: string, id: string, files: set<string>): set<string> {
    {PreviewKey(owner, id)} + set f | f in files :: HlsKey(owner, id, f)
  }

  /** A successful ffmpeg run leaves plain files, the manifest among them. */
  predicate Outputs(files: set<string>) { "index.m3u8" in files && forall f :: f in files ==> FileName(f) }

  function Trims(keys: set<string>): set<string> { set k | k in keys && TrimSpace(k) != "" :: TrimSpace(k) }

  predicate AllBelow(keys: set<string>, prefix: string) { forall k :: k in keys ==> prefix <= k }

  function UploadKey(u: Upload): string { OriginalKey(u.owner, u.id, u.name) }

  /** The points where an error makes the code return without another write. */
  predicate MayAbandon(q: Proc) {
    q.InitSigned? || q.InitCreated? || q.CompleteRead? || q.CompleteHeaded? || q.CompleteUploaded? || q.DeleteRead?
    || q.DeletePurging? || q.DeletePurged? || q.SweepListing? || q.SweepChecked? || q.SweepPurging?
  }

  predicate CanInit(s: State, p: nat, a: InitAct) {
    match a
    case StartInit(u) => !At(s, p) && Component(u.id) && Component(u.owner) && u.id !in s.foreign
    case CreateRow(_, _, _, _) => At(s, p) && s.procs[p].InitSigned?
    case ReleaseUrl => At(s, p) && s.procs[p].InitCreated?
  }

  function DoInit(s: State, p: nat, a: InitAct): State
    requires CanInit(s, p, a)
  {
    match a
    case StartInit(u) => Move(s, p, InitSigned(u))
    case CreateRow(title, size, mime, url) =>
      var u := s.procs[p].upload;
      if u.id in s.rows then Leave(s, p)
      else
        var row := MediaRow(u.owner, title, u.name, UploadKey(u), Uploading, size, mime, url, None, None, None);
        Move(Written(s, RowOp.Create(u.id, row), Done), p, InitCreated(u))
    case ReleaseUrl => Leave(s.(urls := s.urls + {s.procs[p].upload}), p)
  }

  predicate CanComplete(s: State, p: nat, a: CompleteAct) {
    match a
    case StartComplete(id, owner) => !At(s, p) && Live(s.rows, id) && s.rows[id].owner == owner
    case HeadFound(size, _) => At(s, p) && s.procs[p].CompleteRead? && s.procs[p].storageKey in s.objects && size > 0
    case MarkUploaded(_) => At(s, p) && s.procs[p].CompleteHeaded?
    case MarkProcessing(_) => At(s, p) && s.procs[p].CompleteUploaded?
    case EnqueueJob => At(s, p) && s.procs[p].CompleteMarked?
    case MarkRejected(_) => At(s, p) && s.procs[p].CompleteRejected?
  }

  function DoComplete(s: State, p: nat, a: CompleteAct): State
    requires CanComplete(s, p, a)
  {
    match a
    case StartComplete(id, _) => Move(s, p, CompleteRead(id, s.rows[id].storageKey))
    case HeadFound(size, mime) => Move(s, p, CompleteHeaded(s.procs[p].id, size, mime))
    case MarkUploaded(w) =>
      var CompleteHeaded(id, size, mime) := s.procs[p];
      var s' := Written(s, SetUploadState(id, Uploaded, size, mime), w);
      if w == Done && Live(s.rows, id) then Move(s', p, CompleteUploaded(id)) else Leave(s', p)
    case MarkProcessing(w) =>
      var id := s.procs[p].id;
      var s' := Lose(Written(s, SetStatus(id, Processing), w), id, w == AppliedAnyway);
      if w == Done && Live(s.rows, id) then Move(s', p, CompleteMarked(id)) else Leave(s', p)
    case EnqueueJob =>
      var id := s.procs[p].id;
      var job := TrimSpace(id);
      if job != "" && |s.queue| < s.capacity
      then Leave(s.(queue := s.queue + [job], accepted := s.accepted + [job]), p)
      else Move(s, p, CompleteRejected(id))
    case MarkRejected(w) =>
      var id := s.procs[p].id;
      Leave(Lose(Written(s, SetStatus(id, Failed), w), id, w == Refused), p)
  }

  predicate CanWork(s: State, p: nat, a: WorkAct) {
    match a
    case StartWorker => !At(s, p)
    case TakeJob => At(s, p) && s.procs[p].WorkerIdle? && s.queue != []
    case WorkerRead(files) => At(s, p) && s.procs[p].WorkerTook? && Outputs(files)
    case RetryWorkspace(files) => At(s, p) && s.procs[p].WorkerRunning? && Outputs(files)
    case PutOutput(file) => At(s, p) && s.procs[p].WorkerRunning? && FileName(file)
      && HlsKey(s.procs[p].owner, s.procs[p].id, file) in s.procs[p].due
    case PutPreview => At(s, p) && s.procs[p].WorkerRunning?
    case FinishUpload => At(s, p) && s.procs[p].WorkerRunning? && s.procs[p].put == s.procs[p].due
    case MarkReady(_, _, _, _, retry) =>
      At(s, p) && s.procs[p].WorkerUploaded? && (retry.Some? ==> Outputs(retry.value))
    case WorkerFail => At(s, p) && (s.procs[p].WorkerTook? || s.procs[p].WorkerRunning?)
    case MarkFailed(_) => At(s, p) && s.procs[p].WorkerFailing?
  }

  /** A failed ready mark ends the job, unless its error reads like a full disk: then the
      job starts over in the next workspace. */
  function AfterNotReady(id: string, owner: string, w: Write, retry: Option<set<string>>): Proc {
    if w != Done && retry.Some? then WorkerRunning(id, owner, Due(owner, id, retry.value), {}) else WorkerFailing(id)
  }

  function DoWork(s: State, p: nat, a: WorkAct): State
    requires CanWork(s, p, a)
  {
    match a
    case StartWorker => Move(s, p, WorkerIdle)
    case TakeJob =>
      Move(s.(queue := s.queue[1..], taken := s.taken + [s.queue[0]]), p, WorkerTook(s.queue[0]))
    case WorkerRead(files) =>
      var id := s.procs[p].id;
      if Live(s.rows, id) then Move(s, p, WorkerRunning(id, s.rows[id].owner, Due(s.rows[id].owner, id, files), {}))
      else Move(s, p, WorkerFailing(id))
    case RetryWorkspace(files) =>
      var WorkerRunning(id, owner, _, _) := s.procs[p];
      Move(s, p, WorkerRunning(id, owner, Due(owner, id, files), {}))
    case PutOutput(file) =>
      var WorkerRunning(id, owner, due, put) := s.procs[p];
      Move(Put(s, HlsKey(owner, id, file)), p, WorkerRunning(id, owner, due, put + {HlsKey(owner, id, file)}))
    case PutPreview =>
      var WorkerRunning(id, owner, due, put) := s.procs[p];
      Move(Put(s, PreviewKey(owner, id)), p, WorkerRunning(id, owner, due, put + {PreviewKey(owner, id)}))
    case FinishUpload => Move(s, p, WorkerUploaded(s.procs[p].id, s.procs[p].owner, s.procs[p].due))
    case MarkReady(w, url, preview, duration, retry) =>
      var WorkerUploaded(id, owner, due) := s.procs[p];
      var s1 := if w != Refused && Live(s.rows, id) then s.(outputs := s.outputs[id := due]) else s;
      var s' := Written(s1, SetTranscodeResult(id, url, preview, Some(duration), Ready), w);
      Move(s', p, if w == Done && Live(s.rows, id) then WorkerIdle else AfterNotReady(id, owner, w, retry))
    case WorkerFail => Move(s, p, WorkerFailing(s.procs[p].id))
    case MarkFailed(w) =>
      var id := s.procs[p].id;
      Move(Lose(Written(s, SetStatus(id, Failed), w), id, w == Refused), p, WorkerIdle)
  }

  predicate CanDelete(s: State, p: nat, a: DeleteAct) {
    match a
    case StartDelete(id, owner) => !At(s, p) && Live(s.rows, id) && s.rows[id].owner == owner
    case BeginPurge => At(s, p) && s.procs[p].DeleteRead?
    case PurgeList(keys) =>
      At(s, p) && s.procs[p].DeletePurging? && keys <= s.objects && AllBelow(keys, s.procs[p].prefix)
    case PurgeFlush => At(s, p) && s.procs[p].DeletePurging?
    case EndPurge => At(s, p) && s.procs[p].DeletePurging? && s.procs[p].pending == {}
    case SoftDeleteRow(_, _) => At(s, p) && s.procs[p].DeletePurged?
  }

  function DoDelete(s: State, p: nat, a: DeleteAct): State
    requires CanDelete(s, p, a)
  {
    match a
    case StartDelete(id, owner) => Move(s, p, DeleteRead(id, owner))
    case BeginPurge =>
      var DeleteRead(id, owner) := s.procs[p];
      Move(s, p, DeletePurging(id, MediaPrefix(owner, id), {}))
    case PurgeList(keys) => Move(s, p, s.procs[p].(pending := s.procs[p].pending + Trims(keys)))
    case PurgeFlush => Move(Purge(s, s.procs[p].pending), p, s.procs[p].(pending := {}))
    case EndPurge => Move(s, p, DeletePurged(s.procs[p].id))
    case SoftDeleteRow(w, at) => Leave(Written(s, SoftDelete(s.procs[p].id, at), w), p)
  }

  predicate CanSweep(s: State, p: nat, a: SweepAct) {
    match a
    case StartSweep => !At(s, p)
    case SweepSee(key) => At(s, p) && s.procs[p].SweepListing? && key in s.objects && "users/" <= key
    case EndListing => At(s, p) && s.procs[p].SweepListing?
    case SweepCheck(ids) => At(s, p) && s.procs[p].SweepChecked? && ids <= s.procs[p].found.Keys
    case PickOrphan(id) => At(s, p) && s.procs[p].SweepChecked? && s.procs[p].checked == s.procs[p].found.Keys
      && id in s.procs[p].found && id !in s.procs[p].existing
    case SweepList(keys) => At(s, p) && s.procs[p].SweepPurging? && s.procs[p].orphan in s.procs[p].found
      && keys <= s.objects && AllBelow(keys, s.procs[p].found[s.procs[p].orphan])
    case SweepFlush => At(s, p) && s.procs[p].SweepPurging?
    case EndOrphan => At(s, p) && s.procs[p].SweepPurging?
  }

  function DoSweep(s: State, p: nat, a: SweepAct): State
    requires CanSweep(s, p, a)
  {
    match a
    case StartSweep => Move(s, p, SweepListing([]))
    case SweepSee(key) => Move(s, p, SweepListing(s.procs[p].refs + Refs([key])))
    case EndListing => Move(s, p, SweepChecked(FirstWins(s.procs[p].refs), {}, {}))
    case SweepCheck(ids) =>
      var SweepChecked(found, checked, existing) := s.procs[p];
      Move(s, p, SweepChecked(found, checked + ids, existing + set id | id in ids && Live(s.rows, id)))
    case PickOrphan(id) =>
      var SweepChecked(found, checked, existing) := s.procs[p];
      Move(s, p, SweepPurging(found, checked, existing, id, {}))
    case SweepList(keys) => Move(s, p, s.procs[p].(batch := s.procs[p].batch + Trims(keys)))
    case SweepFlush => Move(s.(objects := s.objects - s.procs[p].batch), p, s.procs[p].(batch := {}))
    case EndOrphan => Move(s, p, SweepChecked(s.procs[p].found, s.procs[p].checked, s.procs[p].existing))
  }

  predicate Enabled(s: State, a: Action) {
    match a
    case Init(p, x) => CanInit(s, p, x)
    case Complete(p, x) => CanComplete(s, p, x)
    case Work(p, x) => CanWork(s, p, x)
    case Delete(p, x) => CanDelete(s, p, x)
    case Sweep(p, x) => CanSweep(s, p, x)
    case ClientPut(u) => u in s.urls
    case Abandon(p) => At(s, p) && MayAbandon(s.procs[p])
  }

  function Do(s: State, a: Action): State
    requires Enabled(s, a)
  {
    match a
    case Init(p, x) => DoInit(s, p, x)
    case Complete(p, x) => DoComplete(s, p, x)
    case Work(p, x) => DoWork(s, p, x)
    case Delete(p, x) => DoDelete(s, p, x)
    case Sweep(p, x) => DoSweep(s, p, x)
    case ClientPut(u) => Put(s, UploadKey(u))
    case Abandon(p) => Leave(s, p)
  }

  // ---- runs ----------------------------------------------------------------------

  /** A fresh database over any bucket of canonical keys. */
  ghost predicate Initial(s: State) {
    && s.rows == map[] && s.urls == {} && s.queue == [] && s.procs == map[]
    && s.purged == {} && s.lost == {} && s.outputs == map[] && s.accepted == [] && s.taken == []
    && forall k :: k in s.objects ==> Canonical(k) && KeyIdIn(k, s.foreign)
  }

  predicate KeyIdIn(k: string, ids: set<string>) {
    var ref := ExtractMediaPrefix(k);
    ref.Some? ==> ref.value.id in ids
  }

  predicate Legal(s: State, run: seq<Action>)
    decreases |run|
  {
    run == [] || (Enabled(s, run[0]) && Legal(Do(s, run[0]), run[1..]))
  }

  function Exec(s: State, run: seq<Action>): State
    requires Legal(s, run)
    decreases |run|
  {
    if run == [] then s else Exec(Do(s, run[0]), run[1..])
  }

  /** The state of a run after its first j steps. */
  function StateAt(s: State, run: seq<Action>, j: nat): State
    requires Legal(s, run) && j <= |run|
    decreases j
  {
    if j == 0 then s else StateAt(Do(s, run[0]), run[1..], j - 1)
  }

  // ---- the invariant -------------------------------------------------------------

  /** The object is there, unless a deletion took it or its media is gone. */
  predicate Owed(s: State, id: string, key: string) { key in s.objects || !Live(s.rows, id) || key in s.purged }

  predicate Mine(s: State, id: string, key: string)
    requires id in s.rows
  {
    MediaPrefix(s.rows[id].owner, id) <= key
  }

  predicate HasAll(s: State, id: string, keys: set<string>)
    requires id in s.rows
  {
    forall k :: k in keys ==> Mine(s, id, k) && Owed(s, id, k)
  }

  /** The keys of some run's output. */
  ghost predicate DueOk(s: State, id: string, due: set<string>)
    requires id in s.rows
  {
    exists files :: Outputs(files) && due == Due(s.rows[id].owner, id, files)
  }

  /** What a media marked ready must have: everything its last run had to upload. */
  ghost predicate HasOutputs(s: State, id: string)
    requires id in s.rows
  {
    id in s.outputs && DueOk(s, id, s.outputs[id]) && HasAll(s, id, s.outputs[id])
  }

  predicate Known(s: State, id: string) { id in s.rows || id in s.foreign }

  ghost predicate PrefixOf(id: string, prefix: string) {
    Component(id) && exists owner :: Component(owner) && prefix == MediaPrefix(owner, id)
  }

  ghost predicate RefsOk(s: State, refs: seq<Option<MediaRef>>) {
    forall i :: 0 <= i < |refs| && refs[i].Some? ==>
      Known(s, refs[i].value.id) && PrefixOf(refs[i].value.id, refs[i].value.prefix)
  }

  ghost predicate FoundOk(s: State, found: map<string, string>) {
    forall id :: id in found ==> Known(s, id) && PrefixOf(id, found[id])
  }

  ghost predicate CheckedOk(s: State, found: map<string, string>, checked: set<string>, existing: set<string>) {
    && FoundOk(s, found)
    && checked <= found.Keys
    && forall id :: id in checked && id !in existing ==> !Live(s.rows, id)
  }

  predicate UploadOk(s: State, u: Upload) {
    && Component(u.id) && Component(u.owner) && u.id !in s.foreign
  }

  ghost predicate ProcOk(s: State, q: Proc) {
    match q
    case InitSigned(u) => UploadOk(s, u)
    case InitCreated(u) => UploadOk(s, u) && u.id in s.rows
    case CompleteRead(id, _) => id in s.rows
    case CompleteHeaded(id, _, _) => id in s.rows
    case CompleteUploaded(id) => id in s.rows
    case CompleteMarked(id) => id in s.rows
    case CompleteRejected(id) => id in s.rows
    case WorkerIdle => true
    case WorkerTook(id) => id in s.rows
    case WorkerRunning(id, owner, due, put) =>
      id in s.rows && s.rows[id].owner == owner && DueOk(s, id, due) && HasAll(s, id, put)
    case WorkerUploaded(id, owner, due) =>
      id in s.rows && s.rows[id].owner == owner && DueOk(s, id, due) && HasAll(s, id, due)
    case WorkerFailing(id) => id in s.rows
    case DeleteRead(id, owner) => id in s.rows && s.rows[id].owner == owner
    case DeletePurging(id, prefix, pending) =>
      id in s.rows && prefix == MediaPrefix(s.rows[id].owner, id) && AllBelow(pending, prefix)
    case DeletePurged(id) => id in s.rows
    case SweepListing(refs) => RefsOk(s, refs)
    case SweepChecked(found, checked, existing) => CheckedOk(s, found, checked, existing)
    case SweepPurging(found, checked, existing, orphan, batch) =>
      && CheckedOk(s, found, checked, existing)
      && orphan in found && !Live(s.rows, orphan) && AllBelow(batch, found[orphan])
  }

  ghost predicate ObjectsOk(s: State) {
    s.objects !! s.purged && forall k :: k in s.objects ==> Canonical(k) && KeyIdIn(k, s.rows.Keys + s.foreign)
  }

  predicate RowsOk(s: State) {
    forall id :: id in s.rows ==> Component(id) && Component(s.rows[id].owner) && id !in s.foreign
  }

  predicate UrlsOk(s: State) {
    forall u :: u in s.urls ==> UploadOk(s, u) && u.id in s.rows
  }

  ghost predicate ProcsOk(s: State) {
    forall p :: p in s.procs ==> ProcOk(s, s.procs[p])
  }

  ghost predicate ReadyOk(s: State) {
    forall id :: Live(s.rows, id) && s.rows[id].status == Ready ==> HasOutputs(s, id)
  }

  /** The processes that answer for a media being marked as processing. */
  predicate Holds(q: Proc, id: string) {
    match q
    case CompleteMarked(i) => i == id
    case CompleteRejected(i) => i == id
    case WorkerTook(i) => i == id
    case WorkerRunning(i, _, _, _) => i == id
    case WorkerUploaded(i, _, _) => i == id
    case WorkerFailing(i) => i == id
    case _ => false
  }

  /** The job is queued, or someone holds it. */
  predicate Cared(s: State, id: string) {
    id in s.queue || exists p :: p in s.procs && Holds(s.procs[p], id)
  }

  ghost predicate Attended(s: State, id: string) { id in s.lost || Cared(s, id) }

  ghost predicate JobsOk(s: State) {
    forall id :: Live(s.rows, id) && s.rows[id].status == Processing ==> Attended(s, id)
  }

  predicate QueueOk(s: State) {
    && |s.queue| <= s.capacity && s.accepted == s.taken + s.queue
    && forall i :: 0 <= i < |s.queue| ==> s.queue[i] in s.rows
  }

  ghost predicate Inv(s: State) {
    ObjectsOk(s) && RowsOk(s) && UrlsOk(s) && ProcsOk(s) && ReadyOk(s) && JobsOk(s) && QueueOk(s)
  }
}
