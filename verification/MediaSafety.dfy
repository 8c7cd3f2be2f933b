/** What holds in every reachable state of the media protocol. */
module MediaSafety {
  import opened Text
  import opened Paths
  import opened KeyLayout
  import opened MediaTable
  import opened ObjectStore
  import opened MediaProtocol

  // ---- frames ----------------------------------------------------------------------

  /** What any step leaves alone, from the point of view of the processes that did not
      take it. */
  ghost predicate Calm(s: State, s': State) {
    && Evolves(s.rows, s'.rows)
    && s'.foreign == s.foreign && s'.capacity == s.capacity
    && s.lost <= s'.lost
    && (forall id :: id in s'.rows ==> id !in s.foreign)
    && (forall id, k :: id in s.rows && Mine(s, id, k) && Owed(s, id, k) ==> Owed(s', id, k))
  }

  /** Only process p moved. */
  ghost predicate OnlyMoves(s: State, s': State, p: nat) {
    forall q :: q != p ==> (q in s'.procs <==> q in s.procs) && (q in s.procs ==> s'.procs[q] == s.procs[q])
  }

  /** An id that is known and not live stays that way: the heart of sweeper safety. */
  lemma DeadStaysDead(s: State, s': State, id: string)
    requires Calm(s, s') && Known(s, id) && !Live(s.rows, id)
    ensures Known(s', id) && !Live(s'.rows, id)
  {
  }

  lemma CalmFound(s: State, s': State, found: map<string, string>)
    requires Calm(s, s') && FoundOk(s, found)
    ensures FoundOk(s', found)
  {
  }

  lemma CalmChecked(s: State, s': State, found: map<string, string>, checked: set<string>, existing: set<string>)
    requires Calm(s, s') && CheckedOk(s, found, checked, existing)
    ensures CheckedOk(s', found, checked, existing)
  {
    CalmFound(s, s', found);
    forall id | id in checked && id !in existing ensures !Live(s'.rows, id) {
      DeadStaysDead(s, s', id);
    }
  }

  lemma CalmSweep(s: State, s': State, q: Proc)
    requires Calm(s, s') && ProcOk(s, q) && (q.SweepListing? || q.SweepChecked? || q.SweepPurging?)
    ensures ProcOk(s', q)
  {
    match q
    case SweepListing(refs) =>
    case SweepChecked(found, checked, existing) => CalmChecked(s, s', found, checked, existing);
    case SweepPurging(found, checked, existing, orphan, _) =>
      CalmChecked(s, s', found, checked, existing);
      DeadStaysDead(s, s', orphan);
  }

  lemma CalmAll(s: State, s': State, id: string, keys: set<string>)
    requires Calm(s, s') && id in s.rows && HasAll(s, id, keys)
    ensures HasAll(s', id, keys)
  {
    forall k | k in keys ensures Mine(s', id, k) && Owed(s', id, k) { assert Mine(s, id, k); }
  }

  lemma CalmOutputs(s: State, s': State, id: string)
    requires Calm(s, s') && s'.outputs == s.outputs && id in s.rows && HasOutputs(s, id)
    ensures HasOutputs(s', id)
  {
    CalmAll(s, s', id, s.outputs[id]);
    CalmDue(s, s', id, s.outputs[id]);
  }

  lemma CalmDue(s: State, s': State, id: string, due: set<string>)
    requires Evolves(s.rows, s'.rows) && id in s.rows && DueOk(s, id, due)
    ensures DueOk(s', id, due)
  {
    var files :| Outputs(files) && due == Due(s.rows[id].owner, id, files);
    assert due == Due(s'.rows[id].owner, id, files);
  }

  lemma CalmWorker(s: State, s': State, q: Proc)
    requires Calm(s, s') && ProcOk(s, q) && (q.WorkerRunning? || q.WorkerUploaded?)
    ensures ProcOk(s', q)
  {
    CalmDue(s, s', q.id, q.due);
    CalmAll(s, s', q.id, if q.WorkerRunning? then q.put else q.due);
  }

  /** What a process relies on survives the steps of all the others. */
  lemma CalmProc(s: State, s': State, q: Proc)
    requires Calm(s, s') && ProcOk(s, q)
    ensures ProcOk(s', q)
  {
    if q.SweepListing? || q.SweepChecked? || q.SweepPurging? { CalmSweep(s, s', q); }
    if q.WorkerRunning? || q.WorkerUploaded? { CalmWorker(s, s', q); }
  }

  lemma ProcsStayOk(s: State, s': State, p: nat)
    requires ProcsOk(s) && Calm(s, s') && OnlyMoves(s, s', p)
    requires p in s'.procs ==> ProcOk(s', s'.procs[p])
    ensures ProcsOk(s')
  {
    forall q | q in s'.procs ensures ProcOk(s', s'.procs[q]) {
      if q != p { CalmProc(s, s', s.procs[q]); }
    }
  }

  /** Keys below the prefix of one media are not those of another. */
  lemma KeyElsewhere(owner: string, id: string, key: string, o: string, i: string, removed: set<string>)
    requires Component(owner) && Component(id) && Component(o) && Component(i)
    requires AllBelow(removed, MediaPrefix(o, i)) && MediaPrefix(owner, id) <= key && i != id
    ensures key !in removed
  {
    if key in removed { PrefixesDisjoint(owner, id, o, i, key); }
  }

  /** A batch delete below one media's prefix keeps every object that is still owed,
      provided a deletion of that media makes it, or the media has no live row. */
  lemma FlushKeepsOwed(s: State, s': State, o: string, i: string, removed: set<string>)
    requires RowsOk(s) && Component(o) && Component(i)
    requires AllBelow(removed, MediaPrefix(o, i)) && (removed <= s'.purged || !Live(s.rows, i))
    requires s'.rows == s.rows && s.purged <= s'.purged && s'.objects == s.objects - removed
    ensures forall id, k :: id in s.rows && Mine(s, id, k) && Owed(s, id, k) ==> Owed(s', id, k)
  {
    forall id, k | id in s.rows && Mine(s, id, k) && Owed(s, id, k) ensures Owed(s', id, k) {
      if id != i { KeyElsewhere(s.rows[id].owner, id, k, o, i, removed); }
    }
  }

  lemma TrimsBelow(keys: set<string>, o: string, i: string)
    requires Component(o) && Component(i) && AllBelow(keys, MediaPrefix(o, i))
    ensures AllBelow(Trims(keys), MediaPrefix(o, i))
  {
    forall k | k in Trims(keys) ensures MediaPrefix(o, i) <= k {
      var x :| x in keys && TrimSpace(x) == k;
      TrimStaysBelowPrefix(o, i, x);
    }
  }

  lemma SameProcs(s: State, s': State)
    requires ProcsOk(s) && Calm(s, s') && s'.procs == s.procs
    ensures ProcsOk(s')
  {
    forall q | q in s'.procs ensures ProcOk(s', s'.procs[q]) { CalmProc(s, s', s.procs[q]); }
  }

  /** Nobody lets a job go and no row is newly in processing. */
  lemma SameJobs(s: State, s': State)
    requires JobsOk(s) && s'.procs == s.procs && s'.queue == s.queue && s.lost <= s'.lost
    requires forall i :: Live(s'.rows, i) && s'.rows[i].status == Processing ==>
      Live(s.rows, i) && s.rows[i].status == Processing
    ensures JobsOk(s')
  {
    forall i | Live(s'.rows, i) && s'.rows[i].status == Processing ensures Attended(s', i) {
      assert Attended(s, i);
    }
  }

  // ---- kinds of steps --------------------------------------------------------------

  /** What a step must do: keep the invariant and disturb nobody else. */
  ghost predicate Keeps(s: State, s': State) { Inv(s') && Calm(s, s') }

  lemma SameStores(s: State, s': State)
    requires Inv(s) && s'.rows == s.rows && s'.objects == s.objects && s'.urls == s.urls
    requires s'.foreign == s.foreign && s'.capacity == s.capacity && s'.purged == s.purged && s.lost <= s'.lost
    requires s'.outputs == s.outputs
    ensures Calm(s, s') && ObjectsOk(s') && RowsOk(s') && UrlsOk(s') && ReadyOk(s')
  {
    SameCalm(s, s');
    StillReady(s, s');
  }

  lemma SameCalm(s: State, s': State)
    requires ObjectsOk(s) && RowsOk(s) && UrlsOk(s) && s'.rows == s.rows && s'.objects == s.objects && s'.urls == s.urls
    requires s'.foreign == s.foreign && s'.capacity == s.capacity && s'.purged == s.purged && s.lost <= s'.lost
    ensures Calm(s, s') && ObjectsOk(s') && RowsOk(s') && UrlsOk(s')
  {
  }

  /** Rows that were ready before a step that leaves the outputs alone have theirs after. */
  lemma StillReady(s: State, s': State)
    requires Calm(s, s') && ReadyOk(s) && s'.outputs == s.outputs && s'.rows == s.rows
    ensures ReadyOk(s')
  {
    forall id | Live(s'.rows, id) && s'.rows[id].status == Ready ensures HasOutputs(s', id) { CalmOutputs(s, s', id); }
  }

  /** A job stays attended unless the moving process let go of it. */
  lemma StillAttended(s: State, s': State, p: nat, id: string)
    requires Attended(s, id) && OnlyMoves(s, s', p) && s.lost <= s'.lost
    requires id in s.queue || (p in s.procs && Holds(s.procs[p], id)) ==>
      id in s'.queue || id in s'.lost || (p in s'.procs && Holds(s'.procs[p], id))
    ensures Attended(s', id)
  {
    if id !in s.queue && id !in s.lost {
      var q :| q in s.procs && Holds(s.procs[q], id);
      assert q != p ==> q in s'.procs && Holds(s'.procs[q], id);
    }
  }

  /** What p holds, if anything, is also in the queue. */
  ghost predicate LetsGo(s: State, p: nat) {
    p in s.procs ==> forall i :: Holds(s.procs[p], i) ==> i in s.queue
  }

  /** A process moves on without touching a store. */
  lemma MoveKeeps(s: State, p: nat, q: Proc)
    requires Inv(s) && ProcOk(s, q)
    requires p in s.procs ==> forall i :: Holds(s.procs[p], i) ==> Holds(q, i)
    ensures Keeps(s, Move(s, p, q))
  {
    var s' := Move(s, p, q);
    SameStores(s, s');
    CalmProc(s, s', q);
    ProcsStayOk(s, s', p);
    forall i | Live(s'.rows, i) && s'.rows[i].status == Processing ensures Attended(s', i) {
      StillAttended(s, s', p, i);
    }
  }

  /** A process that holds no job, or has queued it, ends. */
  lemma LeaveKeeps(s: State, p: nat)
    requires Inv(s) && LetsGo(s, p)
    ensures Keeps(s, Leave(s, p))
  {
    var s' := Leave(s, p);
    SameStores(s, s');
    ProcsStayOk(s, s', p);
    forall i | Live(s'.rows, i) && s'.rows[i].status == Processing ensures Attended(s', i) {
      StillAttended(s, s', p, i);
    }
  }

  lemma WriteCalm(s: State, op: RowOp, w: Write, s': State)
    requires Inv(s) && !op.Create? && s' == Written(s, op, w)
    ensures Calm(s, s') && s'.rows.Keys == s.rows.Keys
    ensures ObjectsOk(s') && RowsOk(s') && UrlsOk(s') && QueueOk(s')
  {
    StatementEvolves(s.rows, op);
    UpdatesOneRow(s.rows, op);
    EvolvedStores(s, s');
  }

  /** Two tables that differ at most in one row. */
  predicate SameBut(a: Rows, b: Rows, id: string) {
    a.Keys == b.Keys && forall i :: i in a && i != id ==> b[i] == a[i]
  }

  lemma UpdatesOneRow(rows: Rows, op: RowOp)
    requires !op.Create?
    ensures SameBut(rows, Apply(rows, op), op.id)
  {
  }

  lemma EvolvedStores(s: State, s': State)
    requires Inv(s) && Evolves(s.rows, s'.rows) && s'.rows.Keys == s.rows.Keys && s' == s.(rows := s'.rows)
    ensures Calm(s, s') && ObjectsOk(s') && RowsOk(s') && UrlsOk(s') && QueueOk(s')
  {
  }

  /** After one row was written: the marks on all other rows are as before. */
  lemma MarksElsewhere(s: State, s': State, id: string)
    requires ReadyOk(s) && JobsOk(s) && s' == s.(rows := s'.rows) && SameBut(s.rows, s'.rows, id)
    requires Live(s'.rows, id) && s'.rows[id].status == Ready ==>
      (Live(s.rows, id) && s.rows[id].status == Ready) || HasOutputs(s', id)
    requires Calm(s, s')
    ensures ReadyOk(s')
    ensures forall i :: i != id && Live(s'.rows, i) && s'.rows[i].status == Processing ==> Attended(s', i)
  {
    forall i | Live(s'.rows, i) && s'.rows[i].status == Ready ensures HasOutputs(s', i) {
      if Live(s.rows, i) && s.rows[i].status == Ready { CalmOutputs(s, s', i); }
    }
    forall i | i != id && Live(s'.rows, i) && s'.rows[i].status == Processing ensures Attended(s', i) {
      assert Attended(s, i);
    }
  }

  lemma RowWritten(s: State, op: RowOp, w: Write, s': State)
    requires Inv(s) && !op.Create? && s' == Written(s, op, w)
    requires Live(s'.rows, op.id) && s'.rows[op.id].status == Ready ==>
      (Live(s.rows, op.id) && s.rows[op.id].status == Ready) || HasOutputs(s', op.id)
    ensures Calm(s, s') && ObjectsOk(s') && RowsOk(s') && UrlsOk(s') && QueueOk(s') && ReadyOk(s')
    ensures forall i :: i != op.id && Live(s'.rows, i) && s'.rows[i].status == Processing ==> Attended(s', i)
  {
    WriteCalm(s, op, w, s');
    StatementEvolves(s.rows, op);
    UpdatesOneRow(s.rows, op);
    MarksElsewhere(s, s', op.id);
  }

  /** The state after a write, a note that its job is let go (`blame`) and the move or exit of the writer. */
  function Settled(s: State, p: nat, op: RowOp, w: Write, blame: bool, next: Option<Proc>): State {
    var s1 := Written(s, op, w);
    var s2 := Lose(s1, op.id, blame);
    if next.Some? then Move(s2, p, next.value) else Leave(s2, p)
  }

  /** What a write may leave of the ready mark, and of the processing mark. */
  ghost predicate ReadyAllowed(s: State, s1: State, id: string) {
    Live(s1.rows, id) && s1.rows[id].status == Ready ==>
      (Live(s.rows, id) && s.rows[id].status == Ready) || HasOutputs(s1, id)
  }

  predicate ProcessingAllowed(s: State, s1: State, p: nat, id: string, blame: bool, next: Option<Proc>)
    requires p in s.procs
  {
    Live(s1.rows, id) && s1.rows[id].status == Processing ==>
      || (next.Some? && Holds(next.value, id))
      || blame
      || (Live(s.rows, id) && s.rows[id].status == Processing && !Holds(s.procs[p], id))
  }

  /** A guarded row update by the process that may hold the job of that row. */
  lemma WriteKeeps(s: State, p: nat, op: RowOp, w: Write, blame: bool, next: Option<Proc>)
    requires Inv(s) && !op.Create? && p in s.procs
    requires forall i :: Holds(s.procs[p], i) ==> i == op.id
    requires next.Some? ==> ProcOk(Written(s, op, w), next.value)
    requires ReadyAllowed(s, Written(s, op, w), op.id)
    requires ProcessingAllowed(s, Written(s, op, w), p, op.id, blame, next)
    ensures Keeps(s, Settled(s, p, op, w, blame, next))
  {
    var s1, s' := Written(s, op, w), Settled(s, p, op, w, blame, next);
    RowWritten(s, op, w, s1);
    WrittenKeeps(s, s1, s', p, op.id, blame, next);
  }

  lemma WrittenKeeps(s: State, s1: State, s': State, p: nat, id: string, blame: bool, next: Option<Proc>)
    requires Inv(s) && p in s.procs && (forall i :: Holds(s.procs[p], i) ==> i == id) && s1 == s.(rows := s1.rows)
    requires Calm(s, s1) && ObjectsOk(s1) && RowsOk(s1) && UrlsOk(s1) && QueueOk(s1) && ReadyOk(s1)
    requires forall i :: i != id && Live(s1.rows, i) && s1.rows[i].status == Processing ==> Attended(s1, i)
    requires (next.Some? ==> ProcOk(s1, next.value)) && ProcessingAllowed(s, s1, p, id, blame, next)
    requires s' == if next.Some? then Move(Lose(s1, id, blame), p, next.value) else Leave(Lose(s1, id, blame), p)
    ensures Keeps(s, s')
  {
    SettledRest(s, s1, s', p);
    if next.Some? { SettledProc(s1, s', next.value); }
    ProcsStayOk(s, s', p);
    SettledJobs(s, s1, s', p, id);
  }

  lemma SettledJobs(s: State, s1: State, s': State, p: nat, id: string)
    requires s1 == s.(rows := s1.rows) && s' == s1.(procs := s'.procs, lost := s'.lost)
    requires s.lost <= s'.lost && OnlyMoves(s, s', p) && p in s.procs
    requires forall j :: Holds(s.procs[p], j) ==> j == id
    requires forall i :: i != id && Live(s1.rows, i) && s1.rows[i].status == Processing ==> Attended(s1, i)
    requires Live(s1.rows, id) && s1.rows[id].status == Processing ==>
      id in s'.lost || (p in s'.procs && Holds(s'.procs[p], id)) || (Attended(s, id) && !Holds(s.procs[p], id))
    ensures JobsOk(s')
  {
    forall i | Live(s'.rows, i) && s'.rows[i].status == Processing ensures Attended(s', i) {
      SettledAttended(s, s1, s', p, i, id);
    }
  }

  lemma SettledAttended(s: State, s1: State, s': State, p: nat, i: string, id: string)
    requires s1 == s.(rows := s1.rows) && s' == s1.(procs := s'.procs, lost := s'.lost)
    requires s.lost <= s'.lost && OnlyMoves(s, s', p) && p in s.procs
    requires forall j :: Holds(s.procs[p], j) ==> j == id
    requires i != id ==> Attended(s1, i)
    requires i == id ==>
      i in s'.lost || (p in s'.procs && Holds(s'.procs[p], i)) || (Attended(s, i) && !Holds(s.procs[p], i))
    ensures Attended(s', i)
  {
    if i != id || (Attended(s, i) && !Holds(s.procs[p], i)) {
      assert Attended(s, i);
      StillAttended(s, s', p, i);
    }
  }

  lemma SettledRest(s: State, s1: State, s': State, p: nat)
    requires Calm(s, s1) && s1.procs == s.procs && s1.lost == s.lost
    requires ObjectsOk(s1) && RowsOk(s1) && UrlsOk(s1) && QueueOk(s1) && ReadyOk(s1)
    requires s' == s1.(procs := s'.procs, lost := s'.lost) && s1.lost <= s'.lost && OnlyMoves(s1, s', p)
    ensures Calm(s, s') && OnlyMoves(s, s', p)
    ensures ObjectsOk(s') && RowsOk(s') && UrlsOk(s') && QueueOk(s') && ReadyOk(s')
  {
    SettledCalm(s, s1, s');
    StillReady(s1, s');
  }

  lemma SettledCalm(s: State, s1: State, s': State)
    requires Calm(s, s1) && ObjectsOk(s1) && RowsOk(s1) && UrlsOk(s1) && QueueOk(s1)
    requires s' == s1.(procs := s'.procs, lost := s'.lost) && s1.lost <= s'.lost
    ensures Calm(s, s') && Calm(s1, s') && ObjectsOk(s') && RowsOk(s') && UrlsOk(s') && QueueOk(s')
  {
  }

  lemma SettledProc(s1: State, s': State, q: Proc)
    requires ProcOk(s1, q) && s'.rows == s1.rows && s'.objects == s1.objects
    requires s'.foreign == s1.foreign && s'.purged == s1.purged
    ensures ProcOk(s', q)
  {
  }

  lemma ObjectAdded(s: State, key: string, owner: string, id: string)
    requires ObjectsOk(s) && InMediaDir(key, owner, id) && id in s.rows
    ensures ObjectsOk(Put(s, key))
  {
    InMediaDirParses(key, owner, id);
  }

  /** An object of a media with a row is added, by a client or by a worker. */
  lemma PutKeeps(s: State, key: string, owner: string, id: string)
    requires Inv(s) && InMediaDir(key, owner, id) && id in s.rows
    ensures Keeps(s, Put(s, key))
  {
    ObjectAdded(s, key, owner, id);
    ObjectsChanged(s, Put(s, key));
  }

  lemma ObjectsChanged(s: State, s': State)
    requires Inv(s) && s' == s.(objects := s'.objects, purged := s'.purged) && ObjectsOk(s')
    requires forall id, k :: id in s.rows && Mine(s, id, k) && Owed(s, id, k) ==> Owed(s', id, k)
    ensures Keeps(s, s')
  {
    assert Calm(s, s');
    StillReady(s, s');
    SameProcs(s, s');
    SameJobs(s, s');
  }

  /** A batch of keys of one media is deleted, by a deletion or by a sweep when the media has
      no live row. */
  lemma FlushKeeps(s: State, s': State, o: string, i: string, removed: set<string>)
    requires Inv(s) && Component(o) && Component(i) && AllBelow(removed, MediaPrefix(o, i))
    requires s' == Purge(s, removed) || (s' == s.(objects := s.objects - removed) && !Live(s.rows, i))
    ensures Keeps(s, s')
  {
    FlushKeepsOwed(s, s', o, i, removed);
    ObjectsChanged(s, s');
  }

  lemma KeepsTwice(s: State, s1: State, s2: State)
    requires Keeps(s, s1) && Keeps(s1, s2)
    ensures Keeps(s, s2)
  {
    EvolvesTransitive(s.rows, s1.rows, s2.rows);
  }

  // ---- every step keeps the invariant ----------------------------------------------

  lemma InitKeeps(s: State, p: nat, a: InitAct)
    requires Inv(s) && CanInit(s, p, a)
    ensures Keeps(s, DoInit(s, p, a))
  {
    assert p in s.procs ==> ProcOk(s, s.procs[p]);
    match a
    case StartInit(u) => MoveKeeps(s, p, InitSigned(u));
    case CreateRow(title, size, mime, url) =>
      var u := s.procs[p].upload;
      if u.id in s.rows {
        LeaveKeeps(s, p);
      } else {
        var row := MediaRow(u.owner, title, u.name, UploadKey(u), Uploading, size, mime, url, None, None, None);
        var s1 := s.(rows := s.rows[u.id := row]);
        RowInserted(s, s1, u, row);
        MoveKeeps(s1, p, InitCreated(u));
        KeepsTwice(s, s1, Move(s1, p, InitCreated(u)));
      }
    case ReleaseUrl =>
      var s1 := s.(urls := s.urls + {s.procs[p].upload});
      UrlReleased(s, s1, s.procs[p].upload);
      LeaveKeeps(s1, p);
      KeepsTwice(s, s1, Leave(s1, p));
  }

  lemma RowInserted(s: State, s1: State, u: Upload, row: MediaRow)
    requires Inv(s) && UploadOk(s, u) && u.id !in s.rows
    requires row.owner == u.owner && row.status == Uploading && row.deletedAt.None?
    requires s1 == s.(rows := s.rows[u.id := row])
    ensures Keeps(s, s1)
  {
    InsertCalm(s, s1, u.id);
    MoreRows(s, s1);
    ReadyAsBefore(s, s1);
    SameProcs(s, s1);
    SameJobs(s, s1);
  }

  lemma InsertCalm(s: State, s1: State, id: string)
    requires RowsOk(s) && id !in s.rows && id !in s.foreign && s1 == s.(rows := s1.rows)
    requires s1.rows.Keys == s.rows.Keys + {id} && forall i :: i in s.rows ==> s1.rows[i] == s.rows[i]
    ensures Calm(s, s1)
  {
  }

  lemma MoreRows(s: State, s1: State)
    requires ObjectsOk(s) && s1.objects == s.objects && s1.purged == s.purged && s1.foreign == s.foreign
    requires s.rows.Keys <= s1.rows.Keys
    ensures ObjectsOk(s1)
  {
    forall k | k in s1.objects ensures KeyIdIn(k, s1.rows.Keys + s1.foreign) {
      assert KeyIdIn(k, s.rows.Keys + s.foreign);
    }
  }

  lemma ReadyAsBefore(s: State, s1: State)
    requires ReadyOk(s) && Calm(s, s1) && s1.outputs == s.outputs
    requires forall i :: Live(s1.rows, i) && s1.rows[i].status == Ready ==> Live(s.rows, i) && s.rows[i].status == Ready
    ensures ReadyOk(s1)
  {
    forall i | Live(s1.rows, i) && s1.rows[i].status == Ready ensures HasOutputs(s1, i) { CalmOutputs(s, s1, i); }
  }

  lemma UrlReleased(s: State, s1: State, u: Upload)
    requires Inv(s) && UploadOk(s, u) && u.id in s.rows && s1 == s.(urls := s.urls + {u})
    ensures Keeps(s, s1)
  {
    MoreUrls(s, s1);
    ReadyAsBefore(s, s1);
    SameProcs(s, s1);
    SameJobs(s, s1);
  }

  lemma MoreUrls(s: State, s1: State)
    requires Inv(s) && s1 == s.(urls := s1.urls)
    ensures Calm(s, s1) && ObjectsOk(s1) && RowsOk(s1) && QueueOk(s1)
  {
  }

  lemma CompleteKeeps(s: State, p: nat, a: CompleteAct)
    requires Inv(s) && CanComplete(s, p, a)
    ensures Keeps(s, DoComplete(s, p, a))
  {
    assert p in s.procs ==> ProcOk(s, s.procs[p]);
    match a
    case StartComplete(id, _) => MoveKeeps(s, p, CompleteRead(id, s.rows[id].storageKey));
    case HeadFound(size, mime) => MoveKeeps(s, p, CompleteHeaded(s.procs[p].id, size, mime));
    case MarkUploaded(w) =>
      var CompleteHeaded(id, size, mime) := s.procs[p];
      var next := if w == Done && Live(s.rows, id) then Some(CompleteUploaded(id)) else None;
      WriteKeeps(s, p, SetUploadState(id, Uploaded, size, mime), w, false, next);
    case MarkProcessing(w) =>
      var id := s.procs[p].id;
      var next := if w == Done && Live(s.rows, id) then Some(CompleteMarked(id)) else None;
      WriteKeeps(s, p, SetStatus(id, Processing), w, w == AppliedAnyway, next);
    case EnqueueJob => EnqueueKeeps(s, p);
    case MarkRejected(w) => WriteKeeps(s, p, SetStatus(s.procs[p].id, Failed), w, w == Refused, None);
  }

  lemma EnqueueKeeps(s: State, p: nat)
    requires Inv(s) && CanComplete(s, p, EnqueueJob)
    ensures Keeps(s, DoComplete(s, p, EnqueueJob))
  {
    var id := s.procs[p].id;
    assert ProcOk(s, s.procs[p]);
    TrimSpaceFixed(id);
    if |s.queue| < s.capacity {
      var s1 := s.(queue := s.queue + [id], accepted := s.accepted + [id]);
      QueueChanged(s, s1);
      LeaveKeeps(s1, p);
      KeepsTwice(s, s1, Leave(s1, p));
    } else {
      MoveKeeps(s, p, CompleteRejected(id));
    }
  }

  /** The queue may change as long as every job that leaves it is held. */
  lemma QueueChanged(s: State, s1: State)
    requires Inv(s) && s1 == s.(queue := s1.queue, accepted := s1.accepted, taken := s1.taken) && QueueOk(s1)
    requires forall i :: i in s.queue && i !in s1.queue ==> exists p :: p in s.procs && Holds(s.procs[p], i)
    ensures Keeps(s, s1)
  {
    SameStores(s, s1);
    SameProcs(s, s1);
    forall i | Live(s1.rows, i) && s1.rows[i].status == Processing ensures Attended(s1, i) {
      assert Attended(s, i);
    }
  }

  lemma WorkKeeps(s: State, p: nat, a: WorkAct)
    requires Inv(s) && CanWork(s, p, a)
    ensures Keeps(s, DoWork(s, p, a))
  {
    match a
    case StartWorker => StartWorkerKeeps(s, p);
    case TakeJob => TakeKeeps(s, p);
    case WorkerRead(files) => WorkerReadKeeps(s, p, files);
    case RetryWorkspace(files) => RetryKeeps(s, p, files);
    case PutOutput(file) => PutOutputKeeps(s, p, file);
    case PutPreview => PutPreviewKeeps(s, p);
    case FinishUpload => FinishKeeps(s, p);
    case MarkReady(_, _, _, _, _) => ReadyKeeps(s, p, a);
    case WorkerFail => WorkerFailKeeps(s, p);
    case MarkFailed(w) => FailedKeeps(s, p, w);
  }

  lemma StartWorkerKeeps(s: State, p: nat)
    requires Inv(s) && CanWork(s, p, StartWorker)
    ensures Keeps(s, DoWork(s, p, StartWorker))
  {
    MoveKeeps(s, p, WorkerIdle);
  }

  lemma WorkerFailKeeps(s: State, p: nat)
    requires Inv(s) && CanWork(s, p, WorkerFail)
    ensures Keeps(s, DoWork(s, p, WorkerFail))
  {
    assert ProcOk(s, s.procs[p]);
    MoveKeeps(s, p, WorkerFailing(s.procs[p].id));
  }

  lemma FinishKeeps(s: State, p: nat)
    requires Inv(s) && CanWork(s, p, FinishUpload)
    ensures Keeps(s, DoWork(s, p, FinishUpload))
  {
    var q := s.procs[p];
    assert ProcOk(s, q);
    MoveKeeps(s, p, WorkerUploaded(q.id, q.owner, q.due));
  }

  lemma FailedKeeps(s: State, p: nat, w: Write)
    requires Inv(s) && CanWork(s, p, MarkFailed(w))
    ensures Keeps(s, DoWork(s, p, MarkFailed(w)))
  {
    WriteKeeps(s, p, SetStatus(s.procs[p].id, Failed), w, w == Refused, Some(WorkerIdle));
  }

  /** A run about to start relies on nothing. */
  lemma FreshRun(s: State, id: string, files: set<string>)
    requires id in s.rows && Outputs(files)
    ensures ProcOk(s, WorkerRunning(id, s.rows[id].owner, Due(s.rows[id].owner, id, files), {}))
  {
  }

  lemma WorkerReadKeeps(s: State, p: nat, files: set<string>)
    requires Inv(s) && CanWork(s, p, WorkerRead(files))
    ensures Keeps(s, DoWork(s, p, WorkerRead(files)))
  {
    var id := s.procs[p].id;
    assert ProcOk(s, s.procs[p]);
    FreshRun(s, id, files);
    if Live(s.rows, id) {
      MoveKeeps(s, p, WorkerRunning(id, s.rows[id].owner, Due(s.rows[id].owner, id, files), {}));
    } else {
      MoveKeeps(s, p, WorkerFailing(id));
    }
  }

  lemma RetryKeeps(s: State, p: nat, files: set<string>)
    requires Inv(s) && CanWork(s, p, RetryWorkspace(files))
    ensures Keeps(s, DoWork(s, p, RetryWorkspace(files)))
  {
    var q := s.procs[p];
    assert ProcOk(s, q);
    FreshRun(s, q.id, files);
    MoveKeeps(s, p, WorkerRunning(q.id, q.owner, Due(q.owner, q.id, files), {}));
  }

  /** A worker that has uploaded everything may say so. */
  lemma OutputsNoted(s: State, id: string, due: set<string>)
    requires Inv(s) && id in s.rows && DueOk(s, id, due) && HasAll(s, id, due)
    ensures Keeps(s, s.(outputs := s.outputs[id := due]))
    ensures HasOutputs(s.(outputs := s.outputs[id := due]), id)
  {
    var s1 := s.(outputs := s.outputs[id := due]);
    SameCalm(s, s1);
    NewOutputs(s, s1, id, due);
    SameProcs(s, s1);
    SameJobs(s, s1);
  }

  lemma NewOutputs(s: State, s1: State, id: string, due: set<string>)
    requires ReadyOk(s) && Calm(s, s1) && s1 == s.(outputs := s.outputs[id := due])
    requires id in s.rows && DueOk(s, id, due) && HasAll(s, id, due)
    ensures ReadyOk(s1) && HasOutputs(s1, id)
  {
    CalmAll(s, s1, id, due);
    CalmDue(s, s1, id, due);
    forall i | Live(s1.rows, i) && s1.rows[i].status == Ready ensures HasOutputs(s1, i) {
      if i != id {
        CalmAll(s, s1, i, s.outputs[i]);
        CalmDue(s, s1, i, s.outputs[i]);
      }
    }
  }

  lemma ReadyKeeps(s: State, p: nat, a: WorkAct)
    requires Inv(s) && a.MarkReady? && CanWork(s, p, a)
    ensures Keeps(s, DoWork(s, p, a))
  {
    var WorkerUploaded(id, owner, due) := s.procs[p];
    assert ProcOk(s, s.procs[p]);
    var next := if a.w == Done && Live(s.rows, id) then WorkerIdle else AfterNotReady(id, owner, a.w, a.retry);
    if a.w != Refused && Live(s.rows, id) {
      var s1 := s.(outputs := s.outputs[id := due]);
      OutputsNoted(s, id, due);
      ReadyWritten(s1, p, a, id, owner, next);
      KeepsTwice(s, s1, DoWork(s, p, a));
    } else {
      ReadyWritten(s, p, a, id, owner, next);
    }
  }

  lemma ReadyWritten(s: State, p: nat, a: WorkAct, id: string, owner: string, next: Proc)
    requires Inv(s) && a.MarkReady? && p in s.procs && s.procs[p].WorkerUploaded? && s.procs[p].id == id
    requires id in s.rows && s.rows[id].owner == owner && (a.retry.Some? ==> Outputs(a.retry.value))
    requires next == if a.w == Done && Live(s.rows, id) then WorkerIdle else AfterNotReady(id, owner, a.w, a.retry)
    requires a.w != Refused && Live(s.rows, id) ==> HasOutputs(s, id)
    ensures Keeps(s, Move(Written(s, ReadyOp(id, a), a.w), p, next))
  {
    ReadyPrepared(s, id, owner, a, next);
    WriteKeeps(s, p, ReadyOp(id, a), a.w, false, Some(next));
  }

  lemma ReadyPrepared(s: State, id: string, owner: string, a: WorkAct, next: Proc)
    requires Inv(s) && a.MarkReady? && id in s.rows && s.rows[id].owner == owner
      && (a.retry.Some? ==> Outputs(a.retry.value))
    requires next == WorkerIdle || next == AfterNotReady(id, owner, a.w, a.retry)
    requires a.w != Refused && Live(s.rows, id) ==> HasOutputs(s, id)
    ensures var s1 := Written(s, ReadyOp(id, a), a.w);
      && ProcOk(s1, next)
      && (Live(s1.rows, id) && s1.rows[id].status == Ready ==>
        (Live(s.rows, id) && s.rows[id].status == Ready) || HasOutputs(s1, id))
  {
    var s1 := Written(s, ReadyOp(id, a), a.w);
    WriteCalm(s, ReadyOp(id, a), a.w, s1);
    if a.w != Refused && Live(s.rows, id) { CalmOutputs(s, s1, id); }
    NextOk(s, s1, id, owner, a, next);
  }

  function ReadyOp(id: string, a: WorkAct): RowOp
    requires a.MarkReady?
  {
    SetTranscodeResult(id, a.url, a.preview, Some(a.duration), Ready)
  }

  lemma NextOk(s: State, s1: State, id: string, owner: string, a: WorkAct, next: Proc)
    requires a.MarkReady? && Calm(s, s1) && id in s.rows && s.rows[id].owner == owner
      && (a.retry.Some? ==> Outputs(a.retry.value))
    requires next == WorkerIdle || next == AfterNotReady(id, owner, a.w, a.retry)
    ensures ProcOk(s1, next)
  {
    if a.retry.Some? { FreshRun(s1, id, a.retry.value); }
  }

  lemma TakeKeeps(s: State, p: nat)
    requires Inv(s) && CanWork(s, p, TakeJob)
    ensures Keeps(s, DoWork(s, p, TakeJob))
  {
    var job := s.queue[0];
    var s1 := Move(s, p, WorkerTook(job));
    assert ProcOk(s, WorkerTook(job));
    MoveKeeps(s, p, WorkerTook(job));
    JobTaken(s1, p, job);
    KeepsTwice(s, s1, DoWork(s, p, TakeJob));
  }

  /** The head of the queue may go once somebody holds it. */
  lemma JobTaken(s: State, p: nat, job: string)
    requires Inv(s) && s.queue != [] && s.queue[0] == job && p in s.procs && Holds(s.procs[p], job)
    ensures Keeps(s, s.(queue := s.queue[1..], taken := s.taken + [job]))
  {
    var s2 := s.(queue := s.queue[1..], taken := s.taken + [job]);
    assert [job] + s.queue[1..] == s.queue;
    assert s2.taken + s2.queue == s.taken + s.queue;
    forall i | i in s.queue && i !in s2.queue ensures exists p :: p in s.procs && Holds(s.procs[p], i) {
      assert i == job;
    }
    QueueChanged(s, s2);
  }

  lemma PutPreviewKeeps(s: State, p: nat)
    requires Inv(s) && CanWork(s, p, PutPreview)
    ensures Keeps(s, DoWork(s, p, PutPreview))
  {
    var q := s.procs[p];
    assert ProcOk(s, q);
    BuiltKeysCanonical(q.owner, q.id, "", "index.m3u8");
    OutputKeysRoundTrip(q.owner, q.id, "index.m3u8");
    UploadKeeps(s, p, PreviewKey(q.owner, q.id));
  }

  lemma PutOutputKeeps(s: State, p: nat, file: string)
    requires Inv(s) && CanWork(s, p, PutOutput(file))
    ensures Keeps(s, DoWork(s, p, PutOutput(file)))
  {
    var q := s.procs[p];
    assert ProcOk(s, q);
    BuiltKeysCanonical(q.owner, q.id, "", file);
    OutputKeysRoundTrip(q.owner, q.id, file);
    UploadKeeps(s, p, HlsKey(q.owner, q.id, file));
  }

  /** One upload of a run: the object, then the note of it. */
  lemma UploadKeeps(s: State, p: nat, key: string)
    requires Inv(s) && p in s.procs && s.procs[p].WorkerRunning?
    requires var q := s.procs[p]; InMediaDir(key, q.owner, q.id) && MediaPrefix(q.owner, q.id) <= key
    ensures var q := s.procs[p];
      Keeps(s, Move(Put(s, key), p, q.(put := q.put + {key})))
  {
    var q := s.procs[p];
    assert ProcOk(s, q);
    var s1 := Put(s, key);
    PutKeeps(s, key, q.owner, q.id);
    OutputRecorded(s, s1, q, key);
    MoveKeeps(s1, p, q.(put := q.put + {key}));
    KeepsTwice(s, s1, Move(s1, p, q.(put := q.put + {key})));
  }

  lemma OutputRecorded(s: State, s1: State, q: Proc, key: string)
    requires ProcOk(s, q) && q.WorkerRunning? && Calm(s, s1) && key in s1.objects && MediaPrefix(q.owner, q.id) <= key
    ensures ProcOk(s1, q.(put := q.put + {key}))
  {
    CalmProc(s, s1, q);
  }

  lemma DeleteKeeps(s: State, p: nat, a: DeleteAct)
    requires Inv(s) && CanDelete(s, p, a)
    ensures Keeps(s, DoDelete(s, p, a))
  {
    assert p in s.procs ==> ProcOk(s, s.procs[p]);
    match a
    case StartDelete(id, owner) => MoveKeeps(s, p, DeleteRead(id, owner));
    case BeginPurge => BeginPurgeKeeps(s, p);
    case PurgeList(keys) => PurgeListKeeps(s, p, keys);
    case PurgeFlush => PurgeFlushKeeps(s, p);
    case EndPurge => MoveKeeps(s, p, DeletePurged(s.procs[p].id));
    case SoftDeleteRow(w, at) => WriteKeeps(s, p, SoftDelete(s.procs[p].id, at), w, false, None);
  }

  lemma BeginPurgeKeeps(s: State, p: nat)
    requires Inv(s) && CanDelete(s, p, BeginPurge)
    ensures Keeps(s, DoDelete(s, p, BeginPurge))
  {
    var DeleteRead(id, owner) := s.procs[p];
    assert ProcOk(s, s.procs[p]);
    MoveKeeps(s, p, DeletePurging(id, MediaPrefix(owner, id), {}));
  }

  lemma PurgeListKeeps(s: State, p: nat, keys: set<string>)
    requires Inv(s) && CanDelete(s, p, PurgeList(keys))
    ensures Keeps(s, DoDelete(s, p, PurgeList(keys)))
  {
    var q := s.procs[p];
    assert ProcOk(s, q);
    TrimsBelow(keys, s.rows[q.id].owner, q.id);
    MoveKeeps(s, p, q.(pending := q.pending + Trims(keys)));
  }

  lemma PurgeFlushKeeps(s: State, p: nat)
    requires Inv(s) && CanDelete(s, p, PurgeFlush)
    ensures Keeps(s, DoDelete(s, p, PurgeFlush))
  {
    var q := s.procs[p];
    assert ProcOk(s, q);
    var s1 := Purge(s, q.pending);
    FlushKeeps(s, s1, s.rows[q.id].owner, q.id, q.pending);
    CalmProc(s, s1, q);
    MoveKeeps(s1, p, q.(pending := {}));
    KeepsTwice(s, s1, Move(s1, p, q.(pending := {})));
  }

  /** Every prefix recorded from a listing belongs to a known media and is canonical. */
  lemma RecordedIsFound(s: State, refs: seq<Option<MediaRef>>)
    requires RefsOk(s, refs)
    ensures FoundOk(s, FirstWins(refs))
  {
    var found := FirstWins(refs);
    forall id | id in found ensures Known(s, id) && PrefixOf(id, found[id]) {
      FirstPrefixWins(refs, id);
      var i :| FirstRef(refs, id, i);
    }
  }

  /** A key in the bucket parses to a known media and a canonical prefix. */
  lemma SeenIsFound(s: State, key: string)
    requires ObjectsOk(s) && key in s.objects
    ensures RefsOk(s, Refs([key]))
  {
    TrimSpaceFixed(key);
    TrimSpaceFixed(TrimSpace(key));
    assert Refs([key])[0] == ExtractMediaPrefix(TrimSpace(key));
    if ExtractMediaPrefix(key).Some? {
      var o, i :| InMediaDir(key, o, i);
      InMediaDirParses(key, o, i);
      assert KeyIdIn(key, s.rows.Keys + s.foreign);
    }
  }

  lemma SeeKeeps(s: State, p: nat, key: string)
    requires Inv(s) && CanSweep(s, p, SweepSee(key))
    ensures Keeps(s, DoSweep(s, p, SweepSee(key)))
  {
    var refs := s.procs[p].refs;
    assert ProcOk(s, s.procs[p]);
    SeenIsFound(s, key);
    assert RefsOk(s, refs + Refs([key]));
    MoveKeeps(s, p, SweepListing(refs + Refs([key])));
  }

  lemma EndListingKeeps(s: State, p: nat)
    requires Inv(s) && CanSweep(s, p, EndListing)
    ensures Keeps(s, DoSweep(s, p, EndListing))
  {
    assert ProcOk(s, s.procs[p]);
    RecordedIsFound(s, s.procs[p].refs);
    MoveKeeps(s, p, SweepChecked(FirstWins(s.procs[p].refs), {}, {}));
  }

  lemma OrphanOwner(s: State, q: Proc) returns (owner: string)
    requires ProcOk(s, q) && q.SweepPurging?
    ensures q.orphan in q.found && Component(owner) && Component(q.orphan)
    ensures q.found[q.orphan] == MediaPrefix(owner, q.orphan)
    ensures !Live(s.rows, q.orphan) && AllBelow(q.batch, MediaPrefix(owner, q.orphan))
  {
    assert PrefixOf(q.orphan, q.found[q.orphan]);
    owner :| Component(owner) && q.found[q.orphan] == MediaPrefix(owner, q.orphan);
  }

  lemma NewBatch(s: State, q: Proc, batch: set<string>)
    requires ProcOk(s, q) && q.SweepPurging? && AllBelow(batch, q.found[q.orphan])
    ensures ProcOk(s, q.(batch := batch))
  {
  }

  lemma SweepFlushKeeps(s: State, p: nat)
    requires Inv(s) && CanSweep(s, p, SweepFlush)
    ensures Keeps(s, DoSweep(s, p, SweepFlush))
  {
    var q := s.procs[p];
    assert ProcOk(s, q);
    var owner := OrphanOwner(s, q);
    var s1 := s.(objects := s.objects - q.batch);
    FlushKeeps(s, s1, owner, q.orphan, q.batch);
    assert ProcOk(s1, q.(batch := {})) by {
      CalmProc(s, s1, q);
      NewBatch(s1, q, {});
    }
    MoveKeeps(s1, p, q.(batch := {}));
    KeepsTwice(s, s1, Move(s1, p, q.(batch := {})));
  }

  lemma SweepListKeeps(s: State, p: nat, keys: set<string>)
    requires Inv(s) && CanSweep(s, p, SweepList(keys))
    ensures Keeps(s, DoSweep(s, p, SweepList(keys)))
  {
    var q := s.procs[p];
    assert ProcOk(s, q);
    assert ProcOk(s, q.(batch := q.batch + Trims(keys))) by {
      var owner := OrphanOwner(s, q);
      TrimsBelow(keys, owner, q.orphan);
      NewBatch(s, q, q.batch + Trims(keys));
    }
    MoveKeeps(s, p, q.(batch := q.batch + Trims(keys)));
  }

  lemma SweepCheckKeeps(s: State, p: nat, ids: set<string>)
    requires Inv(s) && CanSweep(s, p, SweepCheck(ids))
    ensures Keeps(s, DoSweep(s, p, SweepCheck(ids)))
  {
    assert ProcOk(s, s.procs[p]);
    var SweepChecked(found, checked, existing) := s.procs[p];
    var live := set id | id in ids && Live(s.rows, id);
    assert CheckedOk(s, found, checked + ids, existing + live);
    MoveKeeps(s, p, SweepChecked(found, checked + ids, existing + live));
  }

  lemma PickKeeps(s: State, p: nat, id: string)
    requires Inv(s) && CanSweep(s, p, PickOrphan(id))
    ensures Keeps(s, DoSweep(s, p, PickOrphan(id)))
  {
    assert ProcOk(s, s.procs[p]);
    var SweepChecked(found, checked, existing) := s.procs[p];
    MoveKeeps(s, p, SweepPurging(found, checked, existing, id, {}));
  }

  lemma EndOrphanKeeps(s: State, p: nat)
    requires Inv(s) && CanSweep(s, p, EndOrphan)
    ensures Keeps(s, DoSweep(s, p, EndOrphan))
  {
    assert ProcOk(s, s.procs[p]);
    MoveKeeps(s, p, SweepChecked(s.procs[p].found, s.procs[p].checked, s.procs[p].existing));
  }

  lemma SweepKeeps(s: State, p: nat, a: SweepAct)
    requires Inv(s) && CanSweep(s, p, a)
    ensures Keeps(s, DoSweep(s, p, a))
  {
    assert p in s.procs ==> ProcOk(s, s.procs[p]);
    match a
    case StartSweep => MoveKeeps(s, p, SweepListing([]));
    case SweepSee(key) => SeeKeeps(s, p, key);
    case EndListing => EndListingKeeps(s, p);
    case SweepCheck(ids) => SweepCheckKeeps(s, p, ids);
    case PickOrphan(id) => PickKeeps(s, p, id);
    case SweepList(keys) => SweepListKeeps(s, p, keys);
    case SweepFlush => SweepFlushKeeps(s, p);
    case EndOrphan => EndOrphanKeeps(s, p);
  }

  /** Every step of every process keeps the invariant and disturbs no other process. */
  lemma StepKeeps(s: State, a: Action)
    requires Inv(s) && Enabled(s, a)
    ensures Keeps(s, Do(s, a))
  {
    match a
    case Init(p, x) => InitKeeps(s, p, x);
    case Complete(p, x) => CompleteKeeps(s, p, x);
    case Work(p, x) => WorkKeeps(s, p, x);
    case Delete(p, x) => DeleteKeeps(s, p, x);
    case Sweep(p, x) => SweepKeeps(s, p, x);
    case ClientPut(u) =>
      BuiltKeysCanonical(u.owner, u.id, u.name, "index.m3u8");
      PutKeeps(s, UploadKey(u), u.owner, u.id);
    case Abandon(p) => LeaveKeeps(s, p);
  }

  lemma InitialOk(s: State)
    requires Initial(s)
    ensures Inv(s)
  {
    forall k | k in s.objects ensures KeyIdIn(k, s.rows.Keys + s.foreign) {
      assert KeyIdIn(k, s.foreign);
    }
  }

  lemma {:induction false} RunKeeps(s: State, run: seq<Action>)
    requires Inv(s) && Legal(s, run)
    ensures Inv(Exec(s, run)) && Evolves(s.rows, Exec(s, run).rows) && Exec(s, run).foreign == s.foreign
    decreases |run|
  {
    if run != [] {
      StepKeeps(s, run[0]);
      RunKeeps(Do(s, run[0]), run[1..]);
      EvolvesTransitive(s.rows, Do(s, run[0]).rows, Exec(s, run).rows);
    }
  }

  // ---- main results ----------------------------------------------------------------

  /** Sweeper safety under every interleaving: a key that a sweep deletes names a media
      without a live row, and that media has no live row in any later state either. */
  lemma SweeperSafety(s0: State, run: seq<Action>, p: nat, a: SweepAct, later: seq<Action>, k: string)
    requires Initial(s0) && Legal(s0, run)
    requires CanSweep(Exec(s0, run), p, a)
    requires k in Exec(s0, run).objects && k !in DoSweep(Exec(s0, run), p, a).objects
    requires Legal(DoSweep(Exec(s0, run), p, a), later)
    ensures ExtractMediaPrefix(k).Some?
    ensures var id := ExtractMediaPrefix(k).value.id;
      !Live(Exec(s0, run).rows, id) && !Live(Exec(DoSweep(Exec(s0, run), p, a), later).rows, id)
  {
    InitialOk(s0);
    RunKeeps(s0, run);
    var s := Exec(s0, run);
    var s' := DoSweep(s, p, a);
    StepKeeps(s, Sweep(p, a));
    RunKeeps(s', later);
    SweptKey(s, p, a, k);
    var id := ExtractMediaPrefix(k).value.id;
    assert KeyIdIn(k, s.rows.Keys + s.foreign);
    StaysDead(s', later, id);
  }

  lemma SweptKey(s: State, p: nat, a: SweepAct, k: string)
    requires Inv(s) && CanSweep(s, p, a) && k in s.objects && k !in DoSweep(s, p, a).objects
    ensures ExtractMediaPrefix(k).Some? && !Live(s.rows, ExtractMediaPrefix(k).value.id)
    ensures DoSweep(s, p, a).rows == s.rows && DoSweep(s, p, a).foreign == s.foreign
  {
    var q := s.procs[p];
    assert ProcOk(s, q);
    var owner := OrphanOwner(s, q);
    ExtractBelowPrefix(owner, q.orphan, k);
  }

  lemma StaysDead(s: State, later: seq<Action>, id: string)
    requires Inv(s) && Legal(s, later) && Known(s, id) && !Live(s.rows, id)
    ensures !Live(Exec(s, later).rows, id)
  {
    RunKeeps(s, later);
    if id !in s.rows { assert id !in Exec(s, later).rows; }
  }

  lemma {:induction false} RunConcat(s: State, a: seq<Action>, b: seq<Action>)
    requires Legal(s, a) && Legal(Exec(s, a), b)
    ensures Legal(s, a + b) && Exec(s, a + b) == Exec(Exec(s, a), b)
    decreases |a|
  {
    if a == [] {
      assert a + b == b;
    } else {
      assert (a + b)[1..] == a[1..] + b;
      RunConcat(Do(s, a[0]), a[1..], b);
    }
  }

  lemma {:induction false} RunAppend(s: State, run: seq<Action>, a: Action)
    requires Legal(s, run) && Enabled(Exec(s, run), a)
    ensures Legal(s, run + [a]) && Exec(s, run + [a]) == Do(Exec(s, run), a)
    decreases |run|
  {
    if run == [] {
      assert run + [a] == [a];
      assert [a][1..] == [];
    } else {
      assert (run + [a])[1..] == run[1..] + [a];
      RunAppend(Do(s, run[0]), run[1..], a);
    }
  }

  lemma NextState(s: State, run: seq<Action>, j: nat)
    requires Legal(s, run) && j < |run|
    ensures StateAt(s, run, j + 1) == StateAt(Do(s, run[0]), run[1..], j)
    ensures Exec(s, run) == Exec(Do(s, run[0]), run[1..])
  {
  }

  lemma {:induction false} LastState(s: State, run: seq<Action>)
    requires Legal(s, run)
    ensures StateAt(s, run, |run|) == Exec(s, run)
    decreases |run|
  {
    if run != [] {
      NextState(s, run, |run| - 1);
      LastState(Do(s, run[0]), run[1..]);
    }
  }

  /** The j-th step leads from the j-th state to the next, and the invariant holds there. */
  lemma StepAt(s: State, run: seq<Action>, j: nat)
    requires Inv(s) && Legal(s, run) && j < |run|
    ensures Inv(StateAt(s, run, j)) && Evolves(s.rows, StateAt(s, run, j).rows)
    ensures Enabled(StateAt(s, run, j), run[j]) && StateAt(s, run, j + 1) == Do(StateAt(s, run, j), run[j])
  {
    StateKeeps(s, run, j);
    Successor(s, run, j);
  }

  lemma {:induction false} Successor(s: State, run: seq<Action>, j: nat)
    requires Legal(s, run) && j < |run|
    ensures Enabled(StateAt(s, run, j), run[j]) && StateAt(s, run, j + 1) == Do(StateAt(s, run, j), run[j])
    decreases j
  {
    NextState(s, run, j);
    if j > 0 {
      Successor(Do(s, run[0]), run[1..], j - 1);
      NextState(s, run, j - 1);
    }
  }

  lemma {:induction false} StateKeeps(s: State, run: seq<Action>, j: nat)
    requires Inv(s) && Legal(s, run) && j <= |run|
    ensures Inv(StateAt(s, run, j)) && Evolves(s.rows, StateAt(s, run, j).rows)
    decreases j
  {
    if j > 0 {
      StepKeeps(s, run[0]);
      StateKeeps(Do(s, run[0]), run[1..], j - 1);
      EvolvesTransitive(s.rows, Do(s, run[0]).rows, StateAt(s, run, j).rows);
    }
  }

  /** No stuck job: in every reachable state a live row in processing is queued, held by
      the worker or by a CompleteUpload that has yet to queue or fail it, or one of the
      writes in `Strands` has let it go. */
  lemma NoStuckJob(s0: State, run: seq<Action>, id: string)
    requires Initial(s0) && Legal(s0, run)
    requires var s := Exec(s0, run); Live(s.rows, id) && s.rows[id].status == Processing
    ensures var s := Exec(s0, run); Cared(s, id) || id in s.lost
  {
    InitialOk(s0);
    RunKeeps(s0, run);
    assert Attended(Exec(s0, run), id);
  }

  /** Once the queue is empty and nobody holds a job, nothing is left in processing. */
  lemma QuietMeansSettled(s0: State, run: seq<Action>, id: string)
    requires Initial(s0) && Legal(s0, run)
    requires var s := Exec(s0, run);
      s.queue == [] && s.lost == {} && (forall p, i :: p in s.procs ==> !Holds(s.procs[p], i))
    requires Live(Exec(s0, run).rows, id)
    ensures Exec(s0, run).rows[id].status != Processing
  {
    if Exec(s0, run).rows[id].status == Processing { NoStuckJob(s0, run, id); }
  }

  /** The queue is first in, first out and never over capacity. */
  lemma QueueIsFifo(s0: State, run: seq<Action>)
    requires Initial(s0) && Legal(s0, run)
    ensures var s := Exec(s0, run); |s.queue| <= s.capacity && s.taken <= s.accepted && s.accepted == s.taken + s.queue
  {
    InitialOk(s0);
    RunKeeps(s0, run);
  }

  /** A media soft-deleted at some point keeps its row unchanged in every later state. */
  lemma SoftDeleteIsPermanent(s0: State, run: seq<Action>, later: seq<Action>, id: string)
    requires Initial(s0) && Legal(s0, run) && Legal(Exec(s0, run), later)
    requires id in Exec(s0, run).rows && Exec(s0, run).rows[id].deletedAt.Some?
    ensures id in Exec(Exec(s0, run), later).rows
    ensures Exec(Exec(s0, run), later).rows[id] == Exec(s0, run).rows[id]
  {
    InitialOk(s0);
    RunKeeps(s0, run);
    RunKeeps(Exec(s0, run), later);
  }
}
