/** PlaybackRuns: any number of playback requests, deletions and changes by other services,
    interleaved, over the rows, the bucket and the cache. A lookup that misses reads the row,
    reads and signs the manifest, and stores the entry in three steps. */
module PlaybackRuns {
  import opened Text
  import opened KeyLayout
  import opened Manifest
  import opened MediaTable
  import opened Playback
  import opened History
  import ObjectStore

  // ---- runs of requests --------------------------------------------------------------------

  /** A lookup between its reads and its write: the row it has read, then also the answer it
      has built from it. */
  datatype Flight =
    | RowRead(who: Option<string>, id: string, row: MediaRow)
    | Built(who: Option<string>, id: string, out: Output)

  /** The stores, and the lookups under way. */
  datatype World = World(st: State, flights: map<nat, Flight>)

  /** Requests in any order, with everything the other services do to rows and objects
      between them (only DeleteMedia soft-deletes) and cache entries expiring.
        - A LookupStep is a lookup nothing comes between; a hit and a refusal have one effect
          at most. A lookup that found no entry, or could not read it, may instead go through
          ReadRowStep, BuildStep and StoreStep, or give up on the way (AbandonStep).
        - A DeleteMedia deletes objects (RemoveStep, as often as it flushes a batch), then
          soft-deletes the row (DeleteRowStep), then drops the entry (ExpireStep). It may
          stop after any of these, and anything may come between them. */
  datatype Step =
    | LookupStep(who: Option<string>, id: string, env: Env)
    | ReadRowStep(pid: nat, who: Option<string>, id: string)
    | BuildStep(pid: nat, env: Env)
    | StoreStep(pid: nat, who: Option<string>, id: string, env: Env)
    | AbandonStep(pid: nat)
    | DeleteRowStep(owner: string, id: string, at: int)
    | RowStep(op: RowOp)
    | PutStep(key: string, body: string)
    | RemoveStep(keys: set<string>)
    | ExpireStep(key: string)

  predicate Asks(who: Option<string>, id: string) { (who.Some? ==> TrimSpace(who.value) != "") && TrimSpace(id) != "" }

  predicate MayRead(s: State, who: Option<string>, id: string) {
    Asks(who, id) && Live(s.rows, id) && (who.Some? ==> s.rows[id].owner == who.value)
  }

  /** What a lookup builds from the row it has read. */
  ghost function BuildReply(w: World, pid: nat, env: Env, ttl: int): Reply
    requires pid in w.flights && w.flights[pid].RowRead?
  {
    Build(w.st, w.flights[pid].id, w.flights[pid].row, env, ttl)
  }

  ghost predicate Enabled(w: World, a: Step, ttl: int) {
    match a
    case ReadRowStep(pid, who, id) => pid !in w.flights && MayRead(w.st, who, id)
    case BuildStep(pid, env) => pid in w.flights && w.flights[pid].RowRead? && BuildReply(w, pid, env, ttl).Ok?
    case StoreStep(pid, who, id, _) =>
      pid in w.flights && w.flights[pid].Built? && w.flights[pid].who == who && w.flights[pid].id == id
    case DeleteRowStep(owner, id, _) => MayDelete(w.st, owner, id)
    case RowStep(op) => !op.SoftDelete?
    case _ => true
  }

  /** What the end of a lookup writes: the entry and a manifest token. */
  function Written(redis: Redis, id: string, out: Output, env: Env): Redis {
    WithToken(if env.setFails then redis else redis[PlaybackCacheKey(id) := RecordEntry(RecordOf(out))], env, id)
  }

  ghost function Do(w: World, a: Step, ttl: int): World
    requires Enabled(w, a, ttl)
  {
    match a
    case LookupStep(who, id, env) => w.(st := Lookup(w.st, who, id, env, ttl).0)
    case ReadRowStep(pid, who, id) => w.(flights := w.flights[pid := RowRead(who, id, w.st.rows[id])])
    case BuildStep(pid, env) =>
      w.(flights := w.flights[pid := Built(w.flights[pid].who, w.flights[pid].id, BuildReply(w, pid, env, ttl).out)])
    case StoreStep(pid, _, id, env) =>
      World(w.st.(redis := Written(w.st.redis, id, w.flights[pid].out, env)), w.flights - {pid})
    case AbandonStep(pid) => w.(flights := w.flights - {pid})
    case DeleteRowStep(_, id, at) => w.(st := w.st.(rows := Apply(w.st.rows, SoftDelete(id, at))))
    case RowStep(op) => w.(st := w.st.(rows := Apply(w.st.rows, op)))
    case PutStep(key, body) => w.(st := w.st.(objects := w.st.objects + {key}, bodies := w.st.bodies[key := body]))
    case RemoveStep(keys) => w.(st := w.st.(objects := w.st.objects - keys))
    case ExpireStep(key) => w.(st := w.st.(redis := w.st.redis - {key}))
  }

  ghost predicate Legal(w: World, run: seq<Step>, ttl: int)
    decreases |run|
  {
    |run| == 0 || (Enabled(w, run[0], ttl) && Legal(Do(w, run[0], ttl), run[1..], ttl))
  }

  ghost function Exec(w: World, run: seq<Step>, ttl: int): World
    requires Legal(w, run, ttl)
    decreases |run|
  {
    if |run| == 0 then w else Exec(Do(w, run[0], ttl), run[1..], ttl)
  }

  /** The world after the first j steps. */
  ghost function WorldAt(w: World, run: seq<Step>, j: nat, ttl: int): World
    requires Legal(w, run, ttl) && j <= |run|
    decreases j
  {
    if j == 0 then w else WorldAt(Do(w, run[0], ttl), run[1..], j - 1, ttl)
  }

  lemma {:induction false} RunFrom(w: World, run: seq<Step>, j: nat, ttl: int)
    requires Legal(w, run, ttl) && j <= |run|
    ensures Legal(WorldAt(w, run, j, ttl), run[j..], ttl)
      && Exec(WorldAt(w, run, j, ttl), run[j..], ttl) == Exec(w, run, ttl)
    decreases j
  {
    if j == 0 {
      assert run[0..] == run;
    } else {
      RunFrom(Do(w, run[0], ttl), run[1..], j - 1, ttl);
      assert run[1..][j - 1..] == run[j..];
    }
  }

  lemma First(w: World, a: Step, rest: seq<Step>, ttl: int)
    requires Enabled(w, a, ttl) && Legal(Do(w, a, ttl), rest, ttl)
    ensures Legal(w, [a] + rest, ttl) && Exec(w, [a] + rest, ttl) == Exec(Do(w, a, ttl), rest, ttl)
  {
    assert ([a] + rest)[1..] == rest;
  }

  /** The reads of a lookup. */
  ghost function AfterReads(w: World, pid: nat, who: Option<string>, id: string, env: Env, ttl: int): World
    requires Live(w.st.rows, id) && Build(w.st, id, w.st.rows[id], env, ttl).Ok?
  {
    w.(flights := w.flights[pid := Built(who, id, Build(w.st, id, w.st.rows[id], env, ttl).out)])
  }

  lemma ReadsThen(w: World, pid: nat, who: Option<string>, id: string, env: Env, ttl: int, rest: seq<Step>)
    requires pid !in w.flights && MayRead(w.st, who, id) && Build(w.st, id, w.st.rows[id], env, ttl).Ok?
    requires Legal(AfterReads(w, pid, who, id, env, ttl), rest, ttl)
    ensures var run := [ReadRowStep(pid, who, id)] + ([BuildStep(pid, env)] + rest);
      Legal(w, run, ttl) && Exec(w, run, ttl) == Exec(AfterReads(w, pid, who, id, env, ttl), rest, ttl)
  {
    var a, b := ReadRowStep(pid, who, id), BuildStep(pid, env);
    var w1 := w.(flights := w.flights[pid := RowRead(who, id, w.st.rows[id])]);
    assert Do(w, a, ttl) == w1;
    var w2 := AfterReads(w, pid, who, id, env, ttl);
    assert BuildReply(w1, pid, env, ttl) == Build(w.st, id, w.st.rows[id], env, ttl);
    assert Do(w1, b, ttl).flights == w2.flights;
    First(w1, b, rest, ttl);
    First(w, a, [b] + rest, ttl);
  }

  /** A lookup that misses and builds its answer reads and writes like this. */
  lemma MissReads(w: World, pid: nat, who: Option<string>, id: string, env: Env, ttl: int)
    requires pid !in w.flights && Hit(w.st.redis, id, env).None? && Lookup(w.st, who, id, env, ttl).1.Ok?
    ensures MayRead(w.st, who, id) && Build(w.st, id, w.st.rows[id], env, ttl).Ok?
    ensures var out := Build(w.st, id, w.st.rows[id], env, ttl).out;
      Lookup(w.st, who, id, env, ttl).0 == w.st.(redis := Written(w.st.redis, id, out, env))
  {
  }

  lemma StoreAfterReads(w: World, pid: nat, who: Option<string>, id: string, env: Env, ttl: int)
    requires pid !in w.flights && Live(w.st.rows, id) && Build(w.st, id, w.st.rows[id], env, ttl).Ok?
    ensures var t, c := AfterReads(w, pid, who, id, env, ttl), StoreStep(pid, who, id, env);
      && Enabled(t, c, ttl)
      && Do(t, c, ttl) ==
         w.(st := w.st.(redis := Written(w.st.redis, id, Build(w.st, id, w.st.rows[id], env, ttl).out, env)))
  {
    assert w.flights[pid := Built(who, id, Build(w.st, id, w.st.rows[id], env, ttl).out)] - {pid} == w.flights;
  }

  /** A lookup that nothing comes between and that builds its answer is its three steps. */
  lemma MissIsThreeSteps(w: World, pid: nat, who: Option<string>, id: string, env: Env, ttl: int)
    requires pid !in w.flights && Hit(w.st.redis, id, env).None? && Lookup(w.st, who, id, env, ttl).1.Ok?
    ensures var run := [ReadRowStep(pid, who, id), BuildStep(pid, env), StoreStep(pid, who, id, env)];
      Legal(w, run, ttl) && Exec(w, run, ttl) == w.(st := Lookup(w.st, who, id, env, ttl).0)
  {
    var c := StoreStep(pid, who, id, env);
    var w2 := AfterReads(w, pid, who, id, env, ttl);
    MissReads(w, pid, who, id, env, ttl);
    StoreAfterReads(w, pid, who, id, env, ttl);
    First(w2, c, [], ttl);
    assert [c] + [] == [c];
    ReadsThen(w, pid, who, id, env, ttl, [c]);
    assert [ReadRowStep(pid, who, id)] + ([BuildStep(pid, env)] + [c]) ==
      [ReadRowStep(pid, who, id), BuildStep(pid, env), c];
  }

  /** A cached playback is that of a media with a row, and says it was ready. */
  ghost predicate RecordsOk(s: State) {
    forall id :: PlaybackCacheKey(id) in s.redis ==>
      && s.redis[PlaybackCacheKey(id)].RecordEntry?
      && s.redis[PlaybackCacheKey(id)].record.mediaID == id
      && s.redis[PlaybackCacheKey(id)].record.status.Ready?
      && id in s.rows && TrimSpace(id) != ""
  }

  ghost predicate TokensOk(s: State) {
    forall t :: ManifestTokenKey(t) in s.redis ==>
      s.redis[ManifestTokenKey(t)].TokenEntry? && s.redis[ManifestTokenKey(t)].mediaID in s.rows
  }

  ghost predicate CacheInv(s: State) { RecordsOk(s) && TokensOk(s) }

  /** A lookup under way is one of a media with a row, by its owner or by nobody in
      particular, and has found it ready if it has built its answer. */
  ghost predicate FlightsOk(w: World) {
    forall pid :: pid in w.flights ==>
      var f := w.flights[pid];
      && f.id in w.st.rows && Asks(f.who, f.id) && (f.who.Some? ==> f.who.value == w.st.rows[f.id].owner)
      && (f.Built? ==> f.out.mediaID == f.id && f.out.status.Ready?)
  }

  ghost predicate Inv(w: World) { CacheInv(w.st) && FlightsOk(w) }

  lemma LookupKeeps(s: State, owner: Option<string>, id: string, env: Env, ttl: int)
    requires CacheInv(s)
    ensures CacheInv(Lookup(s, owner, id, env, ttl).0)
  {
    var hit := Hit(s.redis, id, env);
    if hit.Some? {
      TokenKeeps(s, env, hit.value.mediaID);
    } else if Lookup(s, owner, id, env, ttl).1.Ok? && !env.setFails {
      var record := RecordOf(Build(s, id, s.rows[id], env, ttl).out);
      RecordKeeps(s, id, record);
      TokenKeeps(s.(redis := s.redis[PlaybackCacheKey(id) := RecordEntry(record)]), env, id);
    } else {
      TokenKeeps(s, env, id);
    }
  }

  lemma TokenKeeps(s: State, env: Env, id: string)
    requires CacheInv(s)
    ensures id in s.rows ==> CacheInv(s.(redis := WithToken(s.redis, env, id)))
  {
    var t := s.(redis := WithToken(s.redis, env, id));
    forall i | PlaybackCacheKey(i) in t.redis
      ensures PlaybackCacheKey(i) in s.redis && t.redis[PlaybackCacheKey(i)] == s.redis[PlaybackCacheKey(i)]
    {
      CacheKeysDiffer(i, env.token);
    }
  }

  lemma RecordKeeps(s: State, id: string, r: Record)
    requires CacheInv(s) && id in s.rows && TrimSpace(id) != "" && r.mediaID == id && r.status.Ready?
    ensures CacheInv(s.(redis := s.redis[PlaybackCacheKey(id) := RecordEntry(r)]))
  {
    var t := s.(redis := s.redis[PlaybackCacheKey(id) := RecordEntry(r)]);
    forall i | PlaybackCacheKey(i) in t.redis && i != id
      ensures PlaybackCacheKey(i) in s.redis && t.redis[PlaybackCacheKey(i)] == s.redis[PlaybackCacheKey(i)]
    {
      CacheKeysDiffer(i, id);
    }
    forall k | ManifestTokenKey(k) in t.redis
      ensures ManifestTokenKey(k) in s.redis && t.redis[ManifestTokenKey(k)] == s.redis[ManifestTokenKey(k)]
    {
      CacheKeysDiffer(id, k);
    }
  }

  lemma StepKeeps(w: World, a: Step, ttl: int)
    requires Inv(w) && Enabled(w, a, ttl)
    ensures Inv(Do(w, a, ttl)) && Evolves(w.st.rows, Do(w, a, ttl).st.rows)
  {
    match a
    case LookupStep(_, _, _) => LookupStepKeeps(w, a, ttl);
    case ReadRowStep(_, _, _) => ReadKeeps(w, a, ttl);
    case BuildStep(_, _) => BuildKeeps(w, a, ttl);
    case StoreStep(_, _, _, _) => StoreKeeps(w, a, ttl);
    case AbandonStep(pid) => AbandonKeeps(w, pid);
    case _ => OtherStepKeeps(w, a, ttl);
  }

  lemma LookupStepKeeps(w: World, a: Step, ttl: int)
    requires Inv(w) && a.LookupStep?
    ensures Inv(Do(w, a, ttl)) && Evolves(w.st.rows, Do(w, a, ttl).st.rows)
  {
    LookupKeeps(w.st, a.who, a.id, a.env, ttl);
    LookupWrites(w.st, a.who, a.id, a.env, ttl);
    WithStores(w, Lookup(w.st, a.who, a.id, a.env, ttl).0);
  }

  /** A statement, a put, a removal or an expiry. */
  lemma OtherStepKeeps(w: World, a: Step, ttl: int)
    requires Inv(w) && Enabled(w, a, ttl)
    requires a.RowStep? || a.DeleteRowStep? || a.PutStep? || a.RemoveStep? || a.ExpireStep?
    ensures Inv(Do(w, a, ttl)) && Evolves(w.st.rows, Do(w, a, ttl).st.rows)
  {
    var t := Do(w, a, ttl).st;
    if a.RowStep? { StatementEvolves(w.st.rows, a.op); }
    if a.DeleteRowStep? { StatementEvolves(w.st.rows, SoftDelete(a.id, a.at)); }
    if a.ExpireStep? { ExpiryKeeps(w.st, a.key); } else { RowsKeep(w.st, t); }
    WithStores(w, t);
  }

  lemma WithStores(w: World, s: State)
    requires Inv(w) && CacheInv(s) && Evolves(w.st.rows, s.rows)
    ensures Inv(w.(st := s))
  {
  }

  lemma ReadKeeps(w: World, a: Step, ttl: int)
    requires FlightsOk(w) && Enabled(w, a, ttl) && a.ReadRowStep?
    ensures FlightsOk(Do(w, a, ttl)) && Do(w, a, ttl).st == w.st
  {
  }

  lemma BuildKeeps(w: World, a: Step, ttl: int)
    requires FlightsOk(w) && Enabled(w, a, ttl) && a.BuildStep?
    ensures FlightsOk(Do(w, a, ttl)) && Do(w, a, ttl).st == w.st
  {
  }

  lemma AbandonKeeps(w: World, pid: nat)
    requires FlightsOk(w)
    ensures FlightsOk(w.(flights := w.flights - {pid}))
  {
  }

  lemma StoreKeeps(w: World, a: Step, ttl: int)
    requires Inv(w) && Enabled(w, a, ttl) && a.StoreStep?
    ensures Inv(Do(w, a, ttl)) && Do(w, a, ttl).st.rows == w.st.rows
  {
    var out := w.flights[a.pid].out;
    WrittenKeeps(w.st, a.id, out, a.env);
    var t := w.st.(redis := Written(w.st.redis, a.id, out, a.env));
    WithStores(w, t);
    AbandonKeeps(w.(st := t), a.pid);
  }

  lemma WrittenKeeps(s: State, id: string, out: Output, env: Env)
    requires CacheInv(s) && id in s.rows && TrimSpace(id) != "" && out.mediaID == id && out.status.Ready?
    ensures CacheInv(s.(redis := Written(s.redis, id, out, env)))
  {
    RecordKeeps(s, id, RecordOf(out));
    TokenKeeps(s, env, id);
    TokenKeeps(s.(redis := s.redis[PlaybackCacheKey(id) := RecordEntry(RecordOf(out))]), env, id);
  }

  lemma ExpiryKeeps(s: State, key: string)
    requires CacheInv(s)
    ensures CacheInv(s.(redis := s.redis - {key}))
  {
  }

  lemma RowsKeep(s: State, t: State)
    requires CacheInv(s) && Evolves(s.rows, t.rows) && t.redis == s.redis
    ensures CacheInv(t)
  {
  }

  lemma {:induction false} RunKeeps(w: World, run: seq<Step>, ttl: int)
    requires Inv(w) && Legal(w, run, ttl)
    ensures Inv(Exec(w, run, ttl)) && Evolves(w.st.rows, Exec(w, run, ttl).st.rows)
    decreases |run|
  {
    if |run| > 0 {
      StepKeeps(w, run[0], ttl);
      RunKeeps(Do(w, run[0], ttl), run[1..], ttl);
      EvolvesTransitive(w.st.rows, Do(w, run[0], ttl).st.rows, Exec(w, run, ttl).st.rows);
    }
  }

  lemma {:induction false} WorldKeeps(w: World, run: seq<Step>, j: nat, ttl: int)
    requires Inv(w) && Legal(w, run, ttl) && j <= |run|
    ensures Inv(WorldAt(w, run, j, ttl))
    decreases j
  {
    if j > 0 {
      StepKeeps(w, run[0], ttl);
      WorldKeeps(Do(w, run[0], ttl), run[1..], j - 1, ttl);
    }
  }

  // ---- when an entry is there ------------------------------------------------------------------

  predicate HasEntry(w: World, id: string) { PlaybackCacheKey(id) in w.st.redis }

  /** A lookup stores an entry: it found none or could not read it, and built its answer. */
  ghost predicate Stores(w: World, a: Step, id: string, ttl: int) {
    || (a.StoreStep? && a.id == id && !a.env.setFails)
    || (a.LookupStep? && a.id == id && !a.env.setFails && Hit(w.st.redis, id, a.env).None?
        && Lookup(w.st, a.who, id, a.env, ttl).1.Ok?)
  }

  /** The entry of a media expires, or a deletion drops it. */
  predicate Drops(a: Step, id: string) { a.ExpireStep? && a.key == PlaybackCacheKey(id) }

  ghost function StoresIn(w: World, run: seq<Step>, id: string, ttl: int): nat -> bool
    requires Legal(w, run, ttl)
  {
    (i: nat) => i < |run| && Stores(WorldAt(w, run, i, ttl), run[i], id, ttl)
  }

  function DropsIn(run: seq<Step>, id: string): nat -> bool { (i: nat) => i < |run| && Drops(run[i], id) }

  /** The j-th step stored an entry, and none after it dropped it. */
  ghost predicate StoredAt(w: World, run: seq<Step>, j: nat, id: string, ttl: int)
    requires Legal(w, run, ttl)
  {
    Since(StoresIn(w, run, id, ttl), DropsIn(run, id), j, |run|)
  }

  ghost predicate Stored(w: World, run: seq<Step>, id: string, ttl: int)
    requires Legal(w, run, ttl)
  {
    Lasting(StoresIn(w, run, id, ttl), DropsIn(run, id), |run|)
  }

  lemma EntryStep(w: World, a: Step, id: string, ttl: int)
    requires Inv(w) && Enabled(w, a, ttl)
    ensures HasEntry(Do(w, a, ttl), id) <==> Stores(w, a, id, ttl) || (HasEntry(w, id) && !Drops(a, id))
  {
    match a
    case LookupStep(_, _, _) => LookupEntry(w, a, id, ttl);
    case StoreStep(pid, _, other, env) => WrittenEntry(w.st.redis, other, w.flights[pid].out, env, id);
    case _ =>
  }

  lemma WrittenEntry(redis: Redis, other: string, out: Output, env: Env, id: string)
    ensures PlaybackCacheKey(id) in Written(redis, other, out, env) <==>
      PlaybackCacheKey(id) in redis || (other == id && !env.setFails)
    ensures other == id && !env.setFails ==>
      Written(redis, other, out, env)[PlaybackCacheKey(id)] == RecordEntry(RecordOf(out))
    ensures PlaybackCacheKey(id) in redis && !(other == id && !env.setFails) ==>
      Written(redis, other, out, env)[PlaybackCacheKey(id)] == redis[PlaybackCacheKey(id)]
  {
    CacheKeysDiffer(id, other);
    CacheKeysDiffer(id, env.token);
  }

  /** What a lookup writes: a token only, or what a store writes. */
  lemma LookupWrites(s: State, who: Option<string>, id: string, env: Env, ttl: int)
    ensures var (t, reply) := Lookup(s, who, id, env, ttl);
      t.redis ==
        if !reply.Ok? then s.redis
        else if Hit(s.redis, id, env).Some? then WithToken(s.redis, env, Hit(s.redis, id, env).value.mediaID)
        else Written(s.redis, id, reply.out, env)
    ensures Lookup(s, who, id, env, ttl).0.rows == s.rows
  {
  }

  lemma LookupEntry(w: World, a: Step, id: string, ttl: int)
    requires a.LookupStep?
    ensures PlaybackCacheKey(id) in Lookup(w.st, a.who, a.id, a.env, ttl).0.redis <==>
      Stores(w, a, id, ttl) || HasEntry(w, id)
    ensures HasEntry(w, id) && !Stores(w, a, id, ttl) ==>
      Lookup(w.st, a.who, a.id, a.env, ttl).0.redis[PlaybackCacheKey(id)] == w.st.redis[PlaybackCacheKey(id)]
  {
    LookupWrites(w.st, a.who, a.id, a.env, ttl);
    var reply := Lookup(w.st, a.who, a.id, a.env, ttl).1;
    if reply.Ok? { WrittenEntry(w.st.redis, a.id, reply.out, a.env, id); }
    CacheKeysDiffer(id, a.env.token);
  }

  /** An entry is there at the end of a run exactly when it was at the start or some step
      stored it, and no step since has dropped it. */
  lemma EntryIff(w: World, run: seq<Step>, id: string, ttl: int)
    requires Inv(w) && Legal(w, run, ttl)
    ensures HasEntry(Exec(w, run, ttl), id) <==>
      (HasEntry(w, id) && Never(DropsIn(run, id), |run|)) || Stored(w, run, id, ttl)
  {
    var on, sets, clears := EntriesIn(w, run, id, ttl), StoresIn(w, run, id, ttl), DropsIn(run, id);
    forall i: nat | i < |run| ensures Follows(on, sets, clears, i) { EntryAt(w, run, i, id, ttl); }
    SetAndNotCleared(on, sets, clears, |run|);
    FirstAndLast(w, run, id, ttl);
  }

  ghost function EntriesIn(w: World, run: seq<Step>, id: string, ttl: int): nat -> bool
    requires Legal(w, run, ttl)
  {
    (i: nat) => i <= |run| && HasEntry(WorldAt(w, run, i, ttl), id)
  }

  lemma FirstAndLast(w: World, run: seq<Step>, id: string, ttl: int)
    requires Legal(w, run, ttl)
    ensures EntriesIn(w, run, id, ttl)(0) <==> HasEntry(w, id)
    ensures EntriesIn(w, run, id, ttl)(|run|) <==> HasEntry(Exec(w, run, ttl), id)
  {
    WorldAtEnd(w, run, ttl);
  }

  lemma EntryAt(w: World, run: seq<Step>, i: nat, id: string, ttl: int)
    requires Inv(w) && Legal(w, run, ttl) && i < |run|
    ensures Follows(EntriesIn(w, run, id, ttl), StoresIn(w, run, id, ttl), DropsIn(run, id), i)
  {
    StepAt(w, run, i, ttl);
    EntryStep(WorldAt(w, run, i, ttl), run[i], id, ttl);
  }

  lemma StepAt(w: World, run: seq<Step>, j: nat, ttl: int)
    requires Inv(w) && Legal(w, run, ttl) && j < |run|
    ensures Inv(WorldAt(w, run, j, ttl)) && Enabled(WorldAt(w, run, j, ttl), run[j], ttl)
    ensures WorldAt(w, run, j + 1, ttl) == Do(WorldAt(w, run, j, ttl), run[j], ttl)
    decreases j
  {
    if j > 0 {
      StepKeeps(w, run[0], ttl);
      StepAt(Do(w, run[0], ttl), run[1..], j - 1, ttl);
      assert run[1..][j - 1] == run[j];
    }
  }

  predicate Initial(w: World) { w.st.redis == map[] && w.flights == map[] }

  /** Who stores: a lookup by the owner of the row, or one that names nobody. */
  lemma StoredByOwner(w: World, a: Step, id: string, ttl: int)
    requires Inv(w) && Enabled(w, a, ttl) && Stores(w, a, id, ttl)
    ensures id in w.st.rows && (a.who.Some? ==> a.who.value == w.st.rows[id].owner)
    ensures a.LookupStep? ==> Live(w.st.rows, id) && w.st.rows[id].status.Ready?
  {
  }

  /** ... and still owns it at the end of the run. */
  lemma StoredAtByOwner(w: World, run: seq<Step>, j: nat, id: string, ttl: int)
    requires Inv(w) && Legal(w, run, ttl) && StoredAt(w, run, j, id, ttl)
    ensures id in Exec(w, run, ttl).st.rows
    ensures run[j].who.Some? ==> run[j].who.value == Exec(w, run, ttl).st.rows[id].owner
  {
    var t := WorldAt(w, run, j, ttl);
    WorldKeeps(w, run, j, ttl);
    RunFrom(w, run, j, ttl);
    StoredByOwner(t, run[j], id, ttl);
    RunKeeps(t, run[j..], ttl);
  }

  /** When somebody who may not see the media is served: in every run from an empty cache,
      exactly when the owner, or a lookup that names nobody, has stored an entry, nothing has
      taken it away since, and the cache answers. (`who` does not own the row, or no live
      row is left.) */
  lemma StrangerServedIff(w0: World, run: seq<Step>, ttl: int, who: string, id: string, env: Env)
    requires Initial(w0) && Legal(w0, run, ttl) && Asks(Some(who), id)
    requires var end := Exec(w0, run, ttl).st; Live(end.rows, id) ==> end.rows[id].owner != who
    ensures Lookup(Exec(w0, run, ttl).st, Some(who), id, env, ttl).1.Ok? <==>
      !env.getFails && Stored(w0, run, id, ttl)
    ensures forall j: nat :: StoredAt(w0, run, j, id, ttl) && run[j].who.Some? ==>
      id in Exec(w0, run, ttl).st.rows && run[j].who.value == Exec(w0, run, ttl).st.rows[id].owner
  {
    RunKeeps(w0, run, ttl);
    EntryIff(w0, run, id, ttl);
    forall j: nat | StoredAt(w0, run, j, id, ttl) && run[j].who.Some?
      ensures id in Exec(w0, run, ttl).st.rows && run[j].who.value == Exec(w0, run, ttl).st.rows[id].owner
    {
      StoredAtByOwner(w0, run, j, id, ttl);
    }
  }

  /** When a reply says ready although the row does not: under the same condition. */
  lemma StaleReadyIff(w0: World, run: seq<Step>, ttl: int, who: Option<string>, id: string, env: Env)
    requires Initial(w0) && Legal(w0, run, ttl) && Asks(who, id)
    requires var end := Exec(w0, run, ttl).st; Live(end.rows, id) ==> !end.rows[id].status.Ready?
    ensures var reply := Lookup(Exec(w0, run, ttl).st, who, id, env, ttl).1;
      && (reply.Ok? ==> reply.out.status.Ready?)
      && (reply.Ok? <==> !env.getFails && Stored(w0, run, id, ttl))
  {
    RunKeeps(w0, run, ttl);
    EntryIff(w0, run, id, ttl);
  }

  // ---- deletion ------------------------------------------------------------------------------

  /** A deletion soft-deletes the row of the media. */
  predicate Kills(a: Step, id: string) { a.DeleteRowStep? && a.id == id }

  predicate Dead(w: World, id: string) { id in w.st.rows && !Live(w.st.rows, id) }

  /** An entry has no live row exactly when a store whose entry nothing has dropped since and
      a deletion of the row both occurred. If the deletion came first, the lookup had read the
      row before it and stored after it. */
  lemma EntryWithoutRowIff(w0: World, run: seq<Step>, ttl: int, id: string)
    requires Initial(w0) && Legal(w0, run, ttl)
    ensures HasEntry(Exec(w0, run, ttl), id) && !Live(Exec(w0, run, ttl).st.rows, id) <==>
      exists j: nat, m: nat :: StoredAt(w0, run, j, id, ttl) && m < |run| && Kills(run[m], id)
    ensures forall j: nat, m: nat :: StoredAt(w0, run, j, id, ttl) && m < |run| && Kills(run[m], id) ==>
      j != m && (m < j ==> run[j].StoreStep?)
  {
    RunKeeps(w0, run, ttl);
    EntryIff(w0, run, id, ttl);
    if HasEntry(Exec(w0, run, ttl), id) && !Live(Exec(w0, run, ttl).st.rows, id) {
      var m := NeedsKill(w0, run, ttl, id);
    }
    forall j: nat, m: nat | StoredAt(w0, run, j, id, ttl) && m < |run| && Kills(run[m], id)
      ensures Dead(Exec(w0, run, ttl), id)
      ensures j != m && (m < j ==> run[j].StoreStep?)
    {
      DeadFrom(w0, run, m, |run|, ttl, id);
      WorldAtEnd(w0, run, ttl);
      if m < j {
        DeadFrom(w0, run, m, j, ttl, id);
        WorldKeeps(w0, run, j, ttl);
        RunFrom(w0, run, j, ttl);
        StoredByOwner(WorldAt(w0, run, j, ttl), run[j], id, ttl);
      }
    }
  }

  lemma {:induction false} WorldAtEnd(w: World, run: seq<Step>, ttl: int)
    requires Legal(w, run, ttl)
    ensures WorldAt(w, run, |run|, ttl) == Exec(w, run, ttl)
    decreases |run|
  {
    if |run| > 0 { WorldAtEnd(Do(w, run[0], ttl), run[1..], ttl); }
  }

  predicate UnderWay(w: World, pid: nat, id: string) { pid in w.flights && w.flights[pid].id == id }

  /** No entry and no lookup under way without a live row. */
  ghost predicate Covered(w: World, id: string) {
    Live(w.st.rows, id) || (!HasEntry(w, id) && forall pid :: !UnderWay(w, pid, id))
  }

  lemma CoveredStep(w: World, a: Step, ttl: int, id: string)
    requires Inv(w) && Enabled(w, a, ttl) && Covered(w, id) && !Kills(a, id)
    ensures Covered(Do(w, a, ttl), id)
  {
    EntryStep(w, a, id, ttl);
    forall pid | UnderWay(Do(w, a, ttl), pid, id) ensures UnderWay(w, pid, id) || Live(w.st.rows, id) {
      FlightStep(w, a, ttl, pid, id);
    }
    if Live(w.st.rows, id) { LiveStays(w, a, ttl, id); }
    else { DeadStoresNothing(w, a, ttl, id); }
  }

  lemma LiveStays(w: World, a: Step, ttl: int, id: string)
    requires Enabled(w, a, ttl) && Live(w.st.rows, id) && !Kills(a, id)
    ensures Live(Do(w, a, ttl).st.rows, id)
  {
    match a
    case LookupStep(_, _, _) => LookupWrites(w.st, a.who, a.id, a.env, ttl);
    case RowStep(op) => RowStaysLive(w.st.rows, op, id);
    case _ =>
  }

  lemma RowStaysLive(rows: Rows, op: RowOp, id: string)
    requires Live(rows, id) && !op.SoftDelete?
    ensures Live(Apply(rows, op), id)
  {
  }

  lemma DeadStoresNothing(w: World, a: Step, ttl: int, id: string)
    requires Enabled(w, a, ttl) && Covered(w, id) && !Live(w.st.rows, id)
    ensures !Stores(w, a, id, ttl)
  {
    if a.StoreStep? { assert UnderWay(w, a.pid, a.id); }
  }

  /** A lookup of a media begins only while the row is live. */
  lemma FlightStep(w: World, a: Step, ttl: int, pid: nat, id: string)
    requires Enabled(w, a, ttl) && UnderWay(Do(w, a, ttl), pid, id)
    ensures UnderWay(w, pid, id) || Live(w.st.rows, id)
  {
  }

  lemma {:induction false} NeedsKill(w: World, run: seq<Step>, ttl: int, id: string) returns (m: nat)
    requires Inv(w) && Legal(w, run, ttl) && Covered(w, id) && !Covered(Exec(w, run, ttl), id)
    ensures m < |run| && Kills(run[m], id)
    decreases |run|
  {
    if Kills(run[0], id) { return 0; }
    StepKeeps(w, run[0], ttl);
    CoveredStep(w, run[0], ttl, id);
    m := NeedsKill(Do(w, run[0], ttl), run[1..], ttl, id);
    m := m + 1;
  }

  lemma KillStep(w: World, a: Step, ttl: int, id: string)
    requires Enabled(w, a, ttl) && Kills(a, id)
    ensures Dead(Do(w, a, ttl), id)
  {
  }

  lemma DeadStep(w: World, a: Step, ttl: int, id: string)
    requires Enabled(w, a, ttl) && Dead(w, id)
    ensures Dead(Do(w, a, ttl), id)
  {
    match a
    case LookupStep(_, _, _) => LookupWrites(w.st, a.who, a.id, a.env, ttl);
    case RowStep(op) => StatementEvolves(w.st.rows, op);
    case _ =>
  }

  lemma {:induction false} DeadStays(w: World, run: seq<Step>, j: nat, ttl: int, id: string)
    requires Legal(w, run, ttl) && j <= |run| && Dead(w, id)
    ensures Dead(WorldAt(w, run, j, ttl), id)
    decreases j
  {
    if j > 0 {
      DeadStep(w, run[0], ttl, id);
      DeadStays(Do(w, run[0], ttl), run[1..], j - 1, ttl, id);
    }
  }

  lemma {:induction false} DeadFrom(w: World, run: seq<Step>, m: nat, j: nat, ttl: int, id: string)
    requires Legal(w, run, ttl) && m < j <= |run| && Kills(run[m], id)
    ensures Dead(WorldAt(w, run, j, ttl), id)
    decreases m
  {
    if m == 0 {
      KillStep(w, run[0], ttl, id);
      DeadStays(Do(w, run[0], ttl), run[1..], j - 1, ttl, id);
    } else {
      assert run[1..][m - 1] == run[m];
      DeadFrom(Do(w, run[0], ttl), run[1..], m - 1, j - 1, ttl, id);
    }
  }

  predicate StandsFor(redis: Redis, token: string, id: string) {
    var key := ManifestTokenKey(TrimSpace(token));
    TrimSpace(token) != "" && key in redis && redis[key] == TokenEntry(id)
  }

  /** A deletion that nothing comes between is these steps; one that does not drop the entry
      is all but the last. */
  lemma DeletionIsThreeSteps(w: World, owner: string, id: string, at: int, ttl: int)
    requires MayDelete(w.st, owner, id)
    ensures var run := DeletionSteps(w, owner, id, at);
      && Legal(w, run[..2], ttl) && Exec(w, run[..2], ttl) == w.(st := HalfDeleted(w.st, id, at))
      && Legal(w, run, ttl) && Exec(w, run, ttl) == w.(st := Deleted(w.st, id, at))
  {
    var run := DeletionSteps(w, owner, id, at);
    var w1 := Do(w, run[0], ttl);
    var w2 := Do(w1, run[1], ttl);
    First(w2, run[2], [], ttl);
    First(w1, run[1], [], ttl);
    First(w1, run[1], [run[2]], ttl);
    First(w, run[0], [run[1]], ttl);
    First(w, run[0], [run[1], run[2]], ttl);
    assert [run[2]] + [] == [run[2]] && [run[1]] + [] == [run[1]];
    assert [run[1]] + [run[2]] == [run[1], run[2]];
    assert [run[0]] + [run[1]] == run[..2] && [run[0]] + [run[1], run[2]] == run;
  }

  function DeletionSteps(w: World, owner: string, id: string, at: int): seq<Step>
    requires Live(w.st.rows, id)
  {
    [RemoveStep(ObjectStore.Doomed(w.st.objects, TrimSpace(MediaPrefix(w.st.rows[id].owner, id)))),
     DeleteRowStep(owner, id, at), ExpireStep(PlaybackCacheKey(id))]
  }

  /** From the moment a DeleteMedia has dropped the entry of the row it deleted, in every later
      world: a lookup is served exactly when a lookup of the same media has stored an entry
      since, and such a lookup was under way at that moment. Otherwise nothing is found, by no
      lookup and by no manifest token. */
  lemma DeletionEndsPlayback(w: World, id: string, later: seq<Step>, ttl: int, who: Option<string>, env: Env,
                             token: string)
    requires Inv(w) && Dead(w, id) && !HasEntry(w, id) && Asks(who, id) && Legal(w, later, ttl)
    ensures var end := Exec(w, later, ttl).st;
      && (Lookup(end, who, id, env, ttl).1.Ok? <==> !env.getFails && Stored(w, later, id, ttl))
      && (forall j: nat :: StoredAt(w, later, j, id, ttl) ==> later[j].StoreStep? && UnderWay(w, later[j].pid, id))
      && (!Lookup(end, who, id, env, ttl).1.Ok? ==> Lookup(end, who, id, env, ttl).1 == NotThere)
      && (StandsFor(end.redis, token, id) ==>
        Resolve(end, token, env, ttl) == if env.getFails then CacheFailed else NotThere)
  {
    EntryIff(w, later, id, ttl);
    RunKeeps(w, later, ttl);
    LastDead(w, later, ttl, id);
    DeadIsNotThere(Exec(w, later, ttl), id, ttl, who, env, token);
    forall j: nat | StoredAt(w, later, j, id, ttl) ensures later[j].StoreStep? && UnderWay(w, later[j].pid, id) {
      StoreAfterDeath(w, later, j, ttl, id);
    }
  }

  lemma LastDead(w: World, run: seq<Step>, ttl: int, id: string)
    requires Legal(w, run, ttl) && Dead(w, id)
    ensures Dead(Exec(w, run, ttl), id)
  {
    DeadStays(w, run, |run|, ttl, id);
    WorldAtEnd(w, run, ttl);
  }

  lemma StoreAfterDeath(w: World, run: seq<Step>, j: nat, ttl: int, id: string)
    requires Inv(w) && Legal(w, run, ttl) && Dead(w, id) && StoredAt(w, run, j, id, ttl)
    ensures run[j].StoreStep? && UnderWay(w, run[j].pid, id)
  {
    DeadStays(w, run, j, ttl, id);
    WorldKeeps(w, run, j, ttl);
    RunFrom(w, run, j, ttl);
    StoredByOwner(WorldAt(w, run, j, ttl), run[j], id, ttl);
    WasUnderWay(w, run, j, run[j].pid, ttl, id);
  }

  /** No lookup of a deleted media begins. */
  lemma {:induction false} WasUnderWay(w: World, run: seq<Step>, j: nat, pid: nat, ttl: int, id: string)
    requires Inv(w) && Legal(w, run, ttl) && j <= |run| && Dead(w, id) && UnderWay(WorldAt(w, run, j, ttl), pid, id)
    ensures UnderWay(w, pid, id)
    decreases j
  {
    if j > 0 {
      StepKeeps(w, run[0], ttl);
      WasUnderWay(Do(w, run[0], ttl), run[1..], j - 1, pid, ttl, id);
      FlightStep(w, run[0], ttl, pid, id);
    }
  }

  lemma DeadIsNotThere(w: World, id: string, ttl: int, who: Option<string>, env: Env, token: string)
    requires Inv(w) && Dead(w, id) && Asks(who, id)
    ensures Lookup(w.st, who, id, env, ttl).1.Ok? <==> HasEntry(w, id) && !env.getFails
    ensures !Lookup(w.st, who, id, env, ttl).1.Ok? ==> Lookup(w.st, who, id, env, ttl).1 == NotThere
    ensures StandsFor(w.st.redis, token, id) ==>
      Resolve(w.st, token, env, ttl) == if env.getFails then CacheFailed else NotThere
  {
  }

  /** Such a store can happen wherever a lookup could store: it reads the row and the
      manifest, the owner's deletion succeeds in full, the lookup stores its entry, and from
      then on everybody is served although the row is gone. */
  lemma LateStoreServesDeleted(w: World, pid: nat, first: Option<string>, id: string, env: Env, at: int, ttl: int,
                               who: Option<string>, again: Env)
    requires pid !in w.flights && Stores(w, LookupStep(first, id, env), id, ttl)
    requires TrimSpace(w.st.rows[id].owner) != "" && Asks(who, id) && !again.getFails
    ensures var run := [ReadRowStep(pid, first, id), BuildStep(pid, env)]
                       + (DeletionSteps(w, w.st.rows[id].owner, id, at) + [StoreStep(pid, first, id, env)]);
      && Legal(w, run, ttl) && Dead(Exec(w, run, ttl), id)
      && Lookup(Exec(w, run, ttl).st, who, id, again, ttl).1.Ok?
  {
    var deletion, store := DeletionSteps(w, w.st.rows[id].owner, id, at), StoreStep(pid, first, id, env);
    MissReads(w, pid, first, id, env, ttl);
    StoreAfterReads(w, pid, first, id, env, ttl);
    var t := AfterReads(w, pid, first, id, env, ttl);
    DeleteThenStore(t, w.st.rows[id].owner, at, store, ttl, who, again);
    ReadsFirst(w, pid, first, id, env, ttl, deletion + [store]);
  }

  lemma ReadsFirst(w: World, pid: nat, who: Option<string>, id: string, env: Env, ttl: int, rest: seq<Step>)
    requires pid !in w.flights && MayRead(w.st, who, id) && Build(w.st, id, w.st.rows[id], env, ttl).Ok?
    requires Legal(AfterReads(w, pid, who, id, env, ttl), rest, ttl)
    ensures var run := [ReadRowStep(pid, who, id), BuildStep(pid, env)] + rest;
      Legal(w, run, ttl) && Exec(w, run, ttl) == Exec(AfterReads(w, pid, who, id, env, ttl), rest, ttl)
  {
    ReadsThen(w, pid, who, id, env, ttl, rest);
    assert [ReadRowStep(pid, who, id)] + ([BuildStep(pid, env)] + rest) ==
      [ReadRowStep(pid, who, id), BuildStep(pid, env)] + rest;
  }

  lemma DeleteThenStore(w: World, owner: string, at: int, d: Step, ttl: int, who: Option<string>, again: Env)
    requires d.StoreStep? && Enabled(w, d, ttl) && MayDelete(w.st, owner, d.id)
    requires !d.env.setFails && Asks(who, d.id) && !again.getFails
    ensures var run := DeletionSteps(w, owner, d.id, at) + [d];
      && Legal(w, run, ttl) && Dead(Exec(w, run, ttl), d.id)
      && Lookup(Exec(w, run, ttl).st, who, d.id, again, ttl).1.Ok?
  {
    var t := w.(st := Deleted(w.st, d.id, at));
    DeletionIsThreeSteps(w, owner, d.id, at, ttl);
    assert Dead(t, d.id) && Enabled(t, d, ttl);
    StoreServesDead(t, d, ttl, who, again);
    Concat(w, DeletionSteps(w, owner, d.id, at), [d], ttl);
  }

  lemma StoreServesDead(w: World, d: Step, ttl: int, who: Option<string>, again: Env)
    requires d.StoreStep? && Enabled(w, d, ttl) && Dead(w, d.id)
    requires !d.env.setFails && Asks(who, d.id) && !again.getFails
    ensures Legal(w, [d], ttl) && Dead(Exec(w, [d], ttl), d.id)
    ensures Lookup(Exec(w, [d], ttl).st, who, d.id, again, ttl).1.Ok?
  {
    StoreServes(w, d, ttl, who, again);
    First(w, d, [], ttl);
    assert [d] + [] == [d];
  }

  lemma {:induction false} Concat(w: World, a: seq<Step>, b: seq<Step>, ttl: int)
    requires Legal(w, a, ttl) && Legal(Exec(w, a, ttl), b, ttl)
    ensures Legal(w, a + b, ttl) && Exec(w, a + b, ttl) == Exec(Exec(w, a, ttl), b, ttl)
    decreases |a|
  {
    if a == [] {
      assert a + b == b;
    } else {
      assert (a + b)[1..] == a[1..] + b;
      Concat(Do(w, a[0], ttl), a[1..], b, ttl);
    }
  }

  lemma StoreServes(w: World, a: Step, ttl: int, who: Option<string>, again: Env)
    requires Enabled(w, a, ttl) && a.StoreStep? && !a.env.setFails && Asks(who, a.id) && !again.getFails
    ensures Lookup(Do(w, a, ttl).st, who, a.id, again, ttl).1.Ok? && Do(w, a, ttl).st.rows == w.st.rows
  {
    WrittenEntry(w.st.redis, a.id, w.flights[a.pid].out, a.env, a.id);
  }

  // ---- what a lookup serves --------------------------------------------------------------------

  /** Steps that neither drop the entry nor replace it, as a lookup does that was under
      way or cannot read it. */
  predicate Leaves(run: seq<Step>, id: string) {
    forall k :: 0 <= k < |run| ==>
      && !Drops(run[k], id)
      && !(run[k].LookupStep? && run[k].id == id && run[k].env.getFails && !run[k].env.setFails)
      && !(run[k].StoreStep? && run[k].id == id && !run[k].env.setFails)
  }

  predicate SameEntry(w: World, t: World, id: string) {
    HasEntry(w, id) && HasEntry(t, id) && t.st.redis[PlaybackCacheKey(id)] == w.st.redis[PlaybackCacheKey(id)]
  }

  lemma {:induction false} EntryStays(w: World, run: seq<Step>, ttl: int, id: string)
    requires Inv(w) && Legal(w, run, ttl) && Leaves(run, id) && HasEntry(w, id)
    ensures SameEntry(w, Exec(w, run, ttl), id)
    decreases |run|
  {
    if |run| > 0 {
      StepKeeps(w, run[0], ttl);
      EntryUnchanged(w, run[0], ttl, id);
      EntryStays(Do(w, run[0], ttl), run[1..], ttl, id);
    }
  }

  lemma EntryUnchanged(w: World, a: Step, ttl: int, id: string)
    requires Inv(w) && Enabled(w, a, ttl) && Leaves([a], id) && HasEntry(w, id)
    ensures SameEntry(w, Do(w, a, ttl), id)
  {
    assert !Drops([a][0], id) && !([a][0].StoreStep? && [a][0].id == id && !a.env.setFails);
    match a
    case LookupStep(_, _, _) => LookupEntry(w, a, id, ttl);
    case StoreStep(pid, _, other, env) => WrittenEntry(w.st.redis, other, w.flights[pid].out, env, id);
    case _ =>
  }

  /** What a lookup that stores an entry answers. */
  ghost function Answer(w: World, a: Step, id: string, ttl: int): Output
    requires Enabled(w, a, ttl) && Stores(w, a, id, ttl)
  {
    if a.LookupStep? then Lookup(w.st, a.who, id, a.env, ttl).1.out
    else w.flights[a.pid].out.(manifestURL := URLOf(a.env))
  }

  /** Until the entry is taken away or replaced, every lookup by whomever returns what the
      lookup that stored the entry returned, but for a manifest URL of its own and an expiry
      cut to whole seconds. Changes of the row's status in between do not show. */
  lemma HitRepeatsMiss(w: World, a: Step, id: string, ttl: int, between: seq<Step>, who: Option<string>, again: Env)
    requires Inv(w) && Enabled(w, a, ttl) && Stores(w, a, id, ttl)
    requires Legal(Do(w, a, ttl), between, ttl) && Leaves(between, id)
    requires Asks(who, id) && !again.getFails
    ensures var out := Answer(w, a, id, ttl);
      var end := Exec(Do(w, a, ttl), between, ttl).st;
      && Lookup(end, who, id, again, ttl).1 ==
        Ok(out.(manifestURL := URLOf(again), expiresAt := Truncated(out.expiresAt)))
      && out.expiresAt - SECOND < Truncated(out.expiresAt) <= out.expiresAt
  {
    StepKeeps(w, a, ttl);
    AnswerStored(w, a, id, ttl);
    EntryStays(Do(w, a, ttl), between, ttl, id);
  }

  lemma AnswerStored(w: World, a: Step, id: string, ttl: int)
    requires Enabled(w, a, ttl) && Stores(w, a, id, ttl)
    ensures var t := Do(w, a, ttl);
      HasEntry(t, id) && t.st.redis[PlaybackCacheKey(id)] == RecordEntry(RecordOf(Answer(w, a, id, ttl)))
  {
    if a.LookupStep? {
      LookupWrites(w.st, a.who, id, a.env, ttl);
      WrittenEntry(w.st.redis, id, Lookup(w.st, a.who, id, a.env, ttl).1.out, a.env, id);
    } else {
      WrittenEntry(w.st.redis, id, w.flights[a.pid].out, a.env, id);
    }
  }

  /** No step but a put of that key changes what an object holds. */
  lemma {:induction false} BodyStays(w: World, run: seq<Step>, ttl: int, key: string)
    requires Legal(w, run, ttl) && key in w.st.bodies
    requires forall k :: 0 <= k < |run| ==> !(run[k].PutStep? && run[k].key == key)
    ensures key in Exec(w, run, ttl).st.bodies && Exec(w, run, ttl).st.bodies[key] == w.st.bodies[key]
    decreases |run|
  {
    if |run| > 0 { BodyStays(Do(w, run[0], ttl), run[1..], ttl, key); }
  }

  /** Whatever is built (by a lookup at once, by one under way, behind a token) serves the
      manifest uploaded last: each of its relative lines that names an output file is signed
      for the key that file was uploaded under. */
  lemma BuildServesLastUpload(w: World, owner: string, id: string, body: string, between: seq<Step>, ttl: int,
                              row: MediaRow, env: Env, i: nat)
    requires Component(owner) && Component(id) && UrlsOnOneLine(env.presign) && row.owner == owner
    requires Legal(w, [PutStep(ManifestKey(owner, id), body)] + between, ttl)
    requires forall k :: 0 <= k < |between| ==> !(between[k].PutStep? && between[k].key == ManifestKey(owner, id))
    requires Build(Exec(w, [PutStep(ManifestKey(owner, id), body)] + between, ttl).st, id, row, env, ttl).Ok?
    requires i < |Split(body, '\n')| && Relative(Split(body, '\n')[i]) && FileName(TrimSpace(Split(body, '\n')[i]))
    ensures var end := Exec(w, [PutStep(ManifestKey(owner, id), body)] + between, ttl).st;
      var served := Split(Build(end, id, row, env, ttl).out.manifest, '\n');
      i < |served| && env.presign(HlsKey(owner, id, TrimSpace(Split(body, '\n')[i]))) == Some(served[i])
  {
    var key := ManifestKey(owner, id);
    var run := [PutStep(key, body)] + between;
    assert run[1..] == between;
    BodyStays(Do(w, run[0], ttl), between, ttl, key);
    var out := Build(Exec(w, run, ttl).st, id, row, env, ttl).out;
    PlaybackFetchesUploads(env.presign, owner, id, body, out.manifest, i);
  }

  /** A lookup that does not use an entry, and a token, serve what is built. */
  lemma ServedAsBuilt(s: State, who: Option<string>, id: string, env: Env, token: string, ttl: int)
    ensures Hit(s.redis, id, env).None? && Lookup(s, who, id, env, ttl).1.Ok? ==>
      Live(s.rows, id)
      && Build(s, id, s.rows[id], env, ttl) == Ok(Lookup(s, who, id, env, ttl).1.out.(manifestURL := None))
    ensures StandsFor(s.redis, token, id) && Resolve(s, token, env, ttl).Ok? ==>
      Live(s.rows, id) && Resolve(s, token, env, ttl) == Build(s, id, s.rows[id], env, ttl)
  {
  }
}
