/** Playback: the lookups that serve a medium's signed manifest, the Redis entries they
    leave behind, the manifest tokens, and deletion. Any cache call may fail. What
    overlapping requests do to each other is in `PlaybackRuns`. */
module Playback {
  import opened Text
  import opened Faults
  import opened Paths
  import opened KeyLayout
  import opened Manifest
  import opened MediaTable
  import ObjectStore

  const SECOND := 1_000_000_000

  /** A time as it comes back from its RFC 3339 form: whole seconds. */
  function Truncated(t: int): int { t - t % SECOND }

  datatype Record = Record(mediaID: string, status: MediaStatus, manifest: string, previewURL: Option<string>,
                           expiresAt: int)

  datatype Entry = RecordEntry(record: Record) | TokenEntry(mediaID: string)

  type Redis = map<string, Entry>

  function PlaybackCacheKey(mediaID: string): string { "media:playback:v2:" + mediaID }

  function ManifestTokenKey(token: string): string { "media:playback:manifest:v1:" + token }

  /** Both kinds of keys are injective, and none of one kind is one of the other. */
  lemma CacheKeysDiffer(a: string, b: string)
    ensures PlaybackCacheKey(a) == PlaybackCacheKey(b) <==> a == b
    ensures ManifestTokenKey(a) == ManifestTokenKey(b) <==> a == b
    ensures PlaybackCacheKey(a) != ManifestTokenKey(b)
  {
    assert PlaybackCacheKey(a)[18..] == a && PlaybackCacheKey(b)[18..] == b;
    assert ManifestTokenKey(a)[27..] == a && ManifestTokenKey(b)[27..] == b;
    assert PlaybackCacheKey(a)[15] == 'v' && ManifestTokenKey(b)[15] == 'm';
  }

  function ManifestURL(token: string): string { PathJoin(["/media/playback", token, "index.m3u8"]) }

  lemma ManifestURLIs(token: string)
    requires Plain(token)
    ensures ManifestURL(token) == "/media/playback/" + token + "/index.m3u8"
  {
    TwoJoined("media", "playback");
    FourJoined("media", "playback", token, "index.m3u8");
    PathJoinRooted(["media", "playback"], [token, "index.m3u8"]);
    assert ["media", "playback"] + [token, "index.m3u8"] == ["media", "playback", token, "index.m3u8"];
    assert "/" + ("media" + "/" + "playback") == "/media/playback";
    assert ["/" + Join(["media", "playback"], '/')] + [token, "index.m3u8"]
        == ["/media/playback", token, "index.m3u8"];
  }

  datatype Output = Output(mediaID: string, status: MediaStatus, manifest: string, manifestURL: Option<string>,
                           previewURL: Option<string>, expiresAt: int)

  datatype Reply = Ok(out: Output) | InvalidInput | NotThere | Forbidden | NotReady | StorageFailed | DbFailed
    | CacheFailed

  /** What a request meets: how URLs are signed, whether the manifest object can be read if
      it exists, the time, the token it draws, and which of its cache calls fail: reading,
      storing the record, storing the token. */
  datatype Env = Env(presign: Presigner, readable: bool, now: int, token: string, getFails: bool, setFails: bool,
                     tokenFails: bool)

  datatype State = State(rows: Rows, objects: set<string>, bodies: map<string, string>, redis: Redis)

  function Body(s: State, key: string): string { if key in s.bodies then s.bodies[key] else "" }

  // ---- what the requests do --------------------------------------------------------------

  /** The signed manifest, when every line can be signed. */
  ghost function Signed(presign: Presigner, baseDir: string, manifest: string): (out: Option<string>)
    ensures out.Some? ==> SignedAs(presign, baseDir, manifest, out.value)
    ensures out.None? ==> forall m :: !SignedAs(presign, baseDir, manifest, m)
  {
    if m :| SignedAs(presign, baseDir, manifest, m) then Some(m) else None
  }

  lemma SignedUnique(presign: Presigner, baseDir: string, manifest: string, a: string, b: string)
    requires SignedAs(presign, baseDir, manifest, a) && SignedAs(presign, baseDir, manifest, b)
    ensures a == b
  {
    var lines := Split(manifest, '\n');
    var s :| Signs(presign, baseDir, lines, s) && a == Join(s, '\n');
    var t :| Signs(presign, baseDir, lines, t) && b == Join(t, '\n');
    forall i | 0 <= i < |lines| ensures s[i] == t[i] {
      assert SignLine(presign, baseDir, lines[i]) == Some(s[i]) == Some(t[i]);
    }
    assert s == t;
  }

  /** buildPlayback on a row as it was read. */
  ghost function Build(s: State, id: string, row: MediaRow, env: Env, ttl: int): Reply {
    if !row.status.Ready? then NotReady else
    var key := ManifestKey(row.owner, id);
    if key !in s.objects || !env.readable then StorageFailed else
    var signed := Signed(env.presign, Dir(key), Body(s, key));
    if signed.None? then StorageFailed else
    Ok(Output(id, row.status, signed.value, None, env.presign(PreviewKey(row.owner, id)), env.now + ttl))
  }

  function Cached(redis: Redis, id: string): Option<Record> {
    if PlaybackCacheKey(id) in redis && redis[PlaybackCacheKey(id)].RecordEntry?
    then Some(redis[PlaybackCacheKey(id)].record) else None
  }

  function WithToken(redis: Redis, env: Env, id: string): Redis {
    if env.tokenFails then redis else redis[ManifestTokenKey(env.token) := TokenEntry(id)]
  }

  function URLOf(env: Env): Option<string> { if env.tokenFails then None else Some(ManifestURL(env.token)) }

  function RecordOf(out: Output): Record {
    Record(out.mediaID, out.status, out.manifest, out.previewURL, Truncated(out.expiresAt))
  }

  function OutputOf(r: Record, env: Env): Output {
    Output(r.mediaID, r.status, r.manifest, URLOf(env), r.previewURL, r.expiresAt)
  }

  function Hit(redis: Redis, id: string, env: Env): Option<Record> { if env.getFails then None else Cached(redis, id) }

  /** GetPlayback for an owner, GetPlaybackByMediaID for none. A failed cache read counts as
      a miss; failed cache writes go unnoticed. */
  ghost function Lookup(s: State, owner: Option<string>, id: string, env: Env, ttl: int): (State, Reply) {
    if (owner.Some? && TrimSpace(owner.value) == "") || TrimSpace(id) == "" then (s, InvalidInput) else
    var hit := Hit(s.redis, id, env);
    if hit.Some? then (s.(redis := WithToken(s.redis, env, hit.value.mediaID)), Ok(OutputOf(hit.value, env))) else
    if !Live(s.rows, id) then (s, NotThere) else
    if owner.Some? && s.rows[id].owner != owner.value then (s, Forbidden) else
    var built := Build(s, id, s.rows[id], env, ttl);
    if !built.Ok? then (s, built) else
    var redis := if env.setFails then s.redis else s.redis[PlaybackCacheKey(id) := RecordEntry(RecordOf(built.out))];
    (s.(redis := WithToken(redis, env, id)), Ok(built.out.(manifestURL := URLOf(env))))
  }

  /** ResolvePlaybackManifest: the manifest behind a token, built anew. */
  ghost function Resolve(s: State, token: string, env: Env, ttl: int): Reply {
    var key := ManifestTokenKey(TrimSpace(token));
    if TrimSpace(token) == "" then InvalidInput else if env.getFails then CacheFailed else
    if key !in s.redis || !s.redis[key].TokenEntry? then InvalidInput else
    if !Live(s.rows, s.redis[key].mediaID) then NotThere else
    Build(s, s.redis[key].mediaID, s.rows[s.redis[key].mediaID], env, ttl)
  }

  predicate MayDelete(s: State, owner: string, id: string) {
    TrimSpace(owner) != "" && TrimSpace(id) != "" && Live(s.rows, id) && s.rows[id].owner == owner
  }

  /** A DeleteMedia that soft-deletes the row and leaves the cache entry: its update was
      applied although it reported an error, or dropping the entry failed. */
  function HalfDeleted(s: State, id: string, at: int): State
    requires Live(s.rows, id)
  {
    s.(rows := Apply(s.rows, SoftDelete(id, at)),
       objects := s.objects - ObjectStore.Doomed(s.objects, TrimSpace(MediaPrefix(s.rows[id].owner, id))))
  }

  /** A DeleteMedia that succeeds. */
  function Deleted(s: State, id: string, at: int): State
    requires Live(s.rows, id)
  {
    var t := HalfDeleted(s, id, at);
    t.(redis := t.redis - {PlaybackCacheKey(id)})
  }

  /** A DeleteMedia that stops before its soft delete: some of the objects below the media's
      prefix are gone, and nothing else. */
  predicate GaveUp(before: State, after: State, id: string) {
    && Live(before.rows, id)
    && after == before.(objects := after.objects) && after.objects <= before.objects
    && before.objects - after.objects
       <= ObjectStore.Doomed(before.objects, TrimSpace(MediaPrefix(before.rows[id].owner, id)))
  }

  /** A hit's answer is the record. */
  predicate Repeats(r: Reply, record: Record) {
    && r.Ok? && r.out.mediaID == record.mediaID && r.out.status == record.status && r.out.manifest == record.manifest
    && r.out.previewURL == record.previewURL && r.out.expiresAt == record.expiresAt
  }

  predicate HasProxyURL(out: Output, env: Env) {
    out.manifestURL == if env.tokenFails then None else Some(PathJoin(["/media/playback", env.token, "index.m3u8"]))
  }

  /** What an answered lookup leaves in the cache, besides what was there: after a miss the
      record of the answer, and a token for its media. */
  predicate LeavesBehind(before: Redis, after: Redis, id: string, out: Output, env: Env, hit: bool) {
    var key, token := PlaybackCacheKey(id), ManifestTokenKey(env.token);
    && after.Keys ==
      before.Keys + (if hit || env.setFails then {} else {key}) + (if env.tokenFails then {} else {token})
    && (forall k :: k in before && (k != key || hit || env.setFails) && (k != token || env.tokenFails) ==>
      after[k] == before[k])
    && (!hit && !env.setFails && key != token ==> StoredAs(after[key], id, out))
    && (!env.tokenFails ==> after[token] == TokenEntry(out.mediaID))
  }

  lemma StoreLeaves(before: Redis, id: string, out: Output, env: Env)
    requires out.mediaID == id
    ensures var stored := if env.setFails then before else before[PlaybackCacheKey(id) := RecordEntry(RecordOf(out))];
      LeavesBehind(before, WithToken(stored, env, id), id, out.(manifestURL := URLOf(env)), env, false)
  {
    CacheKeysDiffer(id, env.token);
  }

  /** The record of an answer, its expiry cut to whole seconds. */
  predicate StoredAs(entry: Entry, id: string, out: Output) {
    && entry.RecordEntry? && entry.record.mediaID == id && entry.record.status == out.status
    && entry.record.manifest == out.manifest && entry.record.previewURL == out.previewURL
    && entry.record.expiresAt % SECOND == 0 && 0 <= out.expiresAt - entry.record.expiresAt < SECOND
  }

  class MediaUploadService {
    const repo: MediaRepository
    const storage: ObjectStore.StorageService
    const playbackTTL: int
    var redis: Redis

    constructor (repo: MediaRepository, storage: ObjectStore.StorageService, playbackTTL: int)
      ensures this.repo == repo && this.storage == storage && redis == map[]
      ensures this.playbackTTL == if playbackTTL <= 0 then 3 * 60 * 60 * SECOND else playbackTTL
    {
      this.repo, this.storage, redis := repo, storage, map[];
      this.playbackTTL := if playbackTTL <= 0 then 3 * 60 * 60 * SECOND else playbackTTL;
    }

    ghost function Now(): State
      reads this, repo, storage
    {
      State(repo.rows, storage.objects, storage.bodies, redis)
    }

    /** An answer exactly for a ready row whose manifest is there, can be read and can be
        signed. It carries the signed manifest and a signed URL of the preview, and expires
        when these do. */
    method BuildPlayback(id: string, row: MediaRow, env: Env) returns (r: Reply)
      ensures r == Build(Now(), id, row, env, playbackTTL)
      ensures var key := ManifestKey(row.owner, id); var body := Body(Now(), key);
        && (r.NotReady? <==> row.status != Ready)
        && (r.Ok? <==>
          && row.status == Ready && key in storage.objects && env.readable
          && exists m :: SignedAs(env.presign, Dir(key), body, m))
        && (r.Ok? || r.NotReady? || r.StorageFailed?)
        && (r.Ok? ==> Answers(r.out, id, row, env, body))
      ensures r.Ok? ==> r.out.manifestURL.None?
    {
      if row.status != Ready { return NotReady; }
      var manifestKey := ManifestKey(row.owner, id);
      if manifestKey !in storage.objects || !env.readable { return StorageFailed; }
      var body := if manifestKey in storage.bodies then storage.bodies[manifestKey] else "";
      var signed := SignManifest(env.presign, Dir(manifestKey), body);
      if signed.None? { return StorageFailed; }
      SignedUnique(env.presign, Dir(manifestKey), body, signed.value,
        Signed(env.presign, Dir(manifestKey), body).value);
      return Ok(Output(id, row.status, signed.value, None, env.presign(PreviewKey(row.owner, id)),
        env.now + playbackTTL));
    }

    /** The row is ready and its manifest can be read and signed. */
    ghost predicate Servable(row: MediaRow, id: string, env: Env)
      reads storage
    {
      var key := ManifestKey(row.owner, id);
      && row.status == Ready && key in storage.objects && env.readable
      && var body := if key in storage.bodies then storage.bodies[key] else "";
         exists m :: SignedAs(env.presign, Dir(key), body, m)
    }

    /** What an answer built from this row and manifest says. */
    ghost predicate Answers(out: Output, id: string, row: MediaRow, env: Env, body: string) {
      && out.mediaID == id && out.status == Ready
      && SignedAs(env.presign, Dir(ManifestKey(row.owner, id)), body, out.manifest)
      && out.previewURL == env.presign(PreviewKey(row.owner, id))
      && out.expiresAt - env.now == playbackTTL
    }

    method BuildManifestProxyURL(id: string, env: Env) returns (url: Option<string>)
      modifies this`redis
      ensures redis == WithToken(old(redis), env, id) && url == URLOf(env)
      ensures env.tokenFails ==> url.None? && redis == old(redis)
      ensures !env.tokenFails ==>
        url == Some(PathJoin(["/media/playback", env.token, "index.m3u8"]))
        && redis == old(redis)[ManifestTokenKey(env.token) := TokenEntry(id)]
    {
      if env.tokenFails { return None; }
      redis := redis[ManifestTokenKey(env.token) := TokenEntry(id)];
      return Some(PathJoin(["/media/playback", env.token, "index.m3u8"]));
    }

    /** Both lookups. Every refusal has its cause and every cause its refusal. A hit repeats
        the record, but for a manifest URL of its own; a miss answers for the row as it is and
        stores that, the expiry cut to whole seconds. Nothing else changes. */
    method GetPlayback(owner: Option<string>, id: string, env: Env) returns (r: Reply)
      modifies this`redis, repo`calls
      ensures r.DbFailed? ==> redis == old(redis)
      ensures !r.DbFailed? ==> (Now(), r) == Lookup(old(Now()), owner, id, env, playbackTTL)
      ensures var rows, c, key := repo.rows, old(repo.calls), PlaybackCacheKey(id);
        var asked := (owner.Some? ==> TrimSpace(owner.value) != "") && TrimSpace(id) != "";
        var hit := asked && !env.getFails && key in old(redis) && old(redis)[key].RecordEntry?;
        var read := asked && !hit && repo.faults(c).NoFault?;
        var mine := read && Live(rows, id) && (owner.Some? ==> rows[id].owner == owner.value);
        && (r.InvalidInput? <==> !asked)
        && (r.DbFailed? <==> asked && !hit && !repo.faults(c).NoFault?)
        && (r.NotThere? <==> read && !Live(rows, id))
        && (r.Forbidden? <==> read && Live(rows, id) && !mine)
        && (r.NotReady? <==> mine && rows[id].status != Ready)
        && (hit ==> Repeats(r, old(redis)[key].record))
        && (mine && Servable(rows[id], id, env) ==> r.Ok?)
        && (r.Ok? && !hit ==> mine && rows[id].status == Ready)
        && (r.Ok? && !hit ==> Answers(r.out, id, rows[id], env, Body(Now(), ManifestKey(rows[id].owner, id))))
        && (r.Ok? ==> HasProxyURL(r.out, env) && LeavesBehind(old(redis), redis, id, r.out, env, hit))
        && (!r.Ok? ==> redis == old(redis))
    {
      if (owner.Some? && TrimSpace(owner.value) == "") || TrimSpace(id) == "" { return InvalidInput; }
      var cacheKey := PlaybackCacheKey(id);
      if !env.getFails && cacheKey in redis && redis[cacheKey].RecordEntry? {
        r := FromRecord(id, redis[cacheKey].record, env);
        return;
      }
      var row, err := repo.GetByID(id);
      if err.Some? { return if err == Some(RepoError.NotFound) then NotThere else DbFailed; }
      if owner.Some? && row.value.owner != owner.value { return Forbidden; }
      r := FromRow(id, row.value, env);
    }

    /** The answer to a hit. */
    method FromRecord(id: string, record: Record, env: Env) returns (r: Reply)
      modifies this`redis
      ensures r == Ok(OutputOf(record, env)) && redis == WithToken(old(redis), env, record.mediaID)
      ensures Repeats(r, record) && HasProxyURL(r.out, env) && LeavesBehind(old(redis), redis, id, r.out, env, true)
    {
      var manifestURL := BuildManifestProxyURL(record.mediaID, env);
      return Ok(Output(record.mediaID, record.status, record.manifest, manifestURL, record.previewURL,
        record.expiresAt));
    }

    /** The answer to a miss, from the row as read. */
    method FromRow(id: string, row: MediaRow, env: Env) returns (r: Reply)
      modifies this`redis
      ensures var built := Build(old(Now()), id, row, env, playbackTTL);
        && (!built.Ok? ==> r == built && redis == old(redis))
        && (built.Ok? ==> r == Ok(built.out.(manifestURL := URLOf(env))))
        && (built.Ok? ==>
          var entry := RecordEntry(RecordOf(built.out));
          redis == WithToken(if env.setFails then old(redis) else old(redis)[PlaybackCacheKey(id) := entry], env, id))
      ensures r.NotReady? <==> row.status != Ready
      ensures r.Ok? || r.NotReady? || r.StorageFailed?
      ensures Servable(row, id, env) ==> r.Ok?
      ensures r.Ok? ==> Answers(r.out, id, row, env, Body(Now(), ManifestKey(row.owner, id)))
      ensures r.Ok? ==> HasProxyURL(r.out, env) && LeavesBehind(old(redis), redis, id, r.out, env, false)
    {
      r := BuildPlayback(id, row, env);
      if !r.Ok? { return; }
      StoreLeaves(redis, id, r.out, env);
      var record := Record(r.out.mediaID, r.out.status, r.out.manifest, r.out.previewURL, Truncated(r.out.expiresAt));
      if !env.setFails { redis := redis[PlaybackCacheKey(id) := RecordEntry(record)]; }
      var url := BuildManifestProxyURL(r.out.mediaID, env);
      return Ok(r.out.(manifestURL := url));
    }

    /** The manifest behind a token, for the row as it is now. */
    method ResolvePlaybackManifest(token: string, env: Env) returns (r: Reply)
      modifies repo`calls
      ensures !r.DbFailed? ==> r == Resolve(Now(), token, env, playbackTTL)
      ensures var rows, c, key := repo.rows, old(repo.calls), ManifestTokenKey(TrimSpace(token));
        var asked := TrimSpace(token) != "";
        var known := asked && !env.getFails && key in redis && redis[key].TokenEntry?;
        var read := known && repo.faults(c).NoFault?;
        && (r.InvalidInput? <==> !asked || (!env.getFails && !known))
        && (r.CacheFailed? <==> asked && env.getFails)
        && (r.DbFailed? <==> known && !repo.faults(c).NoFault?)
        && (r.NotThere? <==> read && !Live(rows, redis[key].mediaID))
        && (r.NotReady? <==> read && Live(rows, redis[key].mediaID) && rows[redis[key].mediaID].status != Ready)
        && (r.Ok? ==> read && Live(rows, redis[key].mediaID) && rows[redis[key].mediaID].status == Ready)
        && (r.Ok? ==>
          var id := redis[key].mediaID;
          Answers(r.out, id, rows[id], env, Body(Now(), ManifestKey(rows[id].owner, id))))
    {
      var trimmed := TrimSpace(token);
      var key := ManifestTokenKey(trimmed);
      if trimmed == "" { return InvalidInput; }
      if env.getFails { return CacheFailed; }
      if key !in redis || !redis[key].TokenEntry? { return InvalidInput; }
      var row, err := repo.GetByID(redis[key].mediaID);
      if err.Some? { return if err == Some(RepoError.NotFound) then NotThere else DbFailed; }
      r := BuildPlayback(redis[key].mediaID, row.value, env);
    }

    /** Objects first, then the row, then the cache entry. It succeeds exactly for the owner of
        a live row when nothing meets a fault. A failure on the way leaves the cache as it was,
        with part of the objects gone, and the row live unless the update took effect although
        it reported an error. A failure to drop the entry is ignored. */
    method DeleteMedia(owner: string, id: string, at: int, delFails: bool) returns (err: Option<Reply>)
      modifies this`redis, repo`rows, repo`calls, storage`objects, storage`batches, storage`calls, storage`deletions
      ensures err.None? ==> MayDelete(old(Now()), owner, id)
      ensures err.None? ==> Now() == if delFails then HalfDeleted(old(Now()), id, at) else Deleted(old(Now()), id, at)
      ensures err.Some? && Now() != old(Now()) ==>
        && MayDelete(old(Now()), owner, id)
        && (GaveUp(old(Now()), Now(), id) || (err == Some(DbFailed) && Now() == HalfDeleted(old(Now()), id, at)))
      ensures var rows, c := old(repo.rows), old(repo.calls);
        var asked := TrimSpace(owner) != "" && TrimSpace(id) != "";
        var read := asked && repo.faults(c).NoFault?;
        var mine := read && Live(rows, id) && rows[id].owner == owner;
        var purged := mine && storage.named && Calm(storage.faults, old(storage.calls), storage.calls);
        && (err == Some(InvalidInput) <==> !asked)
        && (err == Some(NotThere) <==> read && !Live(rows, id))
        && (err == Some(Forbidden) <==> read && Live(rows, id) && rows[id].owner != owner)
        && (err == Some(StorageFailed) <==> mine && !purged)
        && (err == Some(DbFailed) <==> (asked && !read) || (purged && !repo.faults(c + 1).NoFault?))
        && (err.None? <==> purged && repo.faults(c + 1).NoFault?)
        && (mine ==>
          storage.deletions == old(storage.deletions) + [ObjectStore.Deletion(MediaPrefix(owner, id), !purged)])
        && (!mine ==> storage.deletions == old(storage.deletions) && Now() == old(Now()))
        && (err.None? ==> repo.rows == rows[id := rows[id].(deletedAt := Some(at))])
        && (err.None? ==> redis == if delFails then old(redis) else old(redis) - {PlaybackCacheKey(id)})
    {
      var row;
      row, err := ReadMine(owner, id);
      if err.Some? { return; }
      err := Purge(id, row.owner, at, delFails);
    }

    /** Its checks. */
    method ReadMine(owner: string, id: string) returns (row: MediaRow, err: Option<Reply>)
      modifies repo`calls
      ensures var rows, c := repo.rows, old(repo.calls);
        var asked := TrimSpace(owner) != "" && TrimSpace(id) != "";
        var read := asked && repo.faults(c).NoFault?;
        && repo.calls == (if asked then c + 1 else c)
        && (err == Some(InvalidInput) <==> !asked)
        && (err == Some(DbFailed) <==> asked && !read)
        && (err == Some(NotThere) <==> read && !Live(rows, id))
        && (err == Some(Forbidden) <==> read && Live(rows, id) && rows[id].owner != owner)
        && (err.None? <==> read && Live(rows, id) && rows[id].owner == owner)
        && (err.None? ==> row == rows[id])
    {
      row := MediaRow("", "", "", "", Failed, 0, "", "", None, None, None);
      if TrimSpace(owner) == "" || TrimSpace(id) == "" { return row, Some(InvalidInput); }
      var found, readErr := repo.GetByID(id);
      if readErr.Some? { return row, Some(if readErr == Some(RepoError.NotFound) then NotThere else DbFailed); }
      if found.value.owner != owner { return row, Some(Forbidden); }
      return found.value, None;
    }

    /** The effects of DeleteMedia, in their order. */
    method Purge(id: string, owner: string, at: int, delFails: bool) returns (err: Option<Reply>)
      requires Live(repo.rows, id) && repo.rows[id].owner == owner
      modifies this`redis, repo`rows, repo`calls, storage`objects, storage`batches, storage`calls, storage`deletions
      ensures err.None? ==> Now() == if delFails then HalfDeleted(old(Now()), id, at) else Deleted(old(Now()), id, at)
      ensures err.Some? ==>
        GaveUp(old(Now()), Now(), id) || (err == Some(DbFailed) && Now() == HalfDeleted(old(Now()), id, at))
      ensures var purged := storage.named && Calm(storage.faults, old(storage.calls), storage.calls);
        && (err == Some(StorageFailed) <==> !purged)
        && (err == Some(DbFailed) <==> purged && !repo.faults(old(repo.calls)).NoFault?)
        && (err.None? || err == Some(StorageFailed) || err == Some(DbFailed))
        && storage.deletions == old(storage.deletions) + [ObjectStore.Deletion(MediaPrefix(owner, id), !purged)]
      ensures err.None? ==> repo.rows == old(repo.rows)[id := old(repo.rows)[id].(deletedAt := Some(at))]
    {
      TrimSpaceSolid(MediaPrefix(owner, id), |MediaPrefix(owner, id)| - 1);
      var failed, _, _ := storage.DeleteObjectsByPrefix(MediaPrefix(owner, id));
      if failed.Some? { return Some(StorageFailed); }
      var writeErr := repo.Update(SoftDelete(id, at));
      if writeErr.Some? { return Some(DbFailed); }
      if !delFails { redis := redis - {PlaybackCacheKey(id)}; }
      return None;
    }
  }
}
