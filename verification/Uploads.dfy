/** `InitUpload`, `CompleteUpload` and `Enqueue` as programs, and how a whole request
    appears among the runs of the media protocol. */
module Uploads {
  import opened Text
  import opened Faults
  import opened KeyLayout
  import opened MediaTable
  import P = MediaProtocol
  import MediaSafety
  import StrandedJobs

  // ---- MIME types ------------------------------------------------------------------------

  function Lower(lower: char -> char, s: string): (r: string)
    ensures |r| == |s| && forall i :: 0 <= i < |s| ==> r[i] == lower(s[i])
  {
    if s == "" then "" else [lower(s[0])] + Lower(lower, s[1..])
  }

  function BeforeSemicolon(s: string): (r: string)
    ensures r <= s && ';' !in r && (|r| < |s| ==> s[|r|] == ';')
  {
    if s == "" || s[0] == ';' then "" else [s[0]] + BeforeSemicolon(s[1..])
  }

  /** Lower case, without parameters, without outer white space. */
  function NormalizeMime(lower: char -> char, mime: string): string {
    TrimSpace(BeforeSemicolon(Lower(lower, TrimSpace(mime))))
  }

  /** What lower-casing does to single characters: it is done after one pass, and neither
      makes nor removes white space or semicolons. */
  ghost predicate CaseFolding(lower: char -> char) {
    && (forall c {:trigger lower(lower(c))} :: lower(lower(c)) == lower(c))
    && (forall c {:trigger lower(c)} :: (IsSpace(lower(c)) <==> IsSpace(c)) && (lower(c) == ';' <==> c == ';'))
  }

  lemma {:induction false} NormalizedShape(lower: char -> char, mime: string)
    requires CaseFolding(lower)
    ensures var n := NormalizeMime(lower, mime);
      Trimmed(n) && ';' !in n && forall i :: 0 <= i < |n| ==> lower(n[i]) == n[i]
  {
    var folded := Lower(lower, TrimSpace(mime));
    var head := BeforeSemicolon(folded);
    TrimSpaceFixed(head);
    TrimSpaceInside(head);
    forall c | c in NormalizeMime(lower, mime) ensures c != ';' && lower(c) == c {
      var i :| 0 <= i < |head| && head[i] == c;
      assert folded[i] == c;
    }
  }

  lemma {:induction false} TrimLeftInside(s: string, drop: char -> bool)
    ensures forall c :: c in TrimLeft(s, drop) ==> c in s
  {
    if s != "" && drop(s[0]) { TrimLeftInside(s[1..], drop); }
  }

  lemma TrimSpaceInside(s: string)
    ensures forall c :: c in TrimSpace(s) ==> c in s
  {
    TrimLeftInside(s, IsSpace);
  }

  lemma {:induction false} NoSemicolon(s: string)
    requires ';' !in s
    ensures BeforeSemicolon(s) == s
  {
    if s != "" { NoSemicolon(s[1..]); }
  }

  /** The allow-list is asked about normal forms: normalising twice changes nothing. */
  lemma NormalizeTwice(lower: char -> char, mime: string)
    requires CaseFolding(lower)
    ensures NormalizeMime(lower, NormalizeMime(lower, mime)) == NormalizeMime(lower, mime)
  {
    var n := NormalizeMime(lower, mime);
    NormalizedShape(lower, mime);
    TrimSpaceFixed(n);
    assert Lower(lower, n) == n;
    NoSemicolon(n);
  }

  /** What normalising does, outright: of a type between white space, with or without
      parameters after a semicolon, it leaves the type in lower case. */
  lemma NormalizedIs(lower: char -> char, before: string, kind: string, after: string, rest: string)
    requires CaseFolding(lower) && AllSpace(before) && AllSpace(after) && Trimmed(kind) && ';' !in kind
    requires rest == "" || rest[0] == ';'
    ensures var n := NormalizeMime(lower, before + kind + after + rest);
      |n| == |kind| && forall i :: 0 <= i < |kind| ==> n[i] == lower(kind[i])
  {
    var gap, tail := TrimmedParts(before, kind, after, rest);
    TypeAlone(lower, kind, gap, tail);
  }

  /** Every text is of that form. */
  lemma MimeParts(mime: string) returns (before: string, kind: string, after: string, rest: string)
    ensures mime == before + kind + after + rest && AllSpace(before) && AllSpace(after)
    ensures Trimmed(kind) && ';' !in kind && (rest == "" || rest[0] == ';')
  {
    var head := BeforeSemicolon(mime);
    rest := mime[|head|..];
    kind := TrimSpace(head);
    before, after := TrimSpaceParts(head);
    TrimSpaceFixed(head);
    TrimSpaceInside(head);
  }

  lemma TrimmedMime(before: string, kind: string, after: string, rest: string)
    requires AllSpace(before) && AllSpace(after) && Trimmed(kind) && rest != "" && rest[0] == ';'
    ensures TrimSpace(before + kind + after + rest) ==
      kind + (if kind == "" then "" else after) + ";" + TrimRight(rest[1..], IsSpace)
  {
    var gap, outer := if kind == "" then "" else after, if kind == "" then before + after else before;
    var solid := kind + gap + ";";
    assert before + kind + after + rest == outer + (solid + rest[1..]);
    assert (solid + rest[1..])[0] == solid[0] && !IsSpace(solid[0]);
    TrimLeftPast(outer, solid + rest[1..]);
    TrimRightKeeps(solid, rest[1..], IsSpace);
  }

  lemma TrimmedParts(before: string, kind: string, after: string, rest: string) returns (gap: string, tail: string)
    requires AllSpace(before) && AllSpace(after) && Trimmed(kind) && (rest == "" || rest[0] == ';')
    ensures TrimSpace(before + kind + after + rest) == kind + gap + tail
    ensures AllSpace(gap) && (tail == "" || tail[0] == ';')
  {
    if rest == "" {
      assert before + kind + after + rest == before + kind + after;
      TrimSpaceIs(before, kind, after);
      gap, tail := "", "";
    } else {
      TrimmedMime(before, kind, after, rest);
      gap, tail := if kind == "" then "" else after, ";" + TrimRight(rest[1..], IsSpace);
      assert kind + gap + tail == kind + gap + ";" + TrimRight(rest[1..], IsSpace);
    }
  }

  lemma TypeAlone(lower: char -> char, kind: string, gap: string, rest: string)
    requires CaseFolding(lower) && AllSpace(gap) && Trimmed(kind) && ';' !in kind && (rest == "" || rest[0] == ';')
    ensures TrimSpace(BeforeSemicolon(Lower(lower, kind + gap + rest))) == Lower(lower, kind)
  {
    var low, space := Lower(lower, kind), Lower(lower, gap);
    LowerParts(lower, kind + gap, rest);
    LowerParts(lower, kind, gap);
    LowerKeeps(lower, kind, gap, rest);
    AloneBefore(low, space, Lower(lower, rest));
  }

  lemma AloneBefore(kind: string, gap: string, rest: string)
    requires AllSpace(gap) && Trimmed(kind) && (rest == "" || rest[0] == ';')
    requires forall i :: 0 <= i < |kind + gap| ==> (kind + gap)[i] != ';'
    ensures TrimSpace(BeforeSemicolon(kind + gap + rest)) == kind
  {
    BeforeFirst(kind + gap, rest);
    assert kind + gap == "" + kind + gap;
    TrimSpaceIs("", kind, gap);
  }

  lemma LowerParts(lower: char -> char, a: string, b: string)
    ensures Lower(lower, a + b) == Lower(lower, a) + Lower(lower, b)
  {
  }

  lemma LowerKeeps(lower: char -> char, kind: string, gap: string, rest: string)
    requires CaseFolding(lower) && AllSpace(gap) && Trimmed(kind) && ';' !in kind && (rest == "" || rest[0] == ';')
    ensures AllSpace(Lower(lower, gap)) && Trimmed(Lower(lower, kind))
    ensures forall i :: 0 <= i < |kind + gap| ==> Lower(lower, kind + gap)[i] != ';'
    ensures Lower(lower, rest) == "" || Lower(lower, rest)[0] == ';'
  {
    forall i | 0 <= i < |kind + gap| ensures (kind + gap)[i] != ';' {
      assert (kind + gap)[i] == if i < |kind| then kind[i] else gap[i - |kind|];
    }
  }

  lemma {:induction false} BeforeFirst(head: string, rest: string)
    requires (forall i :: 0 <= i < |head| ==> head[i] != ';') && (rest == "" || rest[0] == ';')
    ensures BeforeSemicolon(head + rest) == head
  {
    if head != "" {
      assert (head + rest)[1..] == head[1..] + rest;
      BeforeFirst(head[1..], rest);
    } else {
      assert head + rest == rest;
    }
  }

  // ---- titles ------------------------------------------------------------------------------

  /** filepath.Ext: from the last dot of the last path element on. */
  function Ext(name: string): (r: string)
    ensures |r| <= |name| && name[|name| - |r|..] == r
    ensures r != "" ==> r[0] == '.' && forall i :: 0 < i < |r| ==> r[i] != '.' && r[i] != '/'
    ensures r == "" ==> forall i :: 0 <= i < |name| && name[i] == '.' ==> exists j :: i < j < |name| && name[j] == '/'
  {
    if name == "" || name[|name| - 1] == '/' then ""
    else if name[|name| - 1] == '.' then "."
    else var r := Ext(name[..|name| - 1]); if r == "" then "" else r + [name[|name| - 1]]
  }

  function BuildTitle(fileName: string): string {
    var title := TrimSpace(fileName[..|fileName| - |Ext(fileName)|]);
    if title == "" then "media" else title
  }

  /** A title is never blank, and is the file name without outer space and extension unless
      that is blank. */
  lemma TitleShape(fileName: string) returns (stem: string)
    ensures BuildTitle(fileName) != "" && Trimmed(BuildTitle(fileName))
    ensures stem + Ext(fileName) == fileName
    ensures BuildTitle(fileName) == if TrimSpace(stem) == "" then "media" else TrimSpace(stem)
  {
    stem := fileName[..|fileName| - |Ext(fileName)|];
    TrimSpaceFixed(stem);
    assert stem + Ext(fileName) == fileName;
  }

  // ---- the requests ------------------------------------------------------------------------

  datatype InitResult = Started(storageKey: string, uploadURL: string) | InvalidUpload | UploadFailed

  datatype Head = Missing | HeadFailed | Found(size: int, mime: string)

  datatype CompleteResult =
    | Accepted(status: MediaStatus)
    | InvalidInput | NotThere | ForbiddenMedia | ObjectMissing | QueueFull
    | DbFailed | StorageFailed

  /** An entry of the configured list of types. */
  function Listed(lower: char -> char, mime: string): string { TrimSpace(Lower(lower, mime)) }

  method ListedTypes(lower: char -> char, list: seq<string>) returns (types: set<string>)
    ensures forall m :: m in types <==> m != "" && exists mt :: mt in list && m == Listed(lower, mt)
  {
    types := {};
    for i := 0 to |list|
      invariant forall m :: m in types <==> m != "" && exists k :: 0 <= k < i && m == Listed(lower, list[k])
    {
      var normalized := TrimSpace(Lower(lower, list[i]));
      if normalized == "" { continue; }
      types := types + {normalized};
    }
    forall m ensures m in types <==> m != "" && exists mt :: mt in list && m == Listed(lower, mt) {
      if mt :| mt in list && m == Listed(lower, mt) {
        var k :| 0 <= k < |list| && list[k] == mt;
        assert m == Listed(lower, list[k]);
      }
    }
  }

  class MediaUploads {
    const repo: MediaRepository
    const lower: char -> char
    const allowed: set<string>
    const maxSizeBytes: int
    const transcoding: bool   // a transcoder is configured
    const capacity: nat
    var jobQueue: seq<string>

    /** The types allowed are those of the list in lower case, or six for a list of blanks. */
    constructor (repo: MediaRepository, lower: char -> char, allowedTypes: seq<string>, maxSizeBytes: int,
                 transcoding: bool, capacity: nat)
      ensures this.repo == repo && this.lower == lower
      ensures this.transcoding == transcoding && this.capacity == capacity && jobQueue == []
      ensures this.maxSizeBytes == if maxSizeBytes <= 0 then 10 * 1024 * 1024 * 1024 else maxSizeBytes
      ensures (exists mt :: mt in allowedTypes && Listed(lower, mt) != "") ==>
        forall m :: m in allowed <==> m != "" && exists mt :: mt in allowedTypes && m == Listed(lower, mt)
      ensures (forall mt :: mt in allowedTypes ==> Listed(lower, mt) == "") ==>
        allowed ==
          {"video/mp4", "video/webm", "video/quicktime", "video/x-msvideo", "video/matroska", "video/x-matroska"}
    {
      this.repo, this.lower := repo, lower;
      this.transcoding, this.capacity := transcoding, capacity;
      this.maxSizeBytes := if maxSizeBytes <= 0 then 10 * 1024 * 1024 * 1024 else maxSizeBytes;
      jobQueue := [];
      var types := ListedTypes(lower, allowedTypes);
      assert forall mt :: mt in allowedTypes && Listed(lower, mt) != "" ==> Listed(lower, mt) in types;
      if |types| == 0 {
        types :=
          {"video/mp4", "video/webm", "video/quicktime", "video/x-msvideo", "video/matroska", "video/x-matroska"};
      } else {
        var m :| m in types;
      }
      allowed := types;
    }

    /** The URL leaves only once the row exists, for the key the row records. `signed` is
        what presigning a key yields, `mediaID` the id drawn. A failed insert may have stored
        the row; its URL is never released then. */
    method InitUpload(owner: string, fileName: string, contentType: string, size: int, mediaID: string,
                      signed: string -> Option<string>, objectURL: string -> string)
      returns (r: InitResult)
      modifies repo`rows, repo`calls
      ensures r.InvalidUpload? <==> (
        || TrimSpace(owner) == "" || TrimSpace(fileName) == "" || size <= 0 || size > maxSizeBytes
        || NormalizeMime(lower, contentType) !in allowed)
      ensures var key := OriginalKey(owner, mediaID, fileName); var fault := repo.faults(old(repo.calls));
        && (r.Started? ==> r.storageKey == key && Some(r.uploadURL) == signed(key))
        && (r.Started? <==> !r.InvalidUpload? && signed(key).Some? && fault.NoFault? && mediaID !in old(repo.rows))
        && (r.InvalidUpload? || signed(key).None? || fault.LostCall? || mediaID in old(repo.rows) ==>
          repo.rows == old(repo.rows))
        && (!(r.InvalidUpload? || signed(key).None? || fault.LostCall? || mediaID in old(repo.rows)) ==>
          Inserted(old(repo.rows), repo.rows, mediaID, lower, owner, fileName, contentType, size, key, objectURL))
    {
      if TrimSpace(owner) == "" || TrimSpace(fileName) == "" { return InvalidUpload; }
      if size <= 0 || size > maxSizeBytes { return InvalidUpload; }
      if NormalizeMime(lower, contentType) !in allowed { return InvalidUpload; }
      var safeName := SanitizeFilename(fileName);
      var storageKey := OriginalKey(owner, mediaID, fileName);
      var uploadURL := signed(storageKey);
      if uploadURL.None? { return UploadFailed; }
      var mime := Lower(lower, TrimSpace(contentType));
      var row := MediaRow(owner, BuildTitle(safeName), fileName, storageKey, Uploading, size, mime,
        objectURL(storageKey), None, None, None);
      var err := repo.Create(mediaID, row);
      if err.Some? { return UploadFailed; }
      return Started(storageKey, uploadURL.value);
    }

    method Enqueue(mediaID: string) returns (ok: bool)
      modifies this`jobQueue
      ensures ok <==> TrimSpace(mediaID) != "" && |old(jobQueue)| < capacity
      ensures jobQueue == if ok then old(jobQueue) + [TrimSpace(mediaID)] else old(jobQueue)
    {
      var trimmed := TrimSpace(mediaID);
      if trimmed == "" || |jobQueue| >= capacity { return false; }
      jobQueue := jobQueue + [trimmed];
      return true;
    }

    /** The second half of CompleteUpload. Of its status writes the first `done` have taken
        effect: a write that reports an error may or may not have. A job is left in processing
        without being queued when the second is applied with an error, or the third, the
        failure mark of a rejected job, is refused, which nobody is told. */
    method MarkAndQueue(id: string, size: int, mime: string) returns (r: CompleteResult, ghost done: nat)
      requires Live(repo.rows, id)
      modifies this`jobQueue, repo`rows, repo`calls
      ensures repo.rows == Marked(old(repo.rows), id, size, mime, done)
      ensures var room := TrimSpace(id) != "" && |old(jobQueue)| < capacity; var c := old(repo.calls);
        && Ends(r, done, transcoding, room) && repo.calls >= c
        && (!repo.faults(c).NoFault? ==> r.DbFailed? && done == if repo.faults(c).LostCall? then 0 else 1)
        && (repo.faults(c).NoFault? && transcoding && !repo.faults(c + 1).NoFault? ==>
          r.DbFailed? && done == if repo.faults(c + 1).LostCall? then 1 else 2)
        && (repo.faults(c).NoFault? && (!transcoding || repo.faults(c + 1).NoFault?) ==>
          && (r.Accepted? <==> !transcoding || room) && (r.QueueFull? <==> transcoding && !room)
          && (r.Accepted? ==> r.status == if transcoding then Processing else Uploaded)
          && (r.QueueFull? ==> done == if repo.faults(c + 2).LostCall? then 2 else 3))
        && (r.DbFailed? ==> !Calm(repo.faults, c, repo.calls))
      ensures jobQueue == if r.Accepted? && transcoding then old(jobQueue) + [TrimSpace(id)] else old(jobQueue)
    {
      ghost var c := repo.calls;
      var err := repo.Update(SetUploadState(id, Uploaded, size, mime));
      done := if repo.faults(c).LostCall? then 0 else 1;
      if err.Some? { return DbFailed, done; }
      if !transcoding { return Accepted(Uploaded), done; }
      err := repo.Update(SetStatus(id, Processing));
      done := if repo.faults(c + 1).LostCall? then 1 else 2;
      if err.Some? { return DbFailed, done; }
      assert Marked(old(repo.rows), id, size, mime, 2)
          == Apply(Marked(old(repo.rows), id, size, mime, 1), SetStatus(id, Processing));
      var queued := Enqueue(id);
      if queued { return Accepted(Processing), done; }
      err := repo.Update(SetStatus(id, Failed));
      done := if repo.faults(c + 2).LostCall? then 2 else 3;
      assert Marked(old(repo.rows), id, size, mime, 3)
          == Apply(Marked(old(repo.rows), id, size, mime, 2), SetStatus(id, Failed));
      return QueueFull, done;
    }

    /** Every refusal has its cause and every cause its refusal; only a completion that passes
        all checks writes. Then the row has the size and the normalised type of the object as
        the store reports them, and a status by how far the writes came; the rest of the row
        and of the table are as they were. */
    method CompleteUpload(owner: string, id: string, head: string -> Head) returns (r: CompleteResult, ghost done: nat)
      modifies this`jobQueue, repo`rows, repo`calls
      ensures var rows, c := old(repo.rows), old(repo.calls);
        var asked := TrimSpace(owner) != "" && TrimSpace(id) != "";
        var read := asked && repo.faults(c).NoFault?;
        var mine := read && Live(rows, id) && rows[id].owner == owner;
        var found := if mine then head(rows[id].storageKey) else Missing;
        var fine := found.Found? && found.size > 0 && NormalizeMime(lower, found.mime) in allowed;
        && (r.InvalidInput? <==> !asked || (found.Found? && !fine))
        && (r.NotThere? <==> read && !Live(rows, id))
        && (r.ForbiddenMedia? <==> read && Live(rows, id) && rows[id].owner != owner)
        && (r.ObjectMissing? <==> mine && found.Missing?)
        && (r.StorageFailed? <==> mine && found.HeadFailed?)
        && (r.Accepted? || r.QueueFull? ==> fine)
        && (fine && Calm(repo.faults, c, repo.calls) ==> r.Accepted? || r.QueueFull?)
        && (r.QueueFull? ==> transcoding && |old(jobQueue)| >= capacity)
        && (r.Accepted? && transcoding ==> |old(jobQueue)| < capacity)
        && (done > 0 ==> fine && CompletedAs(rows, repo.rows, id, found.size, NormalizeMime(lower, found.mime), done))
        && (done == 0 ==> repo.rows == rows)
        && (!r.Accepted? && !r.QueueFull? && !r.DbFailed? ==> done == 0)
        && (fine ==> Ends(r, done, transcoding, |old(jobQueue)| < capacity))
        && (fine ==> repo.rows == Marked(rows, id, found.size, NormalizeMime(lower, found.mime), done))
      ensures r.DbFailed? ==> !Calm(repo.faults, old(repo.calls), repo.calls)
      ensures r.Accepted? ==> r.status == if transcoding then Processing else Uploaded
      ensures jobQueue == if r.Accepted? && transcoding then old(jobQueue) + [TrimSpace(id)] else old(jobQueue)
    {
      done := 0;
      ghost var c := repo.calls;
      if TrimSpace(owner) == "" || TrimSpace(id) == "" { return InvalidInput, done; }
      var row, readErr := repo.GetByID(id);
      if readErr.Some? { return if readErr == Some(RepoError.NotFound) then NotThere else DbFailed, done; }
      if row.value.owner != owner { return ForbiddenMedia, done; }
      var found := head(row.value.storageKey);
      if found.Missing? { return ObjectMissing, done; }
      if found.HeadFailed? { return StorageFailed, done; }
      var mime := NormalizeMime(lower, found.mime);
      if found.size <= 0 || mime !in allowed { return InvalidInput, done; }
      r, done := MarkAndQueue(id, found.size, mime);
      MarkedRow(old(repo.rows), id, found.size, mime, done);
      CalmParts(repo.faults, c, c + 1, repo.calls);
    }
  }

  /** What the first n of a completion's status writes have made of the table, field by
      field. */
  predicate CompletedAs(before: Rows, after: Rows, id: string, size: int, mime: string, n: nat)
    requires id in before
  {
    && after.Keys == before.Keys && (forall i :: i in before && i != id ==> after[i] == before[i])
    && after[id].sizeBytes == size && after[id].mime == mime
    && after[id].status == (if n == 1 then Uploaded else if n == 2 then Processing else Failed)
    && after[id].owner == before[id].owner && after[id].title == before[id].title
    && after[id].originalName == before[id].originalName && after[id].storageKey == before[id].storageKey
    && after[id].playbackUrl == before[id].playbackUrl && after[id].previewUrl == before[id].previewUrl
    && after[id].durationSec == before[id].durationSec && after[id].deletedAt == before[id].deletedAt
  }

  lemma {:induction false} MarkedRow(rows: Rows, id: string, size: int, mime: string, n: nat)
    requires Live(rows, id)
    ensures n > 0 ==> CompletedAs(rows, Marked(rows, id, size, mime, n), id, size, mime, n)
  {
    if n > 1 { MarkedRow(rows, id, size, mime, n - 1); }
  }

  /** The table has gained one row, that of this upload. */
  predicate Inserted(before: Rows, after: Rows, mediaID: string, lower: char -> char, owner: string, fileName: string,
                     contentType: string, size: int, key: string, objectURL: string -> string) {
    && mediaID !in before && mediaID in after && after == before[mediaID := after[mediaID]]
    && var row := after[mediaID];
       && row.owner == owner && row.status.Uploading? && row.sizeBytes == size && row.deletedAt.None?
       && row.storageKey == key && row.playbackUrl == objectURL(key)
       && row.title == BuildTitle(SanitizeFilename(fileName)) && row.originalName == fileName
       && row.mime == Lower(lower, TrimSpace(contentType)) && row.previewUrl.None? && row.durationSec.None?
  }

  /** The table after the first n of a completion's status writes. */
  function Marked(rows: Rows, id: string, size: int, mime: string, n: nat): Rows {
    if n == 0 then rows
    else if n == 1 then Apply(rows, SetUploadState(id, Uploaded, size, mime))
    else Apply(Marked(rows, id, size, mime, n - 1), SetStatus(id, if n == 2 then Processing else Failed))
  }

  // ---- completion in the protocol -------------------------------------------------------

  /** The ways in which `MarkAndQueue` may end by its contract, with room in the queue or
      not. */
  predicate Ends(r: CompleteResult, done: nat, transcoding: bool, room: bool) {
    match r
    case DbFailed => done <= 2
    case Accepted(_) => done == (if transcoding then 2 else 1) && (transcoding ==> room)
    case QueueFull => done in {2, 3} && transcoding && !room
    case _ => false
  }

  predicate Room(s: P.State, id: string) { TrimSpace(id) != "" && |s.queue| < s.capacity }

  /** The state in which a completion leaves the protocol. */
  function Completed(s: P.State, id: string, size: int, mime: string, r: CompleteResult, done: nat,
                     transcoding: bool): P.State {
    var job := TrimSpace(id);
    var t := P.Lose(s.(rows := Marked(s.rows, id, size, mime, done)), id, done == 2 && !r.Accepted?);
    if r.Accepted? && transcoding then t.(queue := s.queue + [job], accepted := s.accepted + [job]) else t
  }

  /** However a completion ends by its contract, faulty writes included, it is a run of the
      protocol, so what holds of all runs holds of it. */
  lemma CompletionIsARun(s: P.State, p: nat, owner: string, id: string, size: int, mime: string,
                         r: CompleteResult, done: nat, transcoding: bool)
    returns (run: seq<P.Action>)
    requires p !in s.procs && Live(s.rows, id) && s.rows[id].owner == owner && s.rows[id].storageKey in s.objects
      && size > 0
    requires Ends(r, done, transcoding, Room(s, id))
    ensures P.Legal(s, run) && P.Exec(s, run) == Completed(s, id, size, mime, r, done, transcoding)
  {
    if r.QueueFull? || (r.Accepted? && transcoding) {
      run := QueuedIsARun(s, p, owner, id, size, mime, r, done);
    } else {
      run := UnqueuedIsARun(s, p, owner, id, size, mime, r, done);
    }
  }

  /** A completion that comes as far as the queue. */
  lemma QueuedIsARun(s: P.State, p: nat, owner: string, id: string, size: int, mime: string, r: CompleteResult,
                     done: nat)
    returns (run: seq<P.Action>)
    requires p !in s.procs && Live(s.rows, id) && s.rows[id].owner == owner && s.rows[id].storageKey in s.objects
      && size > 0
    requires !r.DbFailed? && Ends(r, done, true, Room(s, id))
    ensures P.Legal(s, run) && P.Exec(s, run) == Completed(s, id, size, mime, r, done, true)
  {
    run := ReachMarked(s, p, owner, id, size, mime);
    run := OneMore(s, run, P.Complete(p, P.EnqueueJob));
    if r.QueueFull? { run := OneMore(s, run, P.Complete(p, P.MarkRejected(if done == 2 then P.Refused else P.Done))); }
    assert P.Exec(s, run).procs == s.procs;
  }

  /** A completion that does not. */
  lemma UnqueuedIsARun(s: P.State, p: nat, owner: string, id: string, size: int, mime: string, r: CompleteResult,
                       done: nat)
    returns (run: seq<P.Action>)
    requires p !in s.procs && Live(s.rows, id) && s.rows[id].owner == owner && s.rows[id].storageKey in s.objects
      && size > 0
    requires !r.QueueFull? && Ends(r, done, false, Room(s, id))
    ensures P.Legal(s, run) && P.Exec(s, run) == Completed(s, id, size, mime, r, done, false)
  {
    var a: P.Action;
    if done == 0 || (done == 1 && r.DbFailed?) {
      run := ReachHeaded(s, p, owner, id, size, mime);
      a := P.Complete(p, P.MarkUploaded(if done == 0 then P.Refused else P.AppliedAnyway));
    } else {
      run := ReachUploaded(s, p, owner, id, size, mime);
      a := if done == 1 then P.Abandon(p) else P.Complete(p, P.MarkProcessing(P.AppliedAnyway));
    }
    run := OneMore(s, run, a);
    assert P.Exec(s, run).procs == s.procs;
  }

  lemma OneMore(s: P.State, run: seq<P.Action>, a: P.Action) returns (longer: seq<P.Action>)
    requires P.Legal(s, run) && P.Enabled(P.Exec(s, run), a)
    ensures P.Legal(s, longer) && P.Exec(s, longer) == P.Do(P.Exec(s, run), a)
  {
    MediaSafety.RunAppend(s, run, a);
    longer := run + [a];
  }

  /** An upload that stores its row is a run: with the URL released to the client, or, when
      the insert reports an error or anything after it fails, without. */
  lemma InitIsARun(s: P.State, p: nat, after: Rows, mediaID: string, lower: char -> char, owner: string,
                   fileName: string, contentType: string, size: int, objectURL: string -> string, released: bool)
    returns (run: seq<P.Action>)
    requires p !in s.procs && Component(mediaID) && Component(owner) && mediaID !in s.foreign
    requires Inserted(s.rows, after, mediaID, lower, owner, fileName, contentType, size,
      OriginalKey(owner, mediaID, fileName), objectURL)
    ensures P.Legal(s, run)
    ensures P.Exec(s, run) ==
      s.(rows := after, urls := if released then s.urls + {P.Upload(mediaID, owner, fileName)} else s.urls)
  {
    var u, row := P.Upload(mediaID, owner, fileName), after[mediaID];
    run := ReachCreated(s, p, u, row);
    assert s.rows[u.id := row] == after;
    run := Release(s, run, s.(rows := after), p, u, released);
  }

  lemma Release(s: P.State, before: seq<P.Action>, t: P.State, p: nat, u: P.Upload, released: bool)
    returns (run: seq<P.Action>)
    requires P.Legal(s, before) && p !in t.procs && P.Exec(s, before) == t.(procs := t.procs[p := P.InitCreated(u)])
    ensures P.Legal(s, run) && P.Exec(s, run) == t.(urls := if released then t.urls + {u} else t.urls)
  {
    run := OneMore(s, before, if released then P.Init(p, P.ReleaseUrl) else P.Abandon(p));
    assert t.procs[p := P.InitCreated(u)] - {p} == t.procs;
  }

  lemma ReachCreated(s: P.State, p: nat, u: P.Upload, row: MediaRow) returns (run: seq<P.Action>)
    requires p !in s.procs && Component(u.id) && Component(u.owner) && u.id !in s.foreign && u.id !in s.rows
    requires row == MediaRow(u.owner, row.title, u.name, P.UploadKey(u), Uploading, row.sizeBytes, row.mime,
      row.playbackUrl, None, None, None)
    ensures P.Legal(s, run)
    ensures P.Exec(s, run) == s.(rows := s.rows[u.id := row], procs := s.procs[p := P.InitCreated(u)])
  {
    run := OneMore(s, [], P.Init(p, P.StartInit(u)));
    run := OneMore(s, run, P.Init(p, P.CreateRow(row.title, row.sizeBytes, row.mime, row.playbackUrl)));
  }

  /** One way a job is stranded: the queue is full and the failure mark is refused by a
      fault. The program goes on. */
  lemma LostMarkStrands(s: P.State, p: nat, owner: string, id: string, size: int, mime: string)
    returns (run: seq<P.Action>)
    requires p !in s.procs && Live(s.rows, id) && s.rows[id].owner == owner && s.rows[id].storageKey in s.objects
      && size > 0
    requires |s.queue| >= s.capacity && !P.Cared(s, id)
    ensures P.Legal(s, run)
    ensures var t := P.Exec(s, run); StrandedJobs.Stranded(t, id) && t.queue == s.queue && t.procs == s.procs
  {
    run := ReachMarked(s, p, owner, id, size, mime);
    run := OneMore(s, run, P.Complete(p, P.EnqueueJob));
    run := OneMore(s, run, P.Complete(p, P.MarkRejected(P.Refused)));
    assert P.Exec(s, run).procs == s.procs;
  }

  lemma ReachMarked(s: P.State, p: nat, owner: string, id: string, size: int, mime: string) returns (run: seq<P.Action>)
    requires p !in s.procs && Live(s.rows, id) && s.rows[id].owner == owner && s.rows[id].storageKey in s.objects
      && size > 0
    ensures P.Legal(s, run)
    ensures P.Exec(s, run) == s.(rows := Marked(s.rows, id, size, mime, 2), procs := s.procs[p := P.CompleteMarked(id)])
  {
    run := ReachUploaded(s, p, owner, id, size, mime);
    run := OneMore(s, run, P.Complete(p, P.MarkProcessing(P.Done)));
    assert Marked(s.rows, id, size, mime, 2) == Apply(Marked(s.rows, id, size, mime, 1), SetStatus(id, Processing));
  }

  lemma ReachUploaded(s: P.State, p: nat, owner: string, id: string, size: int, mime: string)
    returns (run: seq<P.Action>)
    requires p !in s.procs && Live(s.rows, id) && s.rows[id].owner == owner && s.rows[id].storageKey in s.objects
      && size > 0
    ensures P.Legal(s, run)
    ensures P.Exec(s, run) == s.(rows := Marked(s.rows, id, size, mime, 1),
      procs := s.procs[p := P.CompleteUploaded(id)])
  {
    run := ReachHeaded(s, p, owner, id, size, mime);
    run := OneMore(s, run, P.Complete(p, P.MarkUploaded(P.Done)));
  }

  lemma ReachHeaded(s: P.State, p: nat, owner: string, id: string, size: int, mime: string) returns (run: seq<P.Action>)
    requires p !in s.procs && Live(s.rows, id) && s.rows[id].owner == owner && s.rows[id].storageKey in s.objects
      && size > 0
    ensures P.Legal(s, run) && P.Exec(s, run) == s.(procs := s.procs[p := P.CompleteHeaded(id, size, mime)])
  {
    run := OneMore(s, [], P.Complete(p, P.StartComplete(id, owner)));
    run := OneMore(s, run, P.Complete(p, P.HeadFound(size, mime)));
  }
}
