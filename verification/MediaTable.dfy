/** The `media` table and its repository. Every update is guarded by
    `deleted_at IS NULL`, so a soft-deleted row is out of reach of all of them. */
module MediaTable {
  import opened Text
  import opened Faults

  datatype MediaStatus = Uploading | Uploaded | Processing | Ready | Failed

  datatype MediaRow = MediaRow(
    owner: string,
    title: string,
    originalName: string,
    storageKey: string,
    status: MediaStatus,
    sizeBytes: int,
    mime: string,
    playbackUrl: string,
    previewUrl: Option<string>,
    durationSec: Option<int>,
    deletedAt: Option<int>)

  type Rows = map<string, MediaRow>

  predicate Live(rows: Rows, id: string) { id in rows && rows[id].deletedAt.None? }

  datatype RowOp =
    | Create(id: string, row: MediaRow)
    | SetUploadState(id: string, status: MediaStatus, sizeBytes: int, mime: string)
    | SetStatus(id: string, status: MediaStatus)
    | SetTranscodeResult(id: string, playbackUrl: string, previewUrl: Option<string>, durationSec: Option<int>,
                          status: MediaStatus)
    | SoftDelete(id: string, deletedAt: int)

  /** The effect of one statement: an insert is refused for a known primary key, an
      update touches the row only while it is live. */
  function Apply(rows: Rows, op: RowOp): Rows {
    match op
    case Create(id, row) => if id in rows then rows else rows[id := row]
    case SetUploadState(id, status, size, mime) =>
      if Live(rows, id) then rows[id := rows[id].(status := status, sizeBytes := size, mime := mime)] else rows
    case SetStatus(id, status) =>
      if Live(rows, id) then rows[id := rows[id].(status := status)] else rows
    case SetTranscodeResult(id, url, preview, duration, status) =>
      if Live(rows, id) then
        rows[id := rows[id].(status := status, playbackUrl := url, previewUrl := preview,
                             durationSec := duration, mime := "application/vnd.apple.mpegurl")]
      else rows
    case SoftDelete(id, at) =>
      if Live(rows, id) then rows[id := rows[id].(deletedAt := Some(at))] else rows
  }

  function ApplyAll(rows: Rows, ops: seq<RowOp>): Rows
    decreases |ops|
  {
    if ops == [] then rows else ApplyAll(Apply(rows, ops[0]), ops[1..])
  }

  /** How the table may move: rows stay, keep owner and storage key, and a soft-deleted
      row is frozen whole. */
  predicate Evolves(before: Rows, after: Rows) {
    forall id :: id in before ==>
      && id in after
      && after[id].owner == before[id].owner
      && after[id].storageKey == before[id].storageKey
      && (before[id].deletedAt.Some? ==> after[id] == before[id])
  }

  /** What each statement sets, and that it leaves the rest of the row, and every other row, as
      they were: a live row for the four updates, a new id for the insert, nothing else. */
  lemma StatementSets(rows: Rows, op: RowOp)
    ensures var after := Apply(rows, op);
      && (forall id :: id in after <==> id in rows || (op.Create? && id == op.id))
      && (forall id :: id in rows && (id != op.id || op.Create? || !Live(rows, id)) ==> after[id] == rows[id])
      && (op.Create? && op.id !in rows ==> after[op.id] == op.row)
      && (!op.Create? && Live(rows, op.id) ==>
        && after[op.id].owner == rows[op.id].owner && after[op.id].title == rows[op.id].title
        && after[op.id].originalName == rows[op.id].originalName
        && after[op.id].storageKey == rows[op.id].storageKey
        && after[op.id].status == (if op.SoftDelete? then rows[op.id].status else op.status)
        && after[op.id].sizeBytes == (if op.SetUploadState? then op.sizeBytes else rows[op.id].sizeBytes)
        && after[op.id].mime == (
             if op.SetUploadState? then op.mime
             else if op.SetTranscodeResult? then "application/vnd.apple.mpegurl"
             else rows[op.id].mime)
        && after[op.id].playbackUrl == (if op.SetTranscodeResult? then op.playbackUrl else rows[op.id].playbackUrl)
        && after[op.id].previewUrl == (if op.SetTranscodeResult? then op.previewUrl else rows[op.id].previewUrl)
        && after[op.id].durationSec == (if op.SetTranscodeResult? then op.durationSec else rows[op.id].durationSec)
        && after[op.id].deletedAt == (if op.SoftDelete? then Some(op.deletedAt) else None))
  {
  }

  lemma StatementEvolves(rows: Rows, op: RowOp)
    ensures Evolves(rows, Apply(rows, op))
  {
  }

  lemma EvolvesTransitive(a: Rows, b: Rows, c: Rows)
    requires Evolves(a, b) && Evolves(b, c)
    ensures Evolves(a, c)
  {
  }

  /** Soft deletion is permanent and identity is fixed under every sequence of
      repository statements, in whatever order requests interleave them. */
  lemma {:induction false} StatementsEvolve(rows: Rows, ops: seq<RowOp>)
    ensures Evolves(rows, ApplyAll(rows, ops))
    decreases |ops|
  {
    if ops != [] {
      StatementEvolves(rows, ops[0]);
      StatementsEvolve(Apply(rows, ops[0]), ops[1..]);
      EvolvesTransitive(rows, Apply(rows, ops[0]), ApplyAll(rows, ops));
    }
  }

  datatype RepoError = NotFound | Conflict | Fault

  /** `PostgresMediaRepository`. A Fault is any database error; a statement that reports one
      has had its effect or has not. */
  class MediaRepository {
    var rows: Rows
    var calls: nat                       // statements so far
    const faults: nat -> Fault           // how the n-th of them ends
    ghost var queries: seq<seq<string>>  // the lists asked of ListExistingIDs

    constructor (faults: nat -> Fault)
      ensures rows == map[] && calls == 0 && this.faults == faults && queries == []
    {
      rows, calls, this.faults, queries := map[], 0, faults, [];
    }

    method Create(id: string, row: MediaRow) returns (err: Option<RepoError>)
      modifies `rows, `calls
      ensures calls == old(calls) + 1
      ensures err == Some(RepoError.Fault) <==> !faults(old(calls)).NoFault?
      ensures faults(old(calls)).NoFault? ==> err == if id in old(rows) then Some(Conflict) else None
      ensures rows == if faults(old(calls)).LostCall? then old(rows) else Apply(old(rows), RowOp.Create(id, row))
      ensures id in old(rows) ==> rows == old(rows)
      ensures id !in old(rows) && !faults(old(calls)).LostCall? ==> rows == old(rows)[id := row]
    {
      var fault := faults(calls);
      calls := calls + 1;
      if fault.LostCall? { return Some(RepoError.Fault); }
      var conflict := id in rows;
      if !conflict { rows := rows[id := row]; }
      if fault.LostReply? { return Some(RepoError.Fault); }
      return if conflict then Some(Conflict) else None;
    }

    method GetByID(id: string) returns (row: Option<MediaRow>, err: Option<RepoError>)
      modifies `calls
      ensures calls == old(calls) + 1
      ensures err == Some(RepoError.Fault) <==> !faults(old(calls)).NoFault?
      ensures err == Some(NotFound) <==> faults(old(calls)).NoFault? && !Live(rows, id)
      ensures err.None? <==> faults(old(calls)).NoFault? && Live(rows, id)
      ensures err.None? <==> row.Some?
      ensures row.Some? ==> Live(rows, id) && row.value == rows[id]
    {
      var fault := faults(calls);
      calls := calls + 1;
      if !fault.NoFault? { return None, Some(RepoError.Fault); }
      if id in rows && rows[id].deletedAt.None? { return Some(rows[id]), None; }
      return None, Some(NotFound);
    }

    /** The ids of the list that have a live row, each once, in no promised order. The empty
        list is answered without a query. */
    method ListExistingIDs(ids: seq<string>) returns (existing: seq<string>, ok: bool)
      modifies `calls, `queries
      ensures queries == old(queries) + [ids]
      ensures calls == if ids == [] then old(calls) else old(calls) + 1
      ensures ok <==> ids == [] || faults(old(calls)).NoFault?
      ensures ok ==> forall id :: id in existing <==> id in ids && Live(rows, id)
      ensures ok ==> forall i, j :: 0 <= i < j < |existing| ==> existing[i] != existing[j]
    {
      existing := [];
      queries := queries + [ids];
      if |ids| == 0 { return existing, true; }
      var fault := faults(calls);
      calls := calls + 1;
      if !fault.NoFault? { return [], false; }
      var hits := set id | id in ids && Live(rows, id);
      while hits != {}
        invariant forall id :: id in existing || id in hits <==> id in ids && Live(rows, id)
        invariant forall id :: id in existing ==> id !in hits
        invariant forall i, j :: 0 <= i < j < |existing| ==> existing[i] != existing[j]
        decreases |hits|
      {
        var id :| id in hits;
        hits := hits - {id};
        existing := existing + [id];
      }
      return existing, true;
    }

    /** UpdateUploadState, UpdateStatus, UpdateTranscodeResult and SoftDelete. What they set
        is spelled out in `StatementSets`. */
    method Update(op: RowOp) returns (err: Option<RepoError>)
      requires !op.Create?
      modifies `rows, `calls
      ensures calls == old(calls) + 1
      ensures err == Some(RepoError.Fault) <==> !faults(old(calls)).NoFault?
      ensures faults(old(calls)).NoFault? ==> err == if Live(old(rows), op.id) then None else Some(NotFound)
      ensures rows == if faults(old(calls)).LostCall? then old(rows) else Apply(old(rows), op)
    {
      var fault := faults(calls);
      calls := calls + 1;
      if fault.LostCall? { return Some(RepoError.Fault); }
      var found := op.id in rows && rows[op.id].deletedAt.None?;
      if found {
        match op {
          case SetUploadState(id, status, size, mime) =>
            rows := rows[id := rows[id].(status := status, sizeBytes := size, mime := mime)];
          case SetStatus(id, status) =>
            rows := rows[id := rows[id].(status := status)];
          case SetTranscodeResult(id, url, preview, duration, status) =>
            rows := rows[id := rows[id].(status := status, playbackUrl := url, previewUrl := preview,
                                         durationSec := duration, mime := "application/vnd.apple.mpegurl")];
          case SoftDelete(id, at) =>
            rows := rows[id := rows[id].(deletedAt := Some(at))];
        }
      }
      if fault.LostReply? { return Some(RepoError.Fault); }
      return if found then None else Some(NotFound);
    }
  }
}
