/** Rooms: the `rooms` table, ending a room by its owner or by the stale-room sweep, and
    changing its media. Each request reads a room and later writes it under a guard (or,
    for the media, under none); statements of other requests run in between. */
module Rooms {
  import opened Text
  import MediaTable

  datatype RoomStatus = Pending | Active | Ended

  datatype Room = Room(
    name: string,
    owner: string,
    mediaID: Option<string>,
    status: RoomStatus,
    createdAt: int,
    endedAt: Option<int>)

  type Rows = map<string, Room>

  datatype RowOp =
    | InsertRoom(id: string, room: Room)
    | EndActive(id: string, at: int)
    | SetMedia(id: string, mediaID: Option<string>)

  predicate IsActive(rows: Rows, id: string) { id in rows && rows[id].status.Active? }

  /** One statement. The insert does not write `ended_at`. */
  function Apply(rows: Rows, op: RowOp): Rows {
    match op
    case InsertRoom(id, room) => if id in rows then rows else rows[id := room.(endedAt := None)]
    case EndActive(id, at) =>
      if IsActive(rows, id) then rows[id := rows[id].(status := Ended, endedAt := Some(at))] else rows
    case SetMedia(id, mediaID) => if id in rows then rows[id := rows[id].(mediaID := mediaID)] else rows
  }

  function ApplyAll(rows: Rows, ops: seq<RowOp>): Rows
    decreases |ops|
  {
    if ops == [] then rows else ApplyAll(Apply(rows, ops[0]), ops[1..])
  }

  lemma {:induction false} ApplyAllJoin(rows: Rows, a: seq<RowOp>, b: seq<RowOp>)
    ensures ApplyAll(rows, a + b) == ApplyAll(ApplyAll(rows, a), b)
    decreases |a|
  {
    if a == [] {
      assert a + b == b;
    } else {
      assert (a + b)[0] == a[0] && (a + b)[1..] == a[1..] + b;
      ApplyAllJoin(Apply(rows, a[0]), a[1..], b);
    }
  }

  /** How the table may move: only an active room changes its status, and only to ended;
      the end time of a room that is not active never changes. */
  predicate Evolves(before: Rows, after: Rows) {
    forall id :: id in before ==>
      && id in after
      && after[id].(mediaID := before[id].mediaID) ==
        before[id].(status := after[id].status, endedAt := after[id].endedAt)
      && (after[id].status != before[id].status ==> before[id].status.Active? && after[id].status.Ended?)
      && (!before[id].status.Active? ==> after[id].endedAt == before[id].endedAt)
  }

  lemma {:induction false} StatementsEvolve(rows: Rows, ops: seq<RowOp>)
    ensures Evolves(rows, ApplyAll(rows, ops))
    decreases |ops|
  {
    if ops != [] {
      assert Evolves(rows, Apply(rows, ops[0]));
      StatementsEvolve(Apply(rows, ops[0]), ops[1..]);
    }
  }

  /** How many statements of `ops` end room `id`. */
  function TimesEnded(rows: Rows, ops: seq<RowOp>, id: string): nat
    decreases |ops|
  {
    if ops == [] then 0 else
    (if ops[0].EndActive? && ops[0].id == id && IsActive(rows, id) then 1 else 0)
      + TimesEnded(Apply(rows, ops[0]), ops[1..], id)
  }

  /** Whatever statements are interleaved, a room is ended at most once: exactly when it
      was active (or is inserted active) and is ended after them. */
  lemma {:induction false} EndedAtMostOnce(rows: Rows, ops: seq<RowOp>, id: string)
    ensures TimesEnded(rows, ops, id) <= 1
    ensures id in rows ==>
      (TimesEnded(rows, ops, id) == 1 <==> IsActive(rows, id) && !IsActive(ApplyAll(rows, ops), id))
    decreases |ops|
  {
    if ops != [] {
      var next := Apply(rows, ops[0]);
      EndedAtMostOnce(next, ops[1..], id);
      StatementsEvolve(next, ops[1..]);
    }
  }

  // ---- ending one room -----------------------------------------------------------------

  /** What goes wrong in one request. A failed update may have been applied. */
  datatype Fault = NoFault | ReadFault | WriteFault(applied: bool) | LiveKitFault

  /** One request to end a room: statements of others before its read and between read and
      update, the time of its end, and its fault. */
  datatype Env = Env(before: seq<RowOp>, between: seq<RowOp>, at: int, fault: Fault)

  datatype Reply = Closed(room: Room) | NotFound | Failed | Forbidden

  datatype Outcome = Outcome(rows: Rows, reply: Reply, livekitAsked: bool)

  /** From the read row on. */
  function Ending(rows: Rows, id: string, room: Room, env: Env): Outcome {
    if !room.status.Active? then Outcome(rows, Closed(room), false) else
    var mid := ApplyAll(rows, env.between);
    if env.fault == WriteFault(false) then Outcome(mid, Failed, false) else
    var after := Apply(mid, EndActive(id, env.at));
    if env.fault.WriteFault? then Outcome(after, Failed, false) else
    if !IsActive(mid, id) then Outcome(after, NotFound, false) else
    if env.fault.LiveKitFault? then Outcome(after, Failed, true) else
    Outcome(after, Closed(room.(status := Ended, endedAt := Some(env.at))), true)
  }

  /** EndRoom, and EndRoomByOwner when `owner` is given. */
  function EndingById(before: Rows, id: string, owner: Option<string>, env: Env): Outcome {
    var rows := ApplyAll(before, env.before);
    if env.fault.ReadFault? then Outcome(rows, Failed, false) else
    if id !in rows then Outcome(rows, NotFound, false) else
    if owner.Some? && rows[id].owner != owner.value then Outcome(rows, Forbidden, false) else
    Ending(rows, id, rows[id], env)
  }

  /** LiveKit is asked exactly if the room was active as read, this request's own update ended
      it - it was still active when that ran, and is ended by it at its time - and no database
      error was reported. */
  lemma LiveKitAskedIff(before: Rows, id: string, owner: Option<string>, env: Env)
    ensures var o, read := EndingById(before, id, owner, env), ApplyAll(before, env.before);
      var mid := ApplyAll(read, env.between);
      && (o.livekitAsked <==>
        && !env.fault.ReadFault? && !env.fault.WriteFault?
        && id in read && (owner.Some? ==> read[id].owner == owner.value) && read[id].status == Active
        && id in mid && mid[id].status == Active
        && id in o.rows && o.rows[id].status == Ended && o.rows[id].endedAt == Some(env.at))
      && (o.livekitAsked && env.fault.NoFault? ==> o.reply.Closed?)
  {
    StatementsEvolve(ApplyAll(before, env.before), env.between);
  }

  /** The statements of a request, its own and the others'. */
  function StatementsOf(before: Rows, id: string, owner: Option<string>, env: Env): seq<RowOp> {
    var rows := ApplyAll(before, env.before);
    if env.fault.ReadFault? || id !in rows || (owner.Some? && rows[id].owner != owner.value)
      || !rows[id].status.Active? then env.before
    else if env.fault == WriteFault(false) then env.before + env.between
    else env.before + env.between + [EndActive(id, env.at)]
  }

  lemma EndingIsStatements(before: Rows, id: string, owner: Option<string>, env: Env)
    ensures EndingById(before, id, owner, env).rows == ApplyAll(before, StatementsOf(before, id, owner, env))
  {
    ApplyAllJoin(before, env.before, env.between);
    ApplyAllJoin(before, env.before + env.between, [EndActive(id, env.at)]);
  }

  /** A reply that a room is closed is true, whatever ran in between, and describes the
      stored room but for its media; so is one that it is gone, or it never was there. */
  lemma ReplyIsTrue(before: Rows, id: string, owner: Option<string>, env: Env)
    ensures var o := EndingById(before, id, owner, env);
      && (o.reply.Closed? ==> id in o.rows && !o.rows[id].status.Active?)
      && (o.reply.Closed? ==> o.rows[id].(mediaID := o.reply.room.mediaID) == o.reply.room)
      && (o.reply.NotFound? && id in o.rows ==> o.rows[id].status.Ended?)
      && (env.fault.NoFault? ==> !o.reply.Failed?)
      && (env.fault.NoFault? && !o.reply.Forbidden? ==> !IsActive(o.rows, id))
      && (owner.Some? && id in before && before[id].owner != owner.value && !env.fault.ReadFault? ==>
        o.reply.Forbidden?)
  {
    StatementsEvolve(before, env.before);
    StatementsEvolve(ApplyAll(before, env.before), env.between);
  }

  /** When LiveKit refuses, the room is ended in the table although the request fails, and
      no later request to end it asks LiveKit again: it finds the room ended and succeeds. */
  lemma LiveKitFailureIsNotRetried(before: Rows, id: string, owner: Option<string>, env: Env, later: Env)
    requires EndingById(before, id, owner, env).livekitAsked && EndingById(before, id, owner, env).reply.Failed?
    requires later.fault.NoFault?
    ensures var o := EndingById(before, id, owner, env);
      var again := EndingById(o.rows, id, owner, later);
      && o.rows[id].status.Ended?
      && again.reply.Closed? && !again.livekitAsked && again.rows == ApplyAll(o.rows, later.before)
  {
    var o := EndingById(before, id, owner, env);
    StatementsEvolve(ApplyAll(before, env.before), env.between);
    StatementsEvolve(o.rows, later.before);
  }

  // ---- the sweep of stale rooms ----------------------------------------------------------

  const DAY_IN_SECONDS := 24 * 60 * 60

  function MinAge(minActive: int): int { if minActive <= 0 then DAY_IN_SECONDS else minActive }

  predicate Stale(room: Room, minActive: int, now: int) { now - room.createdAt >= MinAge(minActive) }

  /** `asked` are the rooms LiveKit was asked to delete, by name. */
  datatype Swept = Swept(rows: Rows, replies: seq<Reply>, asked: seq<string>)

  /** The sweep after its first n stale rooms. */
  function SweepUpTo(rows: Rows, stale: seq<string>, envs: nat -> Env, n: nat): (s: Swept)
    requires n <= |stale|
    ensures |s.replies| == n
  {
    if n == 0 then Swept(rows, [], []) else
    var s := SweepUpTo(rows, stale, envs, n - 1);
    var o := EndingById(s.rows, stale[n - 1], None, envs(n - 1));
    Swept(o.rows, s.replies + [o.reply], s.asked + AskedFor(o, stale[n - 1]))
  }

  function AskedFor(o: Outcome, id: string): seq<string> {
    if o.livekitAsked && id in o.rows then [o.rows[id].name] else []
  }

  /** The room is active when its turn in the sweep reads it and when it updates it. */
  predicate EndsItself(rows: Rows, stale: seq<string>, envs: nat -> Env, k: nat)
    requires k < |stale|
  {
    var read := ApplyAll(SweepUpTo(rows, stale, envs, k).rows, envs(k).before);
    IsActive(read, stale[k]) && IsActive(ApplyAll(read, envs(k).between), stale[k])
  }

  /** The names of the rooms the sweep itself ends. */
  function EndedNames(rows: Rows, stale: seq<string>, envs: nat -> Env, n: nat): seq<string>
    requires n <= |stale| && forall k :: 0 <= k < n ==> stale[k] in rows
  {
    if n == 0 then []
    else
      EndedNames(rows, stale, envs, n - 1)
        + if EndsItself(rows, stale, envs, n - 1) then [rows[stale[n - 1]].name] else []
  }

  /** In a sweep without faults LiveKit is asked once for every room the sweep itself ends, by
      its name, in order, and for no other. */
  lemma {:induction false} SweepAsksLiveKit(rows: Rows, stale: seq<string>, envs: nat -> Env, n: nat)
    requires n <= |stale| && FaultFree(envs, n) && forall k :: 0 <= k < n ==> stale[k] in rows
    ensures SweepUpTo(rows, stale, envs, n).asked == EndedNames(rows, stale, envs, n)
  {
    if n > 0 {
      SweepAsksLiveKit(rows, stale, envs, n - 1);
      SweepEvolves(rows, stale, envs, n - 1);
      TurnAsks(SweepUpTo(rows, stale, envs, n - 1).rows, stale[n - 1], envs(n - 1));
    }
  }

  /** One turn without faults. */
  lemma TurnAsks(rows: Rows, id: string, env: Env)
    requires env.fault.NoFault? && id in rows
    ensures var read := ApplyAll(rows, env.before);
      AskedFor(EndingById(rows, id, None, env), id) ==
        if IsActive(read, id) && IsActive(ApplyAll(read, env.between), id) then [rows[id].name] else []
  {
    var read := ApplyAll(rows, env.before);
    StatementsEvolve(rows, env.before);
    StatementsEvolve(read, env.between);
    assert EndingById(rows, id, None, env) == Ending(read, id, read[id], env);
    EndingAsks(read, id, env);
  }

  lemma EndingAsks(read: Rows, id: string, env: Env)
    requires env.fault.NoFault? && id in read && Evolves(read, ApplyAll(read, env.between))
    ensures AskedFor(Ending(read, id, read[id], env), id) ==
      if IsActive(read, id) && IsActive(ApplyAll(read, env.between), id) then [read[id].name] else []
  {
  }

  function CountClosed(replies: seq<Reply>): nat {
    if replies == [] then 0 else CountClosed(replies[..|replies| - 1]) + if replies[|replies| - 1].Closed? then 1 else 0
  }

  function CountFailed(replies: seq<Reply>): nat {
    if replies == [] then 0 else CountFailed(replies[..|replies| - 1]) + if replies[|replies| - 1].Failed? then 1 else 0
  }

  function CountNotFound(replies: seq<Reply>): nat {
    if replies == [] then 0
    else CountNotFound(replies[..|replies| - 1]) + if replies[|replies| - 1].NotFound? then 1 else 0
  }

  lemma CountOneMore(replies: seq<Reply>, r: Reply)
    ensures CountClosed(replies + [r]) == CountClosed(replies) + if r.Closed? then 1 else 0
    ensures CountFailed(replies + [r]) == CountFailed(replies) + if r.Failed? then 1 else 0
    ensures CountNotFound(replies + [r]) == CountNotFound(replies) + if r.NotFound? then 1 else 0
  {
    assert (replies + [r])[..|replies|] == replies;
  }

  lemma {:induction false} CountsAddUp(replies: seq<Reply>)
    requires forall k :: 0 <= k < |replies| ==> !replies[k].Forbidden?
    ensures CountClosed(replies) + CountFailed(replies) + CountNotFound(replies) == |replies|
    ensures CountFailed(replies) == 0 <==> forall k :: 0 <= k < |replies| ==> !replies[k].Failed?
  {
    if replies != [] { CountsAddUp(replies[..|replies| - 1]); }
  }

  predicate FaultFree(envs: nat -> Env, n: nat) { forall k: nat :: k < n ==> envs(k).fault.NoFault? }

  lemma {:induction false} SweepReplies(rows: Rows, stale: seq<string>, envs: nat -> Env, n: nat)
    requires n <= |stale|
    ensures forall k :: 0 <= k < n ==> !SweepUpTo(rows, stale, envs, n).replies[k].Forbidden?
    ensures FaultFree(envs, n) ==> forall k :: 0 <= k < n ==> !SweepUpTo(rows, stale, envs, n).replies[k].Failed?
  {
    if n > 0 { SweepReplies(rows, stale, envs, n - 1); }
  }

  /** Closed, failed and vanished rooms add up to the stale rooms listed, and without
      faults none has failed. */
  lemma SweepAccounting(rows: Rows, stale: seq<string>, envs: nat -> Env)
    ensures var replies := SweepUpTo(rows, stale, envs, |stale|).replies;
      && CountClosed(replies) + CountFailed(replies) + CountNotFound(replies) == |stale|
      && (FaultFree(envs, |stale|) ==> CountFailed(replies) == 0)
  {
    SweepReplies(rows, stale, envs, |stale|);
    CountsAddUp(SweepUpTo(rows, stale, envs, |stale|).replies);
  }

  /** A sweep is a sequence of row statements, so `EndedAtMostOnce` covers it. */
  lemma {:induction false} SweepIsStatements(rows: Rows, stale: seq<string>, envs: nat -> Env, n: nat)
    returns (ops: seq<RowOp>)
    requires n <= |stale|
    ensures SweepUpTo(rows, stale, envs, n).rows == ApplyAll(rows, ops)
  {
    if n == 0 { return []; }
    ops := SweepIsStatements(rows, stale, envs, n - 1);
    var s := SweepUpTo(rows, stale, envs, n - 1);
    EndingIsStatements(s.rows, stale[n - 1], None, envs(n - 1));
    ApplyAllJoin(rows, ops, StatementsOf(s.rows, stale[n - 1], None, envs(n - 1)));
    ops := ops + StatementsOf(s.rows, stale[n - 1], None, envs(n - 1));
  }

  lemma SweepEvolves(rows: Rows, stale: seq<string>, envs: nat -> Env, n: nat)
    requires n <= |stale|
    ensures Evolves(rows, SweepUpTo(rows, stale, envs, n).rows)
  {
    var ops := SweepIsStatements(rows, stale, envs, n);
    StatementsEvolve(rows, ops);
  }

  /** Without faults, and whatever other requests do meanwhile, no stale room listed is
      active after its turn. */
  lemma {:induction false} SweepEndsEveryStaleRoom(rows: Rows, stale: seq<string>, envs: nat -> Env, n: nat, k: nat)
    requires k < n <= |stale| && FaultFree(envs, n) && stale[k] in rows
    ensures !IsActive(SweepUpTo(rows, stale, envs, n).rows, stale[k])
  {
    var s := SweepUpTo(rows, stale, envs, n - 1);
    FaultFreeEnding(s.rows, stale[n - 1], envs(n - 1));
    if k < n - 1 {
      SweepEndsEveryStaleRoom(rows, stale, envs, n - 1, k);
      SweepEvolves(rows, stale, envs, n - 1);
    }
  }

  lemma FaultFreeEnding(rows: Rows, id: string, env: Env)
    requires env.fault.NoFault?
    ensures var o := EndingById(rows, id, None, env);
      Evolves(rows, o.rows) && !IsActive(o.rows, id) && !o.reply.Failed?
  {
    ReplyIsTrue(rows, id, None, env);
    EndingIsStatements(rows, id, None, env);
    StatementsEvolve(rows, StatementsOf(rows, id, None, env));
  }

  predicate Quiet(env: Env) { env.before == [] && env.between == [] && env.fault.NoFault? }

  /** Alone and without faults, the sweep ends exactly the stale rooms, each at its time,
      and counts them all as closed. */
  lemma {:induction false} QuietSweepIsExact(rows: Rows, stale: seq<string>, envs: nat -> Env, n: nat, id: string)
    requires n <= |stale| && forall k :: 0 <= k < n ==> Quiet(envs(k))
    requires forall k :: 0 <= k < |stale| ==> IsActive(rows, stale[k])
    requires forall j, k :: 0 <= j < k < |stale| ==> stale[j] != stale[k]
    ensures QuietlySwept(rows, SweepUpTo(rows, stale, envs, n), stale, envs, n, id)
  {
    if n > 0 {
      QuietSweepIsExact(rows, stale, envs, n - 1, id);
      QuietSweepIsExact(rows, stale, envs, n - 1, stale[n - 1]);
      QuietTurn(rows, stale, envs, n);
      QuietNext(rows, SweepUpTo(rows, stale, envs, n - 1), SweepUpTo(rows, stale, envs, n), stale, envs, n, id);
    }
  }

  /** After the first n stale rooms: all of them closed, each ended at its own time, and all
      other rooms as they were. */
  ghost predicate QuietlySwept(rows: Rows, s: Swept, stale: seq<string>, envs: nat -> Env, n: nat, id: string)
    requires n <= |stale|
  {
    && CountClosed(s.replies) == n
    && (id in s.rows <==> id in rows)
    && (id in rows && id !in stale[..n] ==> s.rows[id] == rows[id])
    && (forall k :: 0 <= k < n && stale[k] == id ==>
      id in rows && s.rows[id] == rows[id].(status := Ended, endedAt := Some(envs(k).at)))
  }

  lemma QuietNext(rows: Rows, s: Swept, t: Swept, stale: seq<string>, envs: nat -> Env, n: nat, id: string)
    requires 0 < n <= |stale| && QuietlySwept(rows, s, stale, envs, n - 1, id) && stale[n - 1] in rows
    requires forall j, k :: 0 <= j < k < |stale| ==> stale[j] != stale[k]
    requires t.rows == s.rows[stale[n - 1] := rows[stale[n - 1]].(status := Ended, endedAt := Some(envs(n - 1).at))]
    requires CountClosed(t.replies) == CountClosed(s.replies) + 1
    ensures QuietlySwept(rows, t, stale, envs, n, id)
  {
    assert stale[..n] == stale[..n - 1] + [stale[n - 1]];
  }

  /** Its last turn. */
  lemma QuietTurn(rows: Rows, stale: seq<string>, envs: nat -> Env, n: nat)
    requires 0 < n <= |stale| && Quiet(envs(n - 1)) && IsActive(rows, stale[n - 1])
    requires forall j, k :: 0 <= j < k < |stale| ==> stale[j] != stale[k]
    requires var s, last := SweepUpTo(rows, stale, envs, n - 1), stale[n - 1];
      last in s.rows && (last !in stale[..n - 1] ==> s.rows[last] == rows[last])
    ensures var s, t := SweepUpTo(rows, stale, envs, n - 1), SweepUpTo(rows, stale, envs, n);
      var ended := rows[stale[n - 1]].(status := Ended, endedAt := Some(envs(n - 1).at));
      t.rows == s.rows[stale[n - 1] := ended] && CountClosed(t.replies) == CountClosed(s.replies) + 1
  {
    var s, last := SweepUpTo(rows, stale, envs, n - 1), stale[n - 1];
    assert last !in stale[..n - 1];
    QuietEnding(s.rows, last, envs(n - 1));
    CountOneMore(s.replies, EndingById(s.rows, last, None, envs(n - 1)).reply);
  }

  lemma QuietEnding(rows: Rows, id: string, env: Env)
    requires Quiet(env) && IsActive(rows, id)
    ensures var o, ended := EndingById(rows, id, None, env), rows[id].(status := Ended, endedAt := Some(env.at));
      o.rows == rows[id := ended] && o.reply == Closed(ended)
  {
  }

  // ---- repository and service -----------------------------------------------------------

  predicate CreatedInOrder(rooms: seq<(string, Room)>) {
    forall j, k :: 0 <= j < k < |rooms| ==> rooms[j].1.createdAt <= rooms[k].1.createdAt
  }

  class RoomRepository {
    var rows: Rows

    constructor ()
      ensures rows == map[]
    {
      rows := map[];
    }

    method Elsewhere(ops: seq<RowOp>)
      modifies this
      ensures rows == ApplyAll(old(rows), ops)
    {
      rows := ApplyAll(rows, ops);
    }

    method CreateRoom(id: string, room: Room) returns (ok: bool)
      modifies this
      ensures rows == Apply(old(rows), InsertRoom(id, room)) && ok == (id !in old(rows))
      ensures rows == if id in old(rows) then old(rows)
        else old(rows)[id := Room(room.name, room.owner, room.mediaID, room.status, room.createdAt, None)]
    {
      if id in rows { return false; }
      rows := rows[id := room.(endedAt := None)];
      return true;
    }

    method GetRoomByID(id: string) returns (room: Option<Room>)
      ensures room == if id in rows then Some(rows[id]) else None
    {
      return if id in rows then Some(rows[id]) else None;
    }

    method ListActiveRooms() returns (rooms: seq<(string, Room)>)
      ensures forall k :: 0 <= k < |rooms| ==> IsActive(rows, rooms[k].0) && rooms[k].1 == rows[rooms[k].0]
      ensures forall j, k :: 0 <= j < k < |rooms| ==> rooms[j].0 != rooms[k].0
      ensures forall id :: IsActive(rows, id) ==> (id, rows[id]) in rooms
      ensures CreatedInOrder(rooms)
    {
      rooms := [];
      var rest := set id | id in rows && rows[id].status.Active?;
      while rest != {}
        invariant forall id :: id in rest ==> IsActive(rows, id)
        invariant forall k :: 0 <= k < |rooms| ==>
          IsActive(rows, rooms[k].0) && rooms[k].1 == rows[rooms[k].0] && rooms[k].0 !in rest
        invariant forall j, k :: 0 <= j < k < |rooms| ==> rooms[j].0 != rooms[k].0
        invariant forall id :: IsActive(rows, id) ==> id in rest || (id, rows[id]) in rooms
        invariant CreatedInOrder(rooms)
        invariant forall k, id :: 0 <= k < |rooms| && id in rest ==> rooms[k].1.createdAt <= rows[id].createdAt
        decreases |rest|
      {
        OldestExists(rows, rest);
        var id :| id in rest && forall j :: j in rest ==> rows[id].createdAt <= rows[j].createdAt;
        rooms := rooms + [(id, rows[id])];
        rest := rest - {id};
      }
    }

    method EndRoom(id: string, at: int) returns (found: bool)
      modifies this
      ensures rows == Apply(old(rows), EndActive(id, at))
      ensures found <==> id in old(rows) && old(rows)[id].status == Active
      ensures var was := old(rows);
        rows == if !found then was else was[id :=
          Room(was[id].name, was[id].owner, was[id].mediaID, Ended, was[id].createdAt, Some(at))]
    {
      if id !in rows || !rows[id].status.Active? { return false; }
      rows := rows[id := rows[id].(status := Ended, endedAt := Some(at))];
      return true;
    }

    method UpdateRoomMedia(id: string, mediaID: Option<string>) returns (room: Option<Room>)
      modifies this
      ensures rows == Apply(old(rows), SetMedia(id, mediaID))
      ensures var was := old(rows);
        rows == if id !in was then was else was[id :=
          Room(was[id].name, was[id].owner, mediaID, was[id].status, was[id].createdAt, was[id].endedAt)]
      ensures room == if id in rows then Some(rows[id]) else None
    {
      if id !in rows { return None; }
      rows := rows[id := rows[id].(mediaID := mediaID)];
      return Some(rows[id]);
    }
  }

  lemma {:induction false} OldestExists(rows: Rows, ids: set<string>)
    requires ids != {} && ids <= rows.Keys
    ensures exists id :: id in ids && forall j :: j in ids ==> rows[id].createdAt <= rows[j].createdAt
    decreases |ids|
  {
    var i :| i in ids;
    var rest := ids - {i};
    if rest == {} {
      forall j | j in ids ensures j == i {
        assert j != i ==> j in rest;
      }
    } else {
      OldestExists(rows, rest);
      var o :| o in rest && forall j :: j in rest ==> rows[o].createdAt <= rows[j].createdAt;
      assert forall j :: j in ids ==> j == i || j in rest;
      if rows[i].createdAt < rows[o].createdAt {
        assert forall j :: j in ids ==> rows[i].createdAt <= rows[j].createdAt;
      }
    }
  }

  datatype Mode = Conference | Movie | OtherMode

  datatype Update = Updated(room: Room) | DbFailed | RoomMissing | NotOwner | RoomIsEnded | MediaRequired
    | MediaMissing | MediaForbidden
    | MediaNotReady | InvalidInput

  /** Which statement of UpdateRoomState meets a database error, if any; a failed update may
      have been applied. */
  datatype UpdateFault = NoUpdateFault | RoomReadFails | MediaReadFails | RoomWriteFails(applied: bool)

  /** The media a room may be switched to. */
  predicate MayShow(media: MediaTable.Rows, owner: string, mediaID: Option<string>) {
    && mediaID.Some? && mediaID.value != "" && MediaTable.Live(media, mediaID.value)
    && media[mediaID.value].owner == owner && media[mediaID.value].status.Ready?
  }

  /** The LiveKit server, with the names of the rooms it was asked to delete. */
  class LiveKit {
    ghost var asked: seq<string>

    constructor ()
      ensures asked == []
    {
      asked := [];
    }

    method DeleteRoom(name: string, fails: bool) returns (ok: bool)
      modifies this
      ensures asked == old(asked) + [name] && ok == !fails
    {
      asked := asked + [name];
      return !fails;
    }
  }

  class RoomService {
    const rooms: RoomRepository
    const lk: LiveKit

    constructor (rooms: RoomRepository, lk: LiveKit)
      ensures this.rooms == rooms && this.lk == lk
    {
      this.rooms, this.lk := rooms, lk;
    }

    /** EndRoomByOwner (owner given) and EndRoom. Each refusal has its cause: a failed read, no
        room, another owner; else the room as read is ended as `EndIfActive` says. */
    method EndRoomById(id: string, owner: Option<string>, env: Env) returns (reply: Reply, ghost livekitAsked: bool)
      modifies rooms, lk
      ensures Outcome(rooms.rows, reply, livekitAsked) == EndingById(old(rooms.rows), id, owner, env)
      ensures var read := ApplyAll(old(rooms.rows), env.before);
        var mine := !env.fault.ReadFault? && id in read && (owner.Some? ==> read[id].owner == owner.value);
        && (reply.Forbidden? <==> !env.fault.ReadFault? && id in read && !mine)
        && (env.fault.ReadFault? ==> reply.Failed?) && (!env.fault.ReadFault? && id !in read ==> reply.NotFound?)
        && (!mine ==> rooms.rows == read && lk.asked == old(lk.asked) && !livekitAsked)
        && (mine ==> EndedAs(read, rooms.rows, old(lk.asked), lk.asked, id, read[id], env, reply, livekitAsked))
    {
      livekitAsked := false;
      rooms.Elsewhere(env.before);
      if env.fault.ReadFault? { return Failed, livekitAsked; }
      var room := rooms.GetRoomByID(id);
      if room.None? { return NotFound, livekitAsked; }
      if owner.Some? && room.value.owner != owner.value { return Forbidden, livekitAsked; }
      reply, livekitAsked := EndIfActive(id, room.value, env);
    }

    /** A room that is not active is left alone. Else its row is ended if it is still active,
        then LiveKit is asked to delete the room of that name, and only if the update went
        through: not after an error, nor when another request ended the room first. */
    method EndIfActive(id: string, room: Room, env: Env) returns (reply: Reply, ghost livekitAsked: bool)
      modifies rooms, lk
      ensures Outcome(rooms.rows, reply, livekitAsked) == Ending(old(rooms.rows), id, room, env)
      ensures EndedAs(old(rooms.rows), rooms.rows, old(lk.asked), lk.asked, id, room, env, reply, livekitAsked)
    {
      livekitAsked := false;
      if !room.status.Active? { return Closed(room), livekitAsked; }
      rooms.Elsewhere(env.between);
      if env.fault == WriteFault(false) { return Failed, livekitAsked; }
      var found := rooms.EndRoom(id, env.at);
      if env.fault.WriteFault? { return Failed, livekitAsked; }
      if !found { return NotFound, livekitAsked; }
      livekitAsked := true;
      var deleted := lk.DeleteRoom(room.name, env.fault.LiveKitFault?);
      if !deleted { return Failed, livekitAsked; }
      return Closed(room.(status := Ended, endedAt := Some(env.at))), livekitAsked;
    }

    /** How a request that has read this room ends: what it leaves, answers and asks. */
    predicate EndedAs(before: Rows, after: Rows, askedBefore: seq<string>, askedAfter: seq<string>, id: string,
                      room: Room, env: Env, reply: Reply, livekitAsked: bool) {
      var active, mid := room.status == Active, ApplyAll(before, env.between);
      var still := id in mid && mid[id].status == Active;
      && (livekitAsked <==> active && still && !env.fault.WriteFault?)
      && askedAfter == askedBefore + (if livekitAsked then [room.name] else [])
      && (reply.Closed? <==> !active || (livekitAsked && !env.fault.LiveKitFault?))
      && (reply.NotFound? <==> active && !env.fault.WriteFault? && !still)
      && (reply.Failed? <==> active && (env.fault.WriteFault? || (livekitAsked && env.fault.LiveKitFault?)))
      && (reply.Closed? ==> reply.room == if !active then room
           else Room(room.name, room.owner, room.mediaID, Ended, room.createdAt, Some(env.at)))
      && after == if !active then before else if !still || env.fault == WriteFault(false) then mid
           else mid[id := Room(mid[id].name, mid[id].owner, mid[id].mediaID, Ended, mid[id].createdAt, Some(env.at))]
    }

    /** One turn of the sweep. */
    method EndStale(id: string, envs: nat -> Env, turn: nat, closed: nat, failed: nat, ghost start: Rows,
                    ghost stale: seq<string>, ghost asked: seq<string>)
      returns (nowClosed: nat, nowFailed: nat)
      requires turn == |stale| && Tallies(start, stale, envs, rooms.rows, closed, failed, asked, lk.asked)
      modifies rooms, lk
      ensures Tallies(start, stale + [id], envs, rooms.rows, nowClosed, nowFailed, asked, lk.asked)
    {
      StepOfSweep(start, stale, id, envs);
      NameAsRead(start, stale, id, envs);
      var reply, _ := EndRoomById(id, None, envs(turn));
      if reply.NotFound? { return closed, failed; }
      if reply.Closed? { return closed + 1, failed; }
      return closed, failed + 1;
    }

    /** The stale rooms are the active ones of at least the age given, or a day. `envs` gives
        what happens around the n-th of them. */
    method EndStaleActiveRooms(minActive: int, now: int, envs: nat -> Env, listFails: bool)
      returns (closed: nat, failed: nat, ok: bool, ghost stale: seq<string>)
      modifies rooms, lk
      ensures ok == !listFails && (!ok ==> closed == failed == 0 && stale == [])
      ensures ok ==> forall id :: id in stale <==>
        && id in old(rooms.rows) && old(rooms.rows)[id].status == Active
        && now - old(rooms.rows)[id].createdAt >= if minActive <= 0 then 24 * 60 * 60 else minActive
      ensures forall j, k :: 0 <= j < k < |stale| ==> stale[j] != stale[k]
      ensures Tallies(old(rooms.rows), stale, envs, rooms.rows, closed, failed, old(lk.asked), lk.asked)
    {
      if listFails { return 0, 0, false, []; }
      ok := true;
      var listed := rooms.ListActiveRooms();
      ghost var start := rooms.rows;
      var minAge := if minActive <= 0 then DAY_IN_SECONDS else minActive;
      closed, failed, stale := 0, 0, [];
      var turn := 0;
      for i := 0 to |listed|
        invariant stale == StaleIds(listed, i, minActive, now) && turn == |stale|
        invariant Tallies(start, stale, envs, rooms.rows, closed, failed, old(lk.asked), lk.asked)
      {
        if now - listed[i].1.createdAt < minAge { continue; }
        closed, failed := EndStale(listed[i].0, envs, turn, closed, failed, start, stale, old(lk.asked));
        stale, turn := stale + [listed[i].0], turn + 1;
      }
      StaleRooms(start, listed, minActive, now);
    }

    /** `media` is the media table at the time of the lookup. The checks are made on the
        room as read; the update itself has no guard but the room's existence. */
    method UpdateRoomState(id: string, owner: string, mode: Mode, mediaID: Option<string>,
                           media: MediaTable.Rows, between: seq<RowOp>, fault: UpdateFault)
      returns (r: Update)
      modifies rooms
      ensures var rows, mid := old(rooms.rows), ApplyAll(old(rooms.rows), between);
        var read := !fault.RoomReadFails?;
        var open := read && id in rows && rows[id].owner == owner && rows[id].status == Active;
        var named := open && mode.Movie? && mediaID.Some? && mediaID.value != "";
        var seen := named && !fault.MediaReadFails?;
        var live := seen && mediaID.value in media && media[mediaID.value].deletedAt.None?;
        var shows := live && media[mediaID.value].owner == owner && media[mediaID.value].status.Ready?;
        var passes := (open && mode.Conference?) || shows;
        && (r.RoomMissing? <==> read && id !in rows)
        && (r.NotOwner? <==> read && id in rows && rows[id].owner != owner)
        && (r.RoomIsEnded? <==> read && id in rows && rows[id].owner == owner && rows[id].status != Active)
        && (r.InvalidInput? <==> open && mode.OtherMode?)
        && (r.MediaRequired? <==> open && mode.Movie? && !named)
        && (r.MediaMissing? <==> seen && !live)
        && (r.MediaForbidden? <==> live && media[mediaID.value].owner != owner)
        && (r.MediaNotReady? <==> live && media[mediaID.value].owner == owner && !shows)
        && (r.DbFailed? <==> !read || (named && !seen) || (passes && fault.RoomWriteFails?))
        && (r.Updated? <==> passes && !fault.RoomWriteFails?)
        && (!passes ==> rooms.rows == rows)
        && (passes && fault == RoomWriteFails(false) ==> rooms.rows == mid)
        && (passes && fault != RoomWriteFails(false) ==>
          id in mid && rooms.rows == mid[id := Room(mid[id].name, mid[id].owner, if mode.Movie? then mediaID else None,
               mid[id].status, mid[id].createdAt, mid[id].endedAt)])
        && (passes <==>
          read && !(mode.Movie? && fault.MediaReadFails?) && MayUpdate(rows, id, owner, mode, mediaID, media))
      ensures r.Updated? ==> id in rooms.rows && r.room == rooms.rows[id]
    {
      if fault.RoomReadFails? { return DbFailed; }
      var found := rooms.GetRoomByID(id);
      if found.None? { return RoomMissing; }
      if found.value.owner != owner { return NotOwner; }
      if !found.value.status.Active? { return RoomIsEnded; }
      var next: Option<string> := None;
      match mode {
        case Conference =>
        case Movie =>
          if mediaID.None? || mediaID.value == "" { return MediaRequired; }
          if fault.MediaReadFails? { return DbFailed; }
          if !MediaTable.Live(media, mediaID.value) { return MediaMissing; }
          if media[mediaID.value].owner != owner { return MediaForbidden; }
          if !media[mediaID.value].status.Ready? { return MediaNotReady; }
          next := mediaID;
        case OtherMode => return InvalidInput;
      }
      StatementsEvolve(rooms.rows, between);
      rooms.Elsewhere(between);
      if fault == RoomWriteFails(false) { return DbFailed; }
      var updated := rooms.UpdateRoomMedia(id, next);
      if fault.RoomWriteFails? { return DbFailed; }
      return Updated(updated.value);
    }
  }

  /** What the checks of UpdateRoomState let through. */
  predicate MayUpdate(rows: Rows, id: string, owner: string, mode: Mode, mediaID: Option<string>,
                      media: MediaTable.Rows) {
    && IsActive(rows, id) && rows[id].owner == owner
    && (mode.Conference? || (mode.Movie? && MayShow(media, owner, mediaID)))
  }

  /** The counters, the table and the calls to LiveKit are those of the sweep over `stale`. */
  ghost predicate Tallies(start: Rows, stale: seq<string>, envs: nat -> Env, rows: Rows, closed: nat, failed: nat,
                          askedBefore: seq<string>, asked: seq<string>) {
    var end := SweepUpTo(start, stale, envs, |stale|);
    && rows == end.rows && closed == CountClosed(end.replies) && failed == CountFailed(end.replies)
    && asked == askedBefore + end.asked
  }

  /** A room bears in the end the name it was read with. */
  lemma NameAsRead(rows: Rows, stale: seq<string>, id: string, envs: nat -> Env)
    ensures var s, env := SweepUpTo(rows, stale, envs, |stale|), envs(|stale|);
      var read, o := ApplyAll(s.rows, env.before), EndingById(s.rows, id, None, env);
      o.livekitAsked ==> id in read && id in o.rows && o.rows[id].name == read[id].name
  {
    var s, env := SweepUpTo(rows, stale, envs, |stale|), envs(|stale|);
    StatementsEvolve(ApplyAll(s.rows, env.before), env.between);
  }

  ghost function StaleIds(listed: seq<(string, Room)>, n: nat, minActive: int, now: int): seq<string>
    requires n <= |listed|
  {
    if n == 0 then [] else
    StaleIds(listed, n - 1, minActive, now) + if Stale(listed[n - 1].1, minActive, now) then [listed[n - 1].0] else []
  }

  ghost predicate StaleListed(listed: seq<(string, Room)>, n: nat, minActive: int, now: int, id: string)
    requires n <= |listed|
  {
    exists k :: 0 <= k < n && listed[k].0 == id && Stale(listed[k].1, minActive, now)
  }

  lemma {:induction false} StaleIdsAre(listed: seq<(string, Room)>, n: nat, minActive: int, now: int)
    requires n <= |listed| && forall j, k :: 0 <= j < k < |listed| ==> listed[j].0 != listed[k].0
    ensures var stale := StaleIds(listed, n, minActive, now);
      && (forall id :: id in stale <==> StaleListed(listed, n, minActive, now, id))
      && (forall j, k :: 0 <= j < k < |stale| ==> stale[j] != stale[k])
  {
    if n > 0 {
      StaleIdsAre(listed, n - 1, minActive, now);
      var before, last := StaleIds(listed, n - 1, minActive, now), listed[n - 1];
      assert !StaleListed(listed, n - 1, minActive, now, last.0);
      forall j | 0 <= j < |before| ensures before[j] != last.0 {
        assert before[j] in before;
      }
      forall id
        ensures StaleListed(listed, n, minActive, now, id) <==>
          StaleListed(listed, n - 1, minActive, now, id) || (last.0 == id && Stale(last.1, minActive, now))
      {
      }
    }
  }

  lemma StaleRooms(rows: Rows, listed: seq<(string, Room)>, minActive: int, now: int)
    requires forall k :: 0 <= k < |listed| ==> IsActive(rows, listed[k].0) && listed[k].1 == rows[listed[k].0]
    requires forall j, k :: 0 <= j < k < |listed| ==> listed[j].0 != listed[k].0
    requires forall id :: IsActive(rows, id) ==> (id, rows[id]) in listed
    ensures var stale := StaleIds(listed, |listed|, minActive, now);
      && (forall id :: id in stale <==>
        && id in rows && rows[id].status == Active
        && now - rows[id].createdAt >= if minActive <= 0 then 24 * 60 * 60 else minActive)
      && (forall j, k :: 0 <= j < k < |stale| ==> stale[j] != stale[k])
  {
    StaleIdsAre(listed, |listed|, minActive, now);
    forall id ensures StaleListed(listed, |listed|, minActive, now, id) <==>
      && id in rows && rows[id].status == Active
      && now - rows[id].createdAt >= if minActive <= 0 then 24 * 60 * 60 else minActive
    {
      if IsActive(rows, id) {
        var k :| 0 <= k < |listed| && listed[k] == (id, rows[id]);
      }
    }
  }

  lemma StepOfSweep(rows: Rows, stale: seq<string>, id: string, envs: nat -> Env)
    ensures var n := |stale|; var s, t := SweepUpTo(rows, stale, envs, n), SweepUpTo(rows, stale + [id], envs, n + 1);
      var o := EndingById(s.rows, id, None, envs(n));
      && t == Swept(o.rows, s.replies + [o.reply], s.asked + AskedFor(o, id))
      && CountClosed(t.replies) == CountClosed(s.replies) + (if o.reply.Closed? then 1 else 0)
      && CountFailed(t.replies) == CountFailed(s.replies) + (if o.reply.Failed? then 1 else 0)
  {
    SweepPrefix(rows, stale, stale + [id], envs, |stale|);
    var s := SweepUpTo(rows, stale, envs, |stale|);
    CountOneMore(s.replies, EndingById(s.rows, id, None, envs(|stale|)).reply);
  }

  lemma {:induction false} SweepPrefix(rows: Rows, a: seq<string>, b: seq<string>, envs: nat -> Env, n: nat)
    requires n <= |a| && a <= b
    ensures SweepUpTo(rows, a, envs, n) == SweepUpTo(rows, b, envs, n)
  {
    if n > 0 {
      SweepPrefix(rows, a, b, envs, n - 1);
      assert a[n - 1] == b[n - 1];
    }
  }

  /** The check that a room is active is made on the row as read. A room ended before the
      update still gets the new media, and stays ended: exactly the rooms ended in
      between. */
  lemma MediaMayReachEndedRoom(rows: Rows, id: string, mediaID: Option<string>, between: seq<RowOp>)
    requires IsActive(rows, id)
    ensures var after := Apply(ApplyAll(rows, between), SetMedia(id, mediaID));
      && id in after && after[id].mediaID == mediaID
      && (after[id].status.Ended? <==> TimesEnded(rows, between, id) == 1)
  {
    EndedAtMostOnce(rows, between, id);
    StatementsEvolve(rows, between);
  }
}
