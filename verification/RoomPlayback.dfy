/** The shared playback position of a room: read from the cache, changed, and written back
    with its version raised, by any number of host requests at once; entries expire. */
module RoomPlayback {
  import opened Text
  import Rooms

  datatype PlaybackState = PlaybackState(
    roomID: string,
    mediaID: string,
    status: string,
    positionMs: int,
    rate: real,
    updatedAt: int,
    version: int,
    hostID: string)

  datatype Input = Input(mediaID: string, status: string, positionMs: int, rate: real)

  type Cache = map<string, PlaybackState>

  function StateKey(roomID: string): string { "room:playback:v1:" + roomID }

  lemma StateKeysDiffer(a: string, b: string)
    ensures StateKey(a) == StateKey(b) <==> a == b
  {
    if StateKey(a) == StateKey(b) {
      assert a == StateKey(a)[|"room:playback:v1:"|..] == StateKey(b)[|"room:playback:v1:"|..] == b;
    }
  }

  /** What another request or time does to the cache. */
  datatype CacheOp = Put(key: string, state: PlaybackState) | Expire(key: string)

  function Apply(cache: Cache, op: CacheOp): Cache {
    if op.Put? then cache[op.key := op.state] else cache - {op.key}
  }

  function ApplyAll(cache: Cache, ops: seq<CacheOp>): Cache
    decreases |ops|
  {
    if ops == [] then cache else ApplyAll(Apply(cache, ops[0]), ops[1..])
  }

  function Fetch(cache: Cache, key: string): Option<PlaybackState> {
    if key in cache then Some(cache[key]) else None
  }

  /** The state a save stores, from the state it read. */
  function Next(read: Option<PlaybackState>, roomID: string, hostID: string, input: Input, now: int): PlaybackState {
    PlaybackState(
      if read.Some? then read.value.roomID else roomID,
      if input.mediaID != "" || read.None? then input.mediaID else read.value.mediaID,
      if input.status != "" then input.status else if read.Some? then read.value.status else "paused",
      input.positionMs,
      if input.rate > 0.0 then input.rate else if read.Some? && read.value.rate > 0.0 then read.value.rate else 1.0,
      now,
      (if read.Some? then read.value.version else 0) + 1,
      hostID)
  }

  /** What a save makes of the entry that was there, if any: it counts the version on, takes
      the fields the host gave and keeps the others. */
  predicate Follows(before: Cache, key: string, roomID: string, hostID: string, input: Input, now: int,
                    state: PlaybackState) {
    && state.updatedAt == now && state.hostID == hostID && state.positionMs == input.positionMs
    && (input.mediaID != "" ==> state.mediaID == input.mediaID)
    && (input.status != "" ==> state.status == input.status)
    && (input.rate > 0.0 ==> state.rate == input.rate)
    && (key in before ==>
      var was := before[key];
      && state.version == was.version + 1 && state.roomID == was.roomID
      && (input.mediaID == "" ==> state.mediaID == was.mediaID)
      && (input.status == "" ==> state.status == was.status)
      && (input.rate <= 0.0 ==> state.rate == if was.rate > 0.0 then was.rate else 1.0))
    && (key !in before ==>
      && state.version == 1 && state.roomID == roomID && state.mediaID == input.mediaID
      && (input.status == "" ==> state.status == "paused")
      && (input.rate <= 0.0 ==> state.rate == 1.0))
  }

  /** What goes wrong in one save; a failed write may have been applied. */
  datatype SaveFault = NoFault | RoomReadFails | GetFails | SetFails(applied: bool)

  datatype SaveResult = Saved(state: PlaybackState) | RoomMissing | Forbidden | RoomIsEnded | DbFailed | CacheFailed

  class RoomPlaybackService {
    const rooms: Rooms.RoomRepository
    var cache: Cache

    constructor (rooms: Rooms.RoomRepository)
      ensures this.rooms == rooms && cache == map[]
    {
      this.rooms, cache := rooms, map[];
    }

    method Elsewhere(ops: seq<CacheOp>)
      modifies this`cache
      ensures cache == ApplyAll(old(cache), ops)
    {
      cache := ApplyAll(cache, ops);
    }

    method GetState(roomID: string) returns (state: Option<PlaybackState>)
      ensures state == Fetch(cache, StateKey(roomID))
    {
      var key := StateKey(roomID);
      return if key in cache then Some(cache[key]) else None;
    }

    /** `others` happens to the cache between the read and the write. */
    method SaveByHost(roomID: string, hostID: string, input: Input, readAt: int, now: int,
                      others: seq<CacheOp>, fault: SaveFault)
      returns (r: SaveResult)
      modifies this`cache
      ensures var rows, key := rooms.rows, StateKey(roomID);
        var read := !fault.RoomReadFails?;
        var passes := read && roomID in rows && rows[roomID].owner == hostID && rows[roomID].status.Active?;
        && (r.DbFailed? <==> !read)
        && (r.RoomMissing? <==> read && roomID !in rows)
        && (r.Forbidden? <==> read && roomID in rows && rows[roomID].owner != hostID)
        && (r.RoomIsEnded? <==> read && roomID in rows && rows[roomID].owner == hostID && !rows[roomID].status.Active?)
        && (r.CacheFailed? <==> passes && (fault.GetFails? || fault.SetFails?))
        && (r.Saved? <==> passes && fault.NoFault?)
        && (!passes || fault.GetFails? ==> cache == old(cache))
        && (passes && fault == SetFails(false) ==> cache == ApplyAll(old(cache), others))
      ensures r.Saved? || (r.CacheFailed? && fault == SetFails(true)) ==> (
        var next := Next(Fetch(old(cache), StateKey(roomID)), roomID, hostID, input, now);
        && (r.Saved? ==> r.state == next)
        && cache == ApplyAll(old(cache), others)[StateKey(roomID) := next])
      ensures r.Saved? ==> Follows(old(cache), StateKey(roomID), roomID, hostID, input, now, r.state)
    {
      if fault.RoomReadFails? { return DbFailed; }
      var room := rooms.GetRoomByID(roomID);
      if room.None? { return RoomMissing; }
      if room.value.owner != hostID { return Forbidden; }
      if !room.value.status.Active? { return RoomIsEnded; }
      if fault.GetFails? { return CacheFailed; }
      var found := GetState(roomID);
      var current := if found.Some? then found.value
        else PlaybackState(roomID, input.mediaID, "paused", 0, 1.0, readAt, 0, hostID);
      if input.mediaID != "" { current := current.(mediaID := input.mediaID); }
      if input.status != "" { current := current.(status := input.status); }
      current := current.(positionMs := input.positionMs);
      if input.rate > 0.0 {
        current := current.(rate := input.rate);
      } else if current.rate <= 0.0 {
        current := current.(rate := 1.0);
      }
      current := current.(updatedAt := now, version := current.version + 1, hostID := hostID);
      Elsewhere(others);
      if fault == SetFails(false) { return CacheFailed; }
      cache := cache[StateKey(roomID) := current];
      return if fault.SetFails? then CacheFailed else Saved(current);
    }
  }

  // ---- saves one after the other ---------------------------------------------------------

  datatype Save = Save(hostID: string, input: Input, now: int)

  function SaveAll(read: Option<PlaybackState>, roomID: string, saves: seq<Save>): Option<PlaybackState> {
    if saves == [] then read else
    var last := saves[|saves| - 1];
    Some(Next(SaveAll(read, roomID, saves[..|saves| - 1]), roomID, last.hostID, last.input, last.now))
  }

  /** The last non-empty text among these, or else the one there was. */
  function LastNamed(start: string, names: seq<string>): string {
    if names == [] then start else
    var last := names[|names| - 1];
    if last != "" then last else LastNamed(start, names[..|names| - 1])
  }

  function MediaNamed(saves: seq<Save>): (names: seq<string>)
    ensures |names| == |saves|
  {
    seq(|saves|, i requires 0 <= i < |saves| => saves[i].input.mediaID)
  }

  function StatusNamed(saves: seq<Save>): (names: seq<string>)
    ensures |names| == |saves|
  {
    seq(|saves|, i requires 0 <= i < |saves| => saves[i].input.status)
  }

  function RateGiven(saves: seq<Save>): (rates: seq<real>)
    ensures |rates| == |saves|
  {
    seq(|saves|, i requires 0 <= i < |saves| => saves[i].input.rate)
  }

  /** The last positive rate among these, or else the one there was. */
  function LastPositive(start: real, rates: seq<real>): real {
    if rates == [] then start else
    var last := rates[|rates| - 1];
    if last > 0.0 then last else LastPositive(start, rates[..|rates| - 1])
  }

  /** Each serial save raises the version by exactly one, from whatever is stored, or from 0
      when the entry has expired; the rate is the last positive one given, or the one there
      was, or 1; medium and status are the last ones named; position, host and time are those
      of the last save. */
  lemma {:induction false} SerialSaves(read: Option<PlaybackState>, roomID: string, saves: seq<Save>)
    requires read.Some? ==> read.value.rate > 0.0
    ensures var end := SaveAll(read, roomID, saves);
      && (end.Some? <==> read.Some? || saves != [])
      && (end.Some? ==> end.value.version == (if read.Some? then read.value.version else 0) + |saves|)
      && (end.Some? ==>
        end.value.rate == LastPositive(if read.Some? then read.value.rate else 1.0, RateGiven(saves)))
      && (end.Some? ==> end.value.rate > 0.0)
      && (end.Some? ==> end.value.roomID == if read.Some? then read.value.roomID else roomID)
      && (end.Some? ==>
        end.value.mediaID == LastNamed(if read.Some? then read.value.mediaID else "", MediaNamed(saves)))
      && (end.Some? ==>
        end.value.status == LastNamed(if read.Some? then read.value.status else "paused", StatusNamed(saves)))
      && (saves != [] ==> var last := saves[|saves| - 1];
           end.value.positionMs == last.input.positionMs && end.value.hostID == last.hostID
             && end.value.updatedAt == last.now)
  {
    if saves != [] {
      var before := saves[..|saves| - 1];
      SerialSaves(read, roomID, before);
      assert MediaNamed(saves)[..|saves| - 1] == MediaNamed(before);
      assert StatusNamed(saves)[..|saves| - 1] == StatusNamed(before);
      assert RateGiven(saves)[..|saves| - 1] == RateGiven(before);
    }
  }

  /** A save that read before k others of the room, and writes after them, sets the stored
      version to one above what it read: the version rises exactly when k is 0, stays when
      k is 1, and falls back otherwise; and the others are lost. */
  lemma {:induction false} LateSaveLosesTheOthers(read: PlaybackState, roomID: string, others: seq<Save>, late: Save)
    requires read.rate > 0.0
    ensures var stored := SaveAll(Some(read), roomID, others).value;
      var next := Next(Some(read), roomID, late.hostID, late.input, late.now);
      && next.version - stored.version == 1 - |others|
      && (late.input.mediaID == "" ==> next.mediaID == read.mediaID)
  {
    SerialSaves(Some(read), roomID, others);
  }

  // ---- all interleavings -------------------------------------------------------------------

  datatype Read = Read(roomID: string, seen: Option<PlaybackState>)

  /** `versions` lists, per room, the versions ever stored, in the order of the writes. */
  datatype State = State(cache: Cache, reading: map<nat, Read>, versions: map<string, seq<int>>)

  datatype Action =
    | ReadStep(p: nat, roomID: string)
    | WriteStep(p: nat, hostID: string, input: Input, now: int)
    | DropStep(p: nat)
    | ExpireStep(roomID: string)

  predicate Enabled(s: State, a: Action) {
    match a
    case ReadStep(p, _) => p !in s.reading
    case WriteStep(p, _, _, _) => p in s.reading
    case DropStep(p) => p in s.reading
    case ExpireStep(_) => true
  }

  function Versions(s: State, roomID: string): seq<int> {
    if roomID in s.versions then s.versions[roomID] else []
  }

  function Do(s: State, a: Action): State
    requires Enabled(s, a)
  {
    match a
    case ReadStep(p, roomID) => s.(reading := s.reading[p := Read(roomID, Fetch(s.cache, StateKey(roomID)))])
    case WriteStep(p, hostID, input, now) =>
      var read := s.reading[p];
      var next := Next(read.seen, read.roomID, hostID, input, now);
      State(s.cache[StateKey(read.roomID) := next], s.reading - {p},
            s.versions[read.roomID := Versions(s, read.roomID) + [next.version]])
    case DropStep(p) => s.(reading := s.reading - {p})
    case ExpireStep(roomID) => s.(cache := s.cache - {StateKey(roomID)})
  }

  predicate Initial(s: State) { s == State(map[], map[], map[]) }

  predicate Legal(s: State, run: seq<Action>)
    decreases |run|
  {
    run == [] || (Enabled(s, run[0]) && Legal(Do(s, run[0]), run[1..]))
  }

  function Exec(s: State, run: seq<Action>): State
    requires Legal(s, run)
    decreases |run|
  {
    if run == [] then s else Exec(Do(s, run[0]), run[1..])
  }

  /** Each version is 1 or one more than an earlier one. */
  ghost predicate Stepwise(versions: seq<int>) {
    forall k :: 0 <= k < |versions| ==> versions[k] == 1 || exists j :: 0 <= j < k && versions[j] + 1 == versions[k]
  }

  predicate Known(s: State, roomID: string, state: PlaybackState) {
    state.version in Versions(s, roomID) && state.rate > 0.0
  }

  ghost predicate Inv(s: State) {
    && (forall r :: Stepwise(Versions(s, r)))
    && (forall r :: StateKey(r) in s.cache ==> Known(s, r, s.cache[StateKey(r)]))
    && (forall p :: p in s.reading && s.reading[p].seen.Some? ==>
      Known(s, s.reading[p].roomID, s.reading[p].seen.value))
  }

  lemma StepKeeps(s: State, a: Action)
    requires Inv(s) && Enabled(s, a)
    ensures Inv(Do(s, a))
  {
    if a.WriteStep? { WriteKeeps(s, a); } else { OtherStepKeeps(s, a); }
  }

  lemma OtherStepKeeps(s: State, a: Action)
    requires Inv(s) && Enabled(s, a) && !a.WriteStep?
    ensures Inv(Do(s, a))
  {
    var t := Do(s, a);
    assert t.versions == s.versions;
    forall r ensures Stepwise(Versions(t, r)) {
      assert Versions(t, r) == Versions(s, r);
    }
    forall r | StateKey(r) in t.cache ensures Known(t, r, t.cache[StateKey(r)]) {
      assert StateKey(r) in s.cache && t.cache[StateKey(r)] == s.cache[StateKey(r)];
      assert Known(s, r, s.cache[StateKey(r)]);
    }
    forall p | p in t.reading && t.reading[p].seen.Some?
      ensures Known(t, t.reading[p].roomID, t.reading[p].seen.value)
    {
      if a.ReadStep? && p == a.p {
        assert Known(s, a.roomID, s.cache[StateKey(a.roomID)]);
      } else {
        assert Known(s, s.reading[p].roomID, s.reading[p].seen.value);
      }
    }
  }

  lemma WriteKeeps(s: State, a: Action)
    requires Inv(s) && Enabled(s, a) && a.WriteStep?
    ensures Inv(Do(s, a))
  {
    var room, t := s.reading[a.p].roomID, Do(s, a);
    var next := Next(s.reading[a.p].seen, room, a.hostID, a.input, a.now);
    var before := Versions(s, room);
    assert next.rate > 0.0 && (next.version == 1 || next.version - 1 in before);
    VersionsAfterWrite(s, t, room, next.version);
    StepwiseOneMore(before, next.version);
    forall r ensures Stepwise(Versions(t, r)) {
      assert r != room ==> Versions(t, r) == Versions(s, r);
    }
    forall r | StateKey(r) in t.cache ensures Known(t, r, t.cache[StateKey(r)]) {
      StateKeysDiffer(r, room);
    }
  }

  lemma VersionsAfterWrite(s: State, t: State, room: string, v: int)
    requires t.versions == s.versions[room := Versions(s, room) + [v]]
    ensures Versions(t, room) == Versions(s, room) + [v]
    ensures v in Versions(t, room)
    ensures forall r, w :: w in Versions(s, r) ==> w in Versions(t, r)
  {
    assert (Versions(s, room) + [v])[|Versions(s, room)|] == v;
  }

  lemma StepwiseOneMore(versions: seq<int>, v: int)
    requires Stepwise(versions) && (v == 1 || v - 1 in versions)
    ensures Stepwise(versions + [v])
  {
    var more := versions + [v];
    forall k | 0 <= k < |more| && more[k] != 1 ensures exists j :: 0 <= j < k && more[j] + 1 == more[k] {
      var j :| 0 <= j < |versions| && j < k && versions[j] + 1 == more[k];
      assert more[j] + 1 == more[k];
    }
  }

  lemma {:induction false} RunKeeps(s: State, run: seq<Action>)
    requires Inv(s) && Legal(s, run)
    ensures Inv(Exec(s, run))
    decreases |run|
  {
    if run != [] {
      StepKeeps(s, run[0]);
      RunKeeps(Do(s, run[0]), run[1..]);
    }
  }

  lemma {:induction false} StepwiseBound(versions: seq<int>, k: nat)
    requires Stepwise(versions) && k < |versions|
    ensures 1 <= versions[k] <= k + 1
    decreases k
  {
    if versions[k] != 1 {
      var j: nat :| j < k && versions[j] + 1 == versions[k];
      StepwiseBound(versions, j);
    }
  }

  /** Over every run, with saves overlapping and entries expiring at will: the k-th version
      stored for a room is 1 or one more than an earlier one, hence at most k; and what is
      stored now bears one of them and a positive rate. */
  lemma VersionsOverRuns(s: State, run: seq<Action>, roomID: string, k: nat)
    requires Initial(s) && Legal(s, run) && k < |Versions(Exec(s, run), roomID)|
    ensures var end := Exec(s, run); var versions := Versions(end, roomID);
      && (versions[k] == 1 || exists j :: 0 <= j < k && versions[j] + 1 == versions[k])
      && 1 <= versions[k] <= k + 1
      && (StateKey(roomID) in end.cache ==> end.cache[StateKey(roomID)].version in versions)
      && (StateKey(roomID) in end.cache ==> end.cache[StateKey(roomID)].rate > 0.0)
  {
    RunKeeps(s, run);
    StepwiseBound(Versions(Exec(s, run), roomID), k);
  }
}
