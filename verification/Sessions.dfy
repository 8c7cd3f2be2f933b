/** Refresh sessions: the `sessions` table with its guarded update, the login and refresh
    requests over it, and what holds when any number of them interleave. A refresh reads
    its session and rotates it in two separate statements. */
module Sessions {
  import opened Text
  import opened Faults

  /** What the server stores of a refresh secret; the hash is taken to be injective. */
  datatype Digest = HashToken(secret: string)

  datatype Session = Session(
    userID: string,
    hash: Digest,
    jti: string,
    version: int,
    issuedAt: int,
    expiresAt: int,
    revokedAt: Option<int>)

  type Rows = map<string, Session>

  datatype RowOp =
    | Store(id: string, session: Session)
    | Rotate(id: string, jti: string, hash: Digest, issuedAt: int, expiresAt: int)
    | RevokeByAccessJTI(jti: string, revokedAt: int)

  /** The two UNIQUE columns. */
  predicate Unique(rows: Rows) {
    && (forall i, j :: i in rows && j in rows && rows[i].hash == rows[j].hash ==> i == j)
    && (forall i, j :: i in rows && j in rows && rows[i].jti == rows[j].jti ==> i == j)
  }

  predicate Vacant(rows: Rows, id: string, hash: Digest, jti: string) {
    forall i :: i in rows && i != id ==> rows[i].hash != hash && rows[i].jti != jti
  }

  predicate Open(rows: Rows, id: string) { id in rows && rows[id].revokedAt.None? }

  predicate Revoked(rows: Rows, jti: string) {
    exists id :: id in rows && rows[id].jti == jti && rows[id].revokedAt.Some?
  }

  predicate Stores(rows: Rows, op: RowOp) {
    match op
    case Store(id, s) => id !in rows && Vacant(rows, id, s.hash, s.jti)
    case Rotate(id, jti, hash, _, _) => Open(rows, id) && Vacant(rows, id, hash, jti)
    case RevokeByAccessJTI(jti, _) => true
  }

  /** One statement; a violated constraint or an unmatched guard changes nothing. */
  function Apply(rows: Rows, op: RowOp): Rows {
    if !Stores(rows, op) then rows else
    match op
    case Store(id, s) => rows[id := s]
    case Rotate(id, jti, hash, issued, expires) =>
      rows[id := rows[id].(hash := hash, jti := jti, issuedAt := issued, expiresAt := expires,
        version := rows[id].version + 1)]
    case RevokeByAccessJTI(jti, at) =>
      map id | id in rows :: if rows[id].jti == jti && Open(rows, id) then rows[id].(revokedAt := Some(at))
        else rows[id]
  }

  function ApplyAll(rows: Rows, ops: seq<RowOp>): Rows
    decreases |ops|
  {
    if ops == [] then rows else ApplyAll(Apply(rows, ops[0]), ops[1..])
  }

  /** How the table may move: sessions stay and keep their user, versions only grow, and a
      revoked session is frozen whole. */
  predicate Evolves(before: Rows, after: Rows) {
    forall id :: id in before ==>
      && id in after
      && after[id].userID == before[id].userID
      && before[id].version <= after[id].version
      && (before[id].revokedAt.Some? ==> after[id] == before[id])
  }

  lemma {:induction false} StatementsEvolve(rows: Rows, ops: seq<RowOp>)
    requires Unique(rows)
    ensures Unique(ApplyAll(rows, ops)) && Evolves(rows, ApplyAll(rows, ops))
    decreases |ops|
  {
    if ops != [] {
      StatementKeepsUnique(rows, ops[0]);
      StatementEvolves(rows, ops[0]);
      StatementsEvolve(Apply(rows, ops[0]), ops[1..]);
    }
  }

  lemma StatementEvolves(rows: Rows, op: RowOp)
    ensures Evolves(rows, Apply(rows, op))
  {
  }

  lemma StatementKeepsUnique(rows: Rows, op: RowOp)
    requires Unique(rows)
    ensures Unique(Apply(rows, op))
  {
  }

  /** Revoking works on the token a session bears at that moment and on no other: a token
      that no session bears any more is not revoked by it. */
  lemma RevocationTakes(rows: Rows, jti: string, at: int, other: string)
    ensures Revoked(Apply(rows, RevokeByAccessJTI(jti, at)), other) <==>
      Revoked(rows, other) || (other == jti && exists id :: id in rows && rows[id].jti == jti)
  {
    var after := Apply(rows, RevokeByAccessJTI(jti, at));
    assert forall id :: id in after <==> id in rows;
    assert forall id :: id in rows ==> after[id].jti == rows[id].jti;
    forall id | id in rows && rows[id].jti == other && (other == jti || rows[id].revokedAt.Some?)
      ensures after[id].revokedAt.Some?
    {
    }
  }

  // ---- the repository ---------------------------------------------------------------

  /** Some session other than this one has the hash or the access token. */
  predicate Clashes(rows: Rows, id: string, hash: Digest, jti: string) {
    exists i :: i in rows && i != id && (rows[i].hash == hash || rows[i].jti == jti)
  }

  /** `SessionRepository`. A statement that reports a database error has had its effect or has
      not, as `faults` says for the n-th. */
  class SessionRepository {
    var rows: Rows
    var calls: nat
    const faults: nat -> Fault

    ghost predicate Valid() reads this { Unique(rows) }

    constructor (faults: nat -> Fault)
      ensures Valid() && rows == map[] && calls == 0 && this.faults == faults
    {
      rows, calls, this.faults := map[], 0, faults;
    }

    /** Statements of other requests, running in between. */
    method Elsewhere(ops: seq<RowOp>)
      requires Valid()
      modifies `rows
      ensures Valid() && rows == ApplyAll(old(rows), ops)
    {
      StatementsEvolve(rows, ops);
      rows := ApplyAll(rows, ops);
    }

    method StoreSession(id: string, s: Session) returns (r: StoreReply)
      requires Valid()
      modifies `rows, `calls
      ensures Valid() && calls == old(calls) + 1
      ensures var fault, taken := faults(old(calls)), id in old(rows) || Clashes(old(rows), id, s.hash, s.jti);
        && rows == (if fault.LostCall? || taken then old(rows) else old(rows)[id := s])
        && r == (if !fault.NoFault? then StoreFault else if taken then Refused else Stored)
      ensures rows == if faults(old(calls)).LostCall? then old(rows) else Apply(old(rows), Store(id, s))
    {
      StatementKeepsUnique(rows, Store(id, s));
      var fault := faults(calls);
      calls := calls + 1;
      if fault.LostCall? { return StoreFault; }
      var taken := id in rows || exists i :: i in rows && i != id && (rows[i].hash == s.hash || rows[i].jti == s.jti);
      if !taken { rows := rows[id := s]; }
      if fault.LostReply? { return StoreFault; }
      return if taken then Refused else Stored;
    }

    method GetByRefreshTokenHash(hash: Digest) returns (found: Option<(string, Session)>, ok: bool)
      requires Valid()
      modifies `calls
      ensures calls == old(calls) + 1 && (ok <==> faults(old(calls)).NoFault?)
      ensures ok ==> (found.None? <==> forall id :: id in rows ==> rows[id].hash != hash)
      ensures found.Some? ==>
        ok && found.value.0 in rows && rows[found.value.0] == found.value.1 && found.value.1.hash == hash
    {
      var fault := faults(calls);
      calls := calls + 1;
      if !fault.NoFault? { return None, false; }
      if id :| id in rows && rows[id].hash == hash {
        return Some((id, rows[id])), true;
      }
      return None, true;
    }

    /** The guarded update: an unrevoked session gets the new secret, token and times and the
        next version; user and revocation stay, and so do all other sessions. */
    method RotateSession(id: string, jti: string, hash: Digest, issuedAt: int, expiresAt: int)
      returns (updated: Option<Session>, ok: bool)
      requires Valid()
      modifies `rows, `calls
      ensures Valid() && calls == old(calls) + 1 && (ok <==> faults(old(calls)).NoFault?)
      ensures var was := old(rows);
        var matched := id in was && was[id].revokedAt.None? && !Clashes(was, id, hash, jti);
        && (!matched || faults(old(calls)).LostCall? ==> rows == was)
        && (matched && !faults(old(calls)).LostCall? ==>
          rows == was[id := Session(was[id].userID, hash, jti, was[id].version + 1, issuedAt, expiresAt, None)])
        && (updated.Some? <==> ok && matched) && (updated.Some? ==> updated.value == rows[id])
      ensures rows ==
        if faults(old(calls)).LostCall? then old(rows) else Apply(old(rows), Rotate(id, jti, hash, issuedAt, expiresAt))
    {
      StatementKeepsUnique(rows, Rotate(id, jti, hash, issuedAt, expiresAt));
      var fault := faults(calls);
      calls := calls + 1;
      if fault.LostCall? { return None, false; }
      var matched := id in rows && rows[id].revokedAt.None?
        && !exists i :: i in rows && i != id && (rows[i].hash == hash || rows[i].jti == jti);
      if matched {
        rows := rows[id := rows[id].(hash := hash, jti := jti, issuedAt := issuedAt, expiresAt := expiresAt,
                                     version := rows[id].version + 1)];
      }
      if fault.LostReply? { return None, false; }
      return if matched then Some(rows[id]) else None, true;
    }

    method IsAccessRevoked(jti: string) returns (revoked: bool, ok: bool)
      modifies `calls
      ensures calls == old(calls) + 1 && (ok <==> faults(old(calls)).NoFault?)
      ensures revoked <==> ok && exists id :: id in rows && rows[id].jti == jti && rows[id].revokedAt.Some?
    {
      var fault := faults(calls);
      calls := calls + 1;
      if !fault.NoFault? { return false, false; }
      return exists id :: id in rows && rows[id].jti == jti && rows[id].revokedAt.Some?, true;
    }

    /** Marks the unrevoked sessions with the token as revoked at that time, and nothing else. */
    method RevokeAccess(jti: string, at: int) returns (ok: bool)
      requires Valid()
      modifies `rows, `calls
      ensures Valid() && calls == old(calls) + 1 && (ok <==> faults(old(calls)).NoFault?)
      ensures faults(old(calls)).LostCall? ==> rows == old(rows)
      ensures !faults(old(calls)).LostCall? ==> rows.Keys == old(rows).Keys && forall id :: id in rows ==>
        var was := old(rows)[id];
        rows[id] == Session(was.userID, was.hash, was.jti, was.version, was.issuedAt, was.expiresAt,
          if was.jti == jti && was.revokedAt.None? then Some(at) else was.revokedAt)
      ensures rows == if faults(old(calls)).LostCall? then old(rows) else Apply(old(rows), RevokeByAccessJTI(jti, at))
    {
      StatementKeepsUnique(rows, RevokeByAccessJTI(jti, at));
      var fault := faults(calls);
      calls := calls + 1;
      if fault.LostCall? { return false; }
      rows := map id | id in rows ::
        if rows[id].jti == jti && rows[id].revokedAt.None? then rows[id].(revokedAt := Some(at)) else rows[id];
      return fault.NoFault?;
    }
  }

  datatype StoreReply = Stored | Refused | StoreFault

  // ---- the requests ------------------------------------------------------------------

  datatype LoginResult = LoggedIn(secret: string) | InvalidCredentials | LoginFailed

  datatype RefreshResult = Refreshed(userID: string, secret: string, version: int) | SessionNotFound | RefreshFailed

  /** What a refresh accepts: a session that is neither revoked nor past its expiry. */
  predicate Usable(s: Session, now: int) { s.revokedAt.None? && s.expiresAt >= now }

  predicate Accepts(rows: Rows, token: string, now: int, id: string) {
    id in rows && rows[id].hash == HashToken(token) && Usable(rows[id], now)
  }

  class AuthService {
    const sessions: SessionRepository
    const refreshTTL: int

    constructor (sessions: SessionRepository, refreshTTL: int)
      ensures this.sessions == sessions && this.refreshTTL == refreshTTL
    {
      this.sessions, this.refreshTTL := sessions, refreshTTL;
    }

    /** `user` is the account found for the e-mail and whether the password matches; `issueFails`
        that no token or secret could be made. It succeeds exactly for a matching password when
        nothing fails and nothing clashes, and stores one fresh session. A login that fails at
        its insert may have stored one nobody holds the secret of. */
    method Login(user: Option<(string, bool)>, lookupFails: bool, issueFails: bool, id: string, jti: string,
                 secret: string, now: int)
      returns (r: LoginResult)
      requires sessions.Valid()
      modifies sessions`rows, sessions`calls
      ensures sessions.Valid()
      ensures var was, fault := old(sessions.rows), sessions.faults(old(sessions.calls));
        var known := !lookupFails && user.Some? && user.value.1;
        var taken := id in was || Clashes(was, id, HashToken(secret), jti);
        && (r.InvalidCredentials? <==> !lookupFails && !known)
        && (r.LoggedIn? <==> known && !issueFails && !taken && fault.NoFault?)
        && (r.LoggedIn? ==> r.secret == secret)
        && (known && !issueFails && !taken && !fault.LostCall? ==>
          sessions.rows == was[id := Session(user.value.0, HashToken(secret), jti, 1, now, now + refreshTTL, None)])
        && (!known || issueFails || taken || fault.LostCall? ==> sessions.rows == was)
    {
      if lookupFails { return LoginFailed; }
      if user.None? || !user.value.1 { return InvalidCredentials; }
      if issueFails { return LoginFailed; }
      var session := Session(user.value.0, HashToken(secret), jti, 1, now, now + refreshTTL, None);
      var stored := sessions.StoreSession(id, session);
      return if stored.Stored? then LoggedIn(secret) else LoginFailed;
    }

    /** Read, then rotate, with the statements `others` of other requests in between. Database
        errors aside, it reads exactly if some session bears the secret, is unrevoked and not
        past its expiry; and then succeeds exactly when that session is still unrevoked when the
        rotation runs, which moves it on by one version. */
    method Refresh(token: string, jti: string, secret: string, readAt: int, now: int, others: seq<RowOp>,
                   issueFails: bool)
      returns (r: RefreshResult, ghost read: Option<string>)
      requires sessions.Valid()
      modifies sessions`rows, sessions`calls
      ensures sessions.Valid()
      ensures var was, c := old(sessions.rows), old(sessions.calls);
        && (sessions.faults(c).NoFault? ==> (read.None? <==> forall id :: id in was ==>
          !(was[id].hash.secret == token && was[id].revokedAt.None? && was[id].expiresAt >= readAt)))
        && (read.Some? ==> sessions.faults(c).NoFault? && Accepts(was, token, readAt, read.value))
        && (read.None? ==>
          sessions.rows == was && r == if sessions.faults(c).NoFault? then SessionNotFound else RefreshFailed)
        && (read.Some? && issueFails ==> r.RefreshFailed? && sessions.rows == was)
        && (read.Some? && !issueFails ==>
          Rotates(was, sessions.rows, read.value, jti, secret, now, others, sessions.faults(c + 1), r))
    {
      var id, ok := ReadUsable(token, readAt);
      read := id;
      if !ok { return RefreshFailed, read; }
      if id.None? { return SessionNotFound, read; }
      if issueFails { return RefreshFailed, read; }
      r := FinishRefresh(id.value, jti, secret, now, others);
    }

    method ReadUsable(token: string, readAt: int) returns (read: Option<string>, ok: bool)
      requires sessions.Valid()
      modifies sessions`calls
      ensures sessions.calls == old(sessions.calls) + 1 && (ok <==> sessions.faults(old(sessions.calls)).NoFault?)
      ensures ok ==> (read.None? <==> forall id :: id in sessions.rows ==>
        var s := sessions.rows[id]; !(s.hash.secret == token && s.revokedAt.None? && s.expiresAt >= readAt))
      ensures read.Some? ==> ok && Accepts(sessions.rows, token, readAt, read.value)
    {
      var found;
      found, ok := sessions.GetByRefreshTokenHash(HashToken(token));
      if !ok || found.None? { return None, ok; }
      var (id, session) := found.value;
      if session.revokedAt.Some? || session.expiresAt < readAt {
        assert forall i :: i in sessions.rows && sessions.rows[i].hash.secret == token ==> i == id;
        return None, ok;
      }
      return Some(id), ok;
    }

    method FinishRefresh(id: string, jti: string, secret: string, now: int, others: seq<RowOp>)
      returns (r: RefreshResult)
      requires sessions.Valid() && id in sessions.rows
      modifies sessions`rows, sessions`calls
      ensures sessions.Valid()
      ensures Rotates(old(sessions.rows), sessions.rows, id, jti, secret, now, others,
        sessions.faults(old(sessions.calls)), r)
    {
      StatementsEvolve(sessions.rows, others);
      sessions.Elsewhere(others);
      var updated, ok := sessions.RotateSession(id, jti, HashToken(secret), now, now + refreshTTL);
      if !ok { return RefreshFailed; }
      if updated.None? { return SessionNotFound; }
      return Refreshed(updated.value.userID, secret, updated.value.version);
    }

    /** The second half of a refresh, from the state in which its session was read. */
    predicate Rotates(before: Rows, after: Rows, id: string, jti: string, secret: string, now: int, others: seq<RowOp>,
                      fault: Fault, r: RefreshResult) {
      var between := ApplyAll(before, others);
      && id in before && id in between && between[id].userID == before[id].userID
      && var matched := between[id].revokedAt.None? && !Clashes(between, id, HashToken(secret), jti);
         && (matched && !fault.LostCall? ==> after == between[id :=
              Session(before[id].userID, HashToken(secret), jti, between[id].version + 1, now, now + refreshTTL, None)])
         && (!matched || fault.LostCall? ==> after == between)
         && (r.Refreshed? <==> matched && fault.NoFault?)
         && (r.SessionNotFound? <==> !matched && fault.NoFault?)
         && (r.Refreshed? ==> r == Refreshed(before[id].userID, secret, between[id].version + 1))
    }
  }
}
