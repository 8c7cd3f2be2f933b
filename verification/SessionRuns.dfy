/** All interleavings of logins, refreshes and revocations: a refresh is a lookup and,
    any number of other steps later, a rotation. */
module SessionRuns {
  import opened Text
  import opened Sessions

  /** A refresh that returned, in the order of the rotations. */
  datatype Answer = Answer(id: string, version: int)

  /** What a refresh past its lookup holds: the session it found, and by which secret. */
  datatype Reading = Reading(id: string, secret: string)

  datatype State = State(
    rows: Rows,
    reading: map<nat, Reading>, // refreshes past their lookup
    secrets: set<string>,       // every refresh secret ever generated
    jtis: set<string>,          // every access-token id ever issued
    answers: seq<Answer>)

  datatype Action =
    | LoginStep(id: string, userID: string, jti: string, secret: string, now: int, ttl: int)
    | LookupStep(p: nat, id: string, secret: string, now: int)
    | RotateStep(p: nat, jti: string, secret: string, now: int, ttl: int, replied: bool)
    | AbandonStep(p: nat)
    | RevokeStep(jti: string, at: int)

  predicate Finds(rows: Rows, secret: string) { exists id :: id in rows && rows[id].hash == HashToken(secret) }

  predicate Enabled(s: State, a: Action) {
    match a
    case LoginStep(id, _, jti, secret, _, _) => id !in s.rows && jti !in s.jtis && secret !in s.secrets
    case LookupStep(p, id, secret, now) => p !in s.reading && Accepts(s.rows, secret, now, id)
    case RotateStep(p, jti, secret, _, _, _) => p in s.reading && jti !in s.jtis && secret !in s.secrets
    case AbandonStep(p) => p in s.reading
    case RevokeStep(_, _) => true
  }

  function RowOpOf(s: State, a: Action): RowOp
    requires Enabled(s, a) && (a.LoginStep? || a.RotateStep?)
  {
    if a.LoginStep? then Store(a.id, Session(a.userID, HashToken(a.secret), a.jti, 1, a.now, a.now + a.ttl, None))
    else Rotate(s.reading[a.p].id, a.jti, HashToken(a.secret), a.now, a.now + a.ttl)
  }

  /** A step that writes a new secret into session `id`. */
  predicate Commits(s: State, a: Action, id: string)
    requires Enabled(s, a)
  {
    (a.LoginStep? || a.RotateStep?) && RowOpOf(s, a).id == id && Stores(s.rows, RowOpOf(s, a))
  }

  /** A rotation may commit without its reply being seen (`replied` false). */
  function Do(s: State, a: Action): State
    requires Enabled(s, a)
  {
    match a
    case LoginStep(id, userID, jti, secret, now, ttl) =>
      s.(rows := Apply(s.rows, RowOpOf(s, a)), secrets := s.secrets + {secret}, jtis := s.jtis + {jti})
    case LookupStep(p, id, secret, now) => s.(reading := s.reading[p := Reading(id, secret)])
    case RotateStep(p, jti, secret, now, ttl, replied) =>
      var id, rows := s.reading[p].id, Apply(s.rows, RowOpOf(s, a));
      s.(rows := rows, reading := s.reading - {p}, secrets := s.secrets + {secret}, jtis := s.jtis + {jti},
         answers := if replied && Commits(s, a, id) then s.answers + [Answer(id, rows[id].version)] else s.answers)
    case AbandonStep(p) => s.(reading := s.reading - {p})
    case RevokeStep(jti, at) => s.(rows := Apply(s.rows, RevokeByAccessJTI(jti, at)))
  }

  /** What the steps do to the table, outright. A login stores a session of version 1, valid for
      its time to live; a rotation of an unrevoked session gives it the new secret, token and
      times and the next version; a revocation marks the sessions that bear the token. */
  lemma StepSets(s: State, a: Action)
    requires Inv(s) && Enabled(s, a)
    ensures var rows := Do(s, a).rows;
      && (a.LoginStep? ==>
        rows == s.rows[a.id := Session(a.userID, HashToken(a.secret), a.jti, 1, a.now, a.now + a.ttl, None)])
      && (a.RotateStep? ==>
        var id := s.reading[a.p].id;
        && (Open(s.rows, id) ==>
          var was := s.rows[id];
          rows == s.rows[id :=
            Session(was.userID, HashToken(a.secret), a.jti, was.version + 1, a.now, a.now + a.ttl, None)])
        && (!Open(s.rows, id) ==> rows == s.rows))
      && (a.LookupStep? || a.AbandonStep? ==> rows == s.rows)
  {
    if a.LoginStep? || a.RotateStep? { CommitsIff(s, a, if a.LoginStep? then a.id else s.reading[a.p].id); }
  }

  lemma OtherStepsSet(s: State, a: Action)
    requires Enabled(s, a)
    ensures a.RevokeStep? ==> Do(s, a).rows.Keys == s.rows.Keys
    ensures a.RevokeStep? ==> forall id :: id in s.rows ==>
      Do(s, a).rows[id] == if s.rows[id].jti == a.jti && s.rows[id].revokedAt.None?
        then s.rows[id].(revokedAt := Some(a.at)) else s.rows[id]
    ensures a.LookupStep? ==>
      s.rows[a.id].hash.secret == a.secret && s.rows[a.id].revokedAt.None? && s.rows[a.id].expiresAt >= a.now
  {
  }

  predicate Initial(s: State) { s.rows == map[] && s.reading == map[] && s.answers == [] }

  predicate Legal(s: State, run: seq<Action>)
    decreases |run|
  {
    run == [] || (Enabled(s, run[0]) && Legal(Do(s, run[0]), run[1..]))
  }

  function Exec(s: State, run: seq<Action>): State
    requires Legal(s, run)
    decreases |run|
  {
    if run == [] then s else Exec(Do(s, run[0]), run[1..])
  }

  /** The secrets a run commits to session `id`, in order: at its login, then by rotations. */
  function SecretsOf(s: State, run: seq<Action>, id: string): seq<string>
    requires Legal(s, run)
    decreases |run|
  {
    if run == [] then [] else
    (if Commits(s, run[0], id) then [run[0].secret] else []) + SecretsOf(Do(s, run[0]), run[1..], id)
  }

  function Rotations(s: State, run: seq<Action>, id: string): nat
    requires Legal(s, run)
    decreases |run|
  {
    if run == [] then 0 else
    (if run[0].RotateStep? && Commits(s, run[0], id) then 1 else 0) + Rotations(Do(s, run[0]), run[1..], id)
  }

  // ---- the invariant -----------------------------------------------------------------

  predicate RowsOk(s: State) {
    && Unique(s.rows)
    && (forall id :: id in s.rows ==>
      s.rows[id].hash.secret in s.secrets && s.rows[id].jti in s.jtis && s.rows[id].version >= 1)
  }

  /** Answers to one session carry increasing versions, none beyond the stored one. */
  predicate AnswersOk(s: State) {
    && (forall k :: 0 <= k < |s.answers| ==>
      s.answers[k].id in s.rows && 2 <= s.answers[k].version <= s.rows[s.answers[k].id].version)
    && (forall j, k :: 0 <= j < k < |s.answers| && s.answers[j].id == s.answers[k].id ==>
      s.answers[j].version < s.answers[k].version)
  }

  /** Whoever read by a secret that is in the table read the session that bears it. */
  predicate ReadingOk(s: State) {
    && (forall p :: p in s.reading ==> s.reading[p].id in s.rows && s.reading[p].secret in s.secrets)
    && (forall p, id :: p in s.reading && id in s.rows && s.rows[id].hash == HashToken(s.reading[p].secret) ==>
      s.reading[p].id == id)
  }

  ghost predicate Inv(s: State) { RowsOk(s) && AnswersOk(s) && ReadingOk(s) }

  /** Under the invariant the unique columns never refuse a fresh secret. */
  lemma CommitsIff(s: State, a: Action, id: string)
    requires Inv(s) && Enabled(s, a)
    ensures Commits(s, a, id) <==>
      (a.LoginStep? && a.id == id) || (a.RotateStep? && s.reading[a.p].id == id && s.rows[id].revokedAt.None?)
  {
  }

  lemma StepKeepsRows(s: State, a: Action)
    requires RowsOk(s) && Enabled(s, a)
    ensures RowsOk(Do(s, a))
  {
    match a
    case LoginStep(_, _, _, _, _, _) => StatementKeepsUnique(s.rows, RowOpOf(s, a));
    case RotateStep(_, _, _, _, _, _) => StatementKeepsUnique(s.rows, RowOpOf(s, a));
    case RevokeStep(jti, at) => StatementKeepsUnique(s.rows, RevokeByAccessJTI(jti, at));
    case _ =>
  }

  lemma StepKeepsReading(s: State, a: Action)
    requires RowsOk(s) && ReadingOk(s) && Enabled(s, a)
    ensures ReadingOk(Do(s, a))
  {
  }

  lemma StepKeepsAnswers(s: State, a: Action)
    requires Inv(s) && Enabled(s, a) && Evolves(s.rows, Do(s, a).rows)
    ensures AnswersOk(Do(s, a))
  {
    var t := Do(s, a);
    if t.answers != s.answers {
      AnswerAdded(s, t, a);
    } else {
      AnswersStay(s, t);
    }
  }

  lemma AnswersStay(s: State, t: State)
    requires AnswersOk(s) && Evolves(s.rows, t.rows) && t.answers == s.answers
    ensures AnswersOk(t)
  {
  }

  lemma AnswerAdded(s: State, t: State, a: Action)
    requires Inv(s) && Enabled(s, a) && t == Do(s, a) && t.answers != s.answers && Evolves(s.rows, t.rows)
    ensures AnswersOk(t)
  {
    var id := s.reading[a.p].id;
    OneMoreAnswer(s, t, id);
  }

  lemma OneMoreAnswer(s: State, t: State, id: string)
    requires AnswersOk(s) && Evolves(s.rows, t.rows) && id in s.rows && s.rows[id].version >= 1
    requires t.answers == s.answers + [Answer(id, t.rows[id].version)] && t.rows[id].version == s.rows[id].version + 1
    ensures AnswersOk(t)
  {
  }

  lemma StepEvolves(s: State, a: Action)
    requires Enabled(s, a)
    ensures Evolves(s.rows, Do(s, a).rows)
  {
    if a.LoginStep? || a.RotateStep? {
      StatementEvolves(s.rows, RowOpOf(s, a));
    } else if a.RevokeStep? {
      StatementEvolves(s.rows, RevokeByAccessJTI(a.jti, a.at));
    }
  }

  lemma StepKeeps(s: State, a: Action)
    requires Inv(s) && Enabled(s, a)
    ensures Inv(Do(s, a)) && Evolves(s.rows, Do(s, a).rows)
  {
    StepKeepsRows(s, a);
    StepKeepsReading(s, a);
    StepEvolves(s, a);
    StepKeepsAnswers(s, a);
  }

  lemma {:induction false} RunKeeps(s: State, run: seq<Action>)
    requires Inv(s) && Legal(s, run)
    ensures Inv(Exec(s, run)) && Evolves(s.rows, Exec(s, run).rows)
    decreases |run|
  {
    if run != [] {
      StepKeeps(s, run[0]);
      RunKeeps(Do(s, run[0]), run[1..]);
    }
  }

  // ---- versions and secrets -----------------------------------------------------------

  /** The stored version is 1 plus the number of committed rotations, and the stored hash
      is that of the secret committed last. */
  lemma {:induction false} RowTellsItsHistory(s: State, run: seq<Action>, id: string)
    requires Inv(s) && Legal(s, run) && id in Exec(s, run).rows
    ensures var secrets, row := SecretsOf(s, run, id), Exec(s, run).rows[id];
      && row.version == (if id in s.rows then s.rows[id].version else 1) + Rotations(s, run, id)
      && (id !in s.rows ==> secrets != [])
      && row.hash == if secrets == [] then s.rows[id].hash else HashToken(secrets[|secrets| - 1])
    decreases |run|
  {
    if run != [] {
      StepKeeps(s, run[0]);
      StepTellsItsHistory(s, run[0], id);
      RowTellsItsHistory(Do(s, run[0]), run[1..], id);
    }
  }

  lemma StepTellsItsHistory(s: State, a: Action, id: string)
    requires Inv(s) && Enabled(s, a)
    ensures var rows := Do(s, a).rows;
      && (id in rows <==> id in s.rows || Commits(s, a, id))
      && (id in rows && !Commits(s, a, id) ==>
        rows[id].version == s.rows[id].version && rows[id].hash == s.rows[id].hash)
      && (Commits(s, a, id) ==> rows[id].hash == HashToken(a.secret))
      && (Commits(s, a, id) ==> rows[id].version == if a.RotateStep? then s.rows[id].version + 1 else 1)
      && (Commits(s, a, id) ==> (a.RotateStep? <==> id in s.rows))
  {
  }

  /** From an empty table on: refreshes of one session that returned carry distinct
      versions, increasing in commit order, and none beyond what is stored. */
  lemma AnswersIncrease(s: State, run: seq<Action>, j: nat, k: nat)
    requires Initial(s) && Legal(s, run)
    requires j < k < |Exec(s, run).answers| && Exec(s, run).answers[j].id == Exec(s, run).answers[k].id
    ensures var end := Exec(s, run);
      && end.answers[k].id in end.rows
      && 2 <= end.answers[j].version < end.answers[k].version <= end.rows[end.answers[k].id].version
  {
    RunKeeps(s, run);
  }

  predicate Bears(rows: Rows, jti: string) { exists id :: id in rows && rows[id].jti == jti }

  /** What was generated once and is in the table no more never comes back. */
  lemma {:induction false} RetiredStaysRetired(s: State, run: seq<Action>, secret: string, jti: string)
    requires Inv(s) && Legal(s, run) && secret in s.secrets && jti in s.jtis
    ensures !Finds(s.rows, secret) ==> !Finds(Exec(s, run).rows, secret)
    ensures !Bears(s.rows, jti) ==> !Bears(Exec(s, run).rows, jti)
    decreases |run|
  {
    if run != [] {
      StepKeeps(s, run[0]);
      StepRetires(s, run[0], secret, jti);
      RetiredStaysRetired(Do(s, run[0]), run[1..], secret, jti);
    }
  }

  lemma StepRetires(s: State, a: Action, secret: string, jti: string)
    requires Inv(s) && Enabled(s, a) && secret in s.secrets && jti in s.jtis
    ensures secret in Do(s, a).secrets && jti in Do(s, a).jtis
    ensures forall id :: id in Do(s, a).rows && Do(s, a).rows[id].hash == HashToken(secret) ==>
      id in s.rows && s.rows[id].hash == HashToken(secret) && !Commits(s, a, id)
    ensures forall id :: id in Do(s, a).rows && Do(s, a).rows[id].jti == jti ==>
      id in s.rows && s.rows[id].jti == jti && !Commits(s, a, id)
  {
    StepRetiresSecret(s, a, secret);
  }

  lemma StepRetiresSecret(s: State, a: Action, secret: string)
    requires Inv(s) && Enabled(s, a) && secret in s.secrets
    ensures secret in Do(s, a).secrets
    ensures forall id :: id in Do(s, a).rows && Do(s, a).rows[id].hash == HashToken(secret) ==>
      id in s.rows && s.rows[id].hash == HashToken(secret) && !Commits(s, a, id)
  {
  }

  lemma RotationRetires(s: State, a: Action, id: string)
    requires Inv(s) && Enabled(s, a) && Commits(s, a, id) && id in s.rows
    ensures !Finds(Do(s, a).rows, s.rows[id].hash.secret) && !Bears(Do(s, a).rows, s.rows[id].jti)
  {
    StepRetires(s, a, s.rows[id].hash.secret, s.rows[id].jti);
  }

  /** A rotation retires the secret and the access token it replaces for good: no later
      lookup finds the secret, and no later revocation reaches the access token, which
      therefore never reads as revoked. */
  lemma RotationIsFinal(s: State, a: Action, id: string, later: seq<Action>, at: int)
    requires Inv(s) && Enabled(s, a) && Commits(s, a, id) && id in s.rows
    requires Legal(Do(s, a), later)
    ensures var end := Exec(Do(s, a), later);
      && !Finds(end.rows, s.rows[id].hash.secret)
      && !Revoked(Apply(end.rows, RevokeByAccessJTI(s.rows[id].jti, at)), s.rows[id].jti)
  {
    var secret, jti := s.rows[id].hash.secret, s.rows[id].jti;
    StepKeeps(s, a);
    RotationRetires(s, a, id);
    RetiredStaysRetired(Do(s, a), later, secret, jti);
    RevocationTakes(Exec(Do(s, a), later).rows, jti, at, jti);
  }

  /** One rotation of a session that is open when it runs: it commits, answers with the next
      version, and leaves the session open and every other refresh where it was. */
  lemma OpenRotationAnswers(s: State, a: Action, t: State)
    requires Inv(s) && Enabled(s, a) && a.RotateStep? && a.replied && Open(s.rows, s.reading[a.p].id) && t == Do(s, a)
    ensures var id := s.reading[a.p].id; var version := s.rows[id].version + 1;
      && Commits(s, a, id) && Inv(t) && Open(t.rows, id) && t.rows[id].version == version
      && t.rows[id].hash == HashToken(a.secret) && t.answers == s.answers + [Answer(id, version)]
    ensures t.reading == s.reading - {a.p}
  {
    CommitsIff(s, a, s.reading[a.p].id);
    StepKeeps(s, a);
  }

  /** Two refreshes that looked up one secret before either rotated both succeed, one
      version apart, and the secret handed to the first is dead at once. */
  lemma OneSecretRefreshesTwice(s: State, a: Action, s1: State, b: Action, s2: State, id: string)
    requires Inv(s) && Enabled(s, a) && a.RotateStep? && a.replied && s1 == Do(s, a)
    requires Enabled(s1, b) && b.RotateStep? && b.replied && s2 == Do(s1, b)
    requires a.p != b.p && b.p in s.reading && s.reading[a.p].id == s.reading[b.p].id == id && Open(s.rows, id)
    ensures var version := s.rows[id].version;
      s2.answers == s.answers + [Answer(id, version + 1), Answer(id, version + 2)]
    ensures !Finds(s2.rows, a.secret)
  {
    OpenRotationAnswers(s, a, s1);
    assert s1.reading[b.p].id == id;
    SecondAnswers(s1, b, s2, id, a.secret);
    TwoAppended(s.answers, Answer(id, s.rows[id].version + 1), Answer(id, s.rows[id].version + 2));
  }

  lemma TwoAppended(s: seq<Answer>, a: Answer, b: Answer)
    ensures s + [a] + [b] == s + [a, b]
  {
  }

  lemma SecondAnswers(s: State, b: Action, t: State, id: string, secret: string)
    requires Inv(s) && Enabled(s, b) && b.RotateStep? && b.replied && t == Do(s, b) && s.reading[b.p].id == id
    requires Open(s.rows, id) && s.rows[id].hash == HashToken(secret)
    ensures t.answers == s.answers + [Answer(id, s.rows[id].version + 1)] && !Finds(t.rows, secret)
  {
    OpenRotationAnswers(s, b, t);
    ReplacedIsDead(s, b, t, id, secret);
  }

  lemma ReplacedIsDead(s: State, a: Action, t: State, id: string, secret: string)
    requires Inv(s) && Enabled(s, a) && Commits(s, a, id) && t == Do(s, a)
    requires id in s.rows && s.rows[id].hash == HashToken(secret)
    ensures !Finds(t.rows, secret)
  {
    RotationRetires(s, a, id);
  }

  /** Who can still use a secret that a rotation has replaced: in every later state no lookup
      finds it, and a refresh that has read by it read before that rotation, the same session,
      and commits exactly if the session is still unrevoked. */
  lemma OldSecretRefreshes(s: State, a: Action, id: string, later: seq<Action>, b: Action)
    requires Inv(s) && Enabled(s, a) && a.RotateStep? && Commits(s, a, id) && Legal(Do(s, a), later)
    requires var end := Exec(Do(s, a), later);
      Enabled(end, b) && b.RotateStep? && end.reading[b.p].secret == s.rows[id].hash.secret
    ensures var end := Exec(Do(s, a), later);
      && b.p != a.p && b.p in s.reading && s.reading[b.p] == end.reading[b.p] == Reading(id, s.rows[id].hash.secret)
      && id in end.rows && (Commits(end, b, id) <==> end.rows[id].revokedAt.None?)
      && !Finds(end.rows, s.rows[id].hash.secret)
  {
    var t, secret := Do(s, a), s.rows[id].hash.secret;
    StepKeeps(s, a);
    RotationRetires(s, a, id);
    RunKeeps(t, later);
    RetiredStaysRetired(t, later, secret, s.rows[id].jti);
    ReadBefore(t, later, b.p, secret);
    assert s.rows[id].hash == HashToken(secret);
    CommitsIff(Exec(t, later), b, id);
  }

  /** Nobody begins to read by a secret that is out of the table. */
  lemma {:induction false} ReadBefore(s: State, run: seq<Action>, p: nat, secret: string)
    requires Inv(s) && Legal(s, run) && secret in s.secrets && !Finds(s.rows, secret)
    requires p in Exec(s, run).reading && Exec(s, run).reading[p].secret == secret
    ensures p in s.reading && s.reading[p] == Exec(s, run).reading[p]
    decreases |run|
  {
    if run != [] {
      StepKeeps(s, run[0]);
      StepRetiresSecret(s, run[0], secret);
      ReadBefore(Do(s, run[0]), run[1..], p, secret);
      NoNewReading(s, run[0], p, secret);
    }
  }

  lemma NoNewReading(s: State, a: Action, p: nat, secret: string)
    requires Enabled(s, a) && !Finds(s.rows, secret)
    requires p in Do(s, a).reading && Do(s, a).reading[p].secret == secret
    ensures p in s.reading && s.reading[p] == Do(s, a).reading[p]
  {
  }

  // ---- revocation ------------------------------------------------------------------------

  /** A revoked session is frozen whole whatever runs: nothing rotates it, also not a
      refresh that looked it up before, and its access token reads as revoked. */
  lemma {:induction false} RevocationIsPermanent(s: State, run: seq<Action>, id: string)
    requires Inv(s) && Legal(s, run) && id in s.rows && s.rows[id].revokedAt.Some?
    ensures var end := Exec(s, run);
      && id in end.rows && end.rows[id] == s.rows[id]
      && Revoked(end.rows, s.rows[id].jti)
      && SecretsOf(s, run, id) == []
      && (forall a :: Enabled(end, a) ==> !Commits(end, a, id) && !(a.LookupStep? && a.id == id))
    decreases |run|
  {
    if run != [] {
      StepKeeps(s, run[0]);
      CommitsIff(s, run[0], id);
      RevocationIsPermanent(Do(s, run[0]), run[1..], id);
    }
  }
}
