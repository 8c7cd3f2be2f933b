/** What a sweep takes when one media id may occur under several owners, and what sweeping
    again and again achieves. A sweep records a single prefix per id, that of the least key
    that parses to it; so the directories of an id take turns. */
module RepeatedCleanup {
  import opened Text
  import opened KeyLayout
  import opened MediaTable
  import opened ObjectStore
  import opened Cleanup

  // ---- turns ---------------------------------------------------------------------------

  /** What the keys of a bucket parse to. */
  type Parsed = map<string, MediaRef>

  predicate SameId(refs: Parsed, a: string, b: string) { a in refs && b in refs && refs[a].id == refs[b].id }

  predicate SameDir(refs: Parsed, a: string, b: string) { a in refs && b in refs && refs[a] == refs[b] }

  /** y is the least key of its media id. */
  predicate Leads(refs: Parsed, bucket: set<string>, y: string) {
    y in bucket && y in refs && forall z :: z in bucket && SameId(refs, y, z) ==> z == y || Less(y, z)
  }

  /** The directory of k is the one a sweep records for its id. */
  ghost predicate HasTurn(refs: Parsed, bucket: set<string>, k: string) {
    exists y :: Leads(refs, bucket, y) && SameDir(refs, y, k)
  }

  /** Some key that no sweep takes, of the same id, is listed before the whole directory
      of k. */
  ghost predicate Blocked(refs: Parsed, orphans: set<string>, bucket: set<string>, k: string) {
    exists u :: u in bucket && u !in orphans && SameId(refs, u, k) && BeforeDir(refs, bucket, u, k)
  }

  predicate BeforeDir(refs: Parsed, bucket: set<string>, u: string, k: string) {
    forall x :: x in bucket && SameDir(refs, x, k) ==> Less(u, x)
  }

  /** One sweep: of the orphans, those whose directory has its turn go. */
  ghost predicate Takes(refs: Parsed, orphans: set<string>, before: set<string>, after: set<string>) {
    && after <= before && orphans <= refs.Keys
    && forall k :: k in before ==> (k !in after <==> k in orphans && HasTurn(refs, before, k))
  }

  lemma LeaderExists(refs: Parsed, bucket: set<string>, k: string) returns (y: string)
    requires k in bucket && k in refs
    ensures Leads(refs, bucket, y) && SameId(refs, y, k)
  {
    var same := set z | z in bucket && SameId(refs, z, k);
    assert k in same;
    y := FirstExists(same);
  }

  lemma OneLeader(refs: Parsed, bucket: set<string>, a: string, b: string)
    requires Leads(refs, bucket, a) && Leads(refs, bucket, b) && SameId(refs, a, b)
    ensures a == b
  {
    LessTotal(a, b);
  }

  lemma BlockedHasNoTurn(refs: Parsed, orphans: set<string>, bucket: set<string>, k: string)
    requires k in bucket && Blocked(refs, orphans, bucket, k)
    ensures !HasTurn(refs, bucket, k)
  {
    var u :| u in bucket && u !in orphans && SameId(refs, u, k) && BeforeDir(refs, bucket, u, k);
    if HasTurn(refs, bucket, k) {
      var y :| Leads(refs, bucket, y) && SameDir(refs, y, k);
      LessTotal(u, y);
    }
  }

  lemma SameTurn(refs: Parsed, bucket: set<string>, a: string, b: string)
    requires SameDir(refs, a, b)
    ensures HasTurn(refs, bucket, a) <==> HasTurn(refs, bucket, b)
  {
    forall y ensures SameDir(refs, y, a) <==> SameDir(refs, y, b) {}
  }

  /** While k stays, whether it is blocked does not change. */
  lemma BlockedThrough(refs: Parsed, orphans: set<string>, before: set<string>, after: set<string>, k: string)
    requires Takes(refs, orphans, before, after) && k in after && k in orphans
    ensures Blocked(refs, orphans, before, k) <==> Blocked(refs, orphans, after, k)
  {
    assert !HasTurn(refs, before, k);
    forall x | x in before && SameDir(refs, x, k) ensures x in after {
      SameTurn(refs, before, x, k);
    }
    assert forall u :: u in before && u !in orphans ==> u in after;
    forall u | u in after ensures BeforeDir(refs, before, u, k) <==> BeforeDir(refs, after, u, k) {
    }
  }

  /** When a sweep takes nothing, every orphan left is blocked. */
  lemma StuckIsBlocked(refs: Parsed, orphans: set<string>, bucket: set<string>, k: string)
    requires Takes(refs, orphans, bucket, bucket) && k in bucket && k in orphans
    ensures Blocked(refs, orphans, bucket, k)
  {
    var y := LeaderExists(refs, bucket, k);
    assert SameDir(refs, y, y);
    assert HasTurn(refs, bucket, y);
    assert y !in orphans;
    assert !SameDir(refs, y, k);
    forall x | x in bucket && SameDir(refs, x, k) ensures Less(y, x) {
      assert SameId(refs, y, x);
    }
    assert BeforeDir(refs, bucket, y, k);
  }

  // ---- one sweep ---------------------------------------------------------------------

  /** A sweep in which no attempt failed. */
  ghost predicate FaultFreeSweep(rows: Rows, before: set<string>, after: set<string>) {
    exists listed, found, swept :: Found(before, listed, found) && Sweep(rows, before, after, found, swept, {})
  }

  ghost predicate AllCanonical(bucket: set<string>) { forall k :: k in bucket ==> Canonical(k) }

  function ParsedKeys(bucket: set<string>): Parsed {
    map k | k in bucket && ExtractMediaPrefix(k).Some? :: ExtractMediaPrefix(k).value
  }

  predicate ParsesTo(refs: Parsed, bucket: set<string>) {
    forall k :: k in bucket ==>
      (k in refs <==> ExtractMediaPrefix(k).Some?) && (k in refs ==> ExtractMediaPrefix(k) == Some(refs[k]))
  }

  function Orphans(rows: Rows, bucket: set<string>): set<string> { set k | k in bucket && Sweepable(rows, k) }

  /** What a sweep without failures takes, whoever's directories share an id: the orphans
      below the prefix it recorded for their id. */
  lemma SweepTakesExactly(rows: Rows, before: set<string>, after: set<string>, listed: seq<string>,
                          found: map<string, string>, swept: set<string>, k: string)
    requires Found(before, listed, found) && Sweep(rows, before, after, found, swept, {})
    requires AllCanonical(before) && k in before
    ensures Sweepable(rows, k) ==> ExtractMediaPrefix(k).value.id in found
    ensures k !in after <==>
      Sweepable(rows, k) && found[ExtractMediaPrefix(k).value.id] == ExtractMediaPrefix(k).value.prefix
  {
    if Sweepable(rows, k) { OrphanUnderRecorded(rows, before, after, listed, found, swept, k); }
    if k !in after { TakenIsUnderRecorded(rows, before, after, listed, found, swept, k); }
  }

  lemma OrphanUnderRecorded(rows: Rows, before: set<string>, after: set<string>, listed: seq<string>,
                            found: map<string, string>, swept: set<string>, k: string)
    requires Found(before, listed, found) && Sweep(rows, before, after, found, swept, {})
    requires Canonical(k) && k in before && Sweepable(rows, k)
    ensures ExtractMediaPrefix(k).value.id in found
    ensures found[ExtractMediaPrefix(k).value.id] == ExtractMediaPrefix(k).value.prefix ==> k !in after
  {
    var id, prefix := ExtractMediaPrefix(k).value.id, ExtractMediaPrefix(k).value.prefix;
    var owner := Owner(k, id, prefix);
    MediaPrefixShape(owner, id);
    InMediaDirParses(k, owner, id);
    FoundWhenListed(before, listed, found, k, id, prefix);
    TrimSpaceFixed(k);
    if found[id] == prefix {
      assert k in Doomed(before, prefix);
      assert id in Scanned(found) && id !in LiveScanned(rows, found);
      assert id in swept + {};
      assert k in DoomedByAll(before, found, swept);
    }
  }

  lemma TakenIsUnderRecorded(rows: Rows, before: set<string>, after: set<string>, listed: seq<string>,
                             found: map<string, string>, swept: set<string>, k: string)
    requires Found(before, listed, found) && Sweep(rows, before, after, found, swept, {})
    requires AllCanonical(before) && k in before && k !in after
    ensures Sweepable(rows, k) && ExtractMediaPrefix(k).value.id in found
    ensures found[ExtractMediaPrefix(k).value.id] == ExtractMediaPrefix(k).value.prefix
  {
    SweepSafe(rows, before, after, listed, found, swept, {}, k);
    var id :| id in swept + {} && id in found && k in Doomed(before, TrimSpace(found[id]));
    var key := RecordedPrefix(before, listed, found, id);
    var owner := Owner(key, id, found[id]);
    MediaPrefixShape(owner, id);
    var x :| x in before && found[id] <= x && TrimSpace(x) == k;
    TrimStaysBelowPrefix(owner, id, x);
    ExtractBelowPrefix(owner, id, k);
  }

  /** The recorded prefix is that of the leader of the id. */
  lemma LeaderIsRecorded(before: set<string>, listed: seq<string>, found: map<string, string>, refs: Parsed, y: string)
    requires Found(before, listed, found) && AllCanonical(before) && ParsesTo(refs, before) && Leads(refs, before, y)
    ensures refs[y].id in found && found[refs[y].id] == refs[y].prefix
  {
    var id := refs[y].id;
    var owner := Owner(y, id, refs[y].prefix);
    InMediaDirParses(y, owner, id);
    FoundWhenListed(before, listed, found, y, id, refs[y].prefix);
    var i := LeastKeyWins(listed, Refs(listed), id);
    assert listed[i] in listed;
    var o := Owner(listed[i], id, found[id]);
    assert SameId(refs, y, listed[i]);
    assert y in listed;
    var j :| 0 <= j < |listed| && listed[j] == y;
    assert Refs(listed)[j] == Some(refs[y]);
    LessTotal(y, listed[i]);
  }

  // ---- sweeping again and again -----------------------------------------------------------

  /** A sweep without failures takes exactly the orphans whose directory has its turn; the
      listing order and the page sizes play no part. */
  lemma SweepIsATurn(rows: Rows, first: set<string>, before: set<string>, after: set<string>)
    requires AllCanonical(first) && before <= first && FaultFreeSweep(rows, before, after)
    ensures Takes(ParsedKeys(first), Orphans(rows, first), before, after)
  {
    var listed, found, swept :| Found(before, listed, found) && Sweep(rows, before, after, found, swept, {});
    forall k | k in before
      ensures k !in after <==> k in Orphans(rows, first) && HasTurn(ParsedKeys(first), before, k)
    {
      SweepTakesExactly(rows, before, after, listed, found, swept, k);
      if Sweepable(rows, k) { TurnIsRecorded(before, listed, found, ParsedKeys(first), k); }
    }
  }

  lemma TurnIsRecorded(before: set<string>, listed: seq<string>, found: map<string, string>, refs: Parsed, k: string)
    requires Found(before, listed, found) && AllCanonical(before) && ParsesTo(refs, before) && k in before && k in refs
    ensures refs[k].id in found
    ensures HasTurn(refs, before, k) <==> found[refs[k].id] == refs[k].prefix
  {
    var y := LeaderExists(refs, before, k);
    LeaderIsRecorded(before, listed, found, refs, y);
    if HasTurn(refs, before, k) {
      var z :| Leads(refs, before, z) && SameDir(refs, z, k);
      OneLeader(refs, before, y, z);
    } else {
      assert !SameDir(refs, y, k);
    }
  }

  /** Sweeps without failures, one after another, with nothing stored in between. */
  ghost predicate Sweeps(rows: Rows, buckets: seq<set<string>>) {
    |buckets| > 0 && forall i :: 0 < i < |buckets| ==> FaultFreeSweep(rows, buckets[i - 1], buckets[i])
  }

  ghost predicate Turns(refs: Parsed, orphans: set<string>, buckets: seq<set<string>>) {
    |buckets| > 0 && forall i :: 0 < i < |buckets| ==> Takes(refs, orphans, buckets[i - 1], buckets[i])
  }

  lemma {:induction false} OnlyShrinks(rows: Rows, buckets: seq<set<string>>, n: nat)
    requires n < |buckets| && Sweeps(rows, buckets)
    ensures buckets[n] <= buckets[0]
  {
    if n > 0 {
      OnlyShrinks(rows, buckets, n - 1);
      assert FaultFreeSweep(rows, buckets[n - 1], buckets[n]);
    }
  }

  lemma SweepsAreTurns(rows: Rows, buckets: seq<set<string>>)
    requires Sweeps(rows, buckets) && AllCanonical(buckets[0])
    ensures Turns(ParsedKeys(buckets[0]), Orphans(rows, buckets[0]), buckets)
  {
    forall i | 0 < i < |buckets|
      ensures Takes(ParsedKeys(buckets[0]), Orphans(rows, buckets[0]), buckets[i - 1], buckets[i])
    {
      OnlyShrinks(rows, buckets, i - 1);
      SweepIsATurn(rows, buckets[0], buckets[i - 1], buckets[i]);
    }
  }

  /** As long as sweeps still take something, each has cost the bucket an object. */
  lemma {:induction false} StillMoving(refs: Parsed, orphans: set<string>, buckets: seq<set<string>>, n: nat,
                                       after: set<string>)
    requires n < |buckets| && Turns(refs, orphans, buckets) && Takes(refs, orphans, buckets[n], after)
      && after != buckets[n]
    ensures |after| + n < |buckets[0]|
  {
    SmallerCount(after, buckets[n]);
    if n > 0 {
      assert Takes(refs, orphans, buckets[n - 1], buckets[n]);
      assert buckets[n] != buckets[n - 1];
      StillMoving(refs, orphans, buckets, n - 1, buckets[n]);
    }
  }

  lemma SmallerCount(a: set<string>, b: set<string>)
    requires a <= b
    ensures |a| <= |b| && (a != b ==> |a| < |b|)
  {
    assert |b - a| == |b| - |a|;
    if a != b { assert b - a != {}; }
  }

  lemma Settled(refs: Parsed, orphans: set<string>, buckets: seq<set<string>>)
    requires Turns(refs, orphans, buckets) && |buckets| > |buckets[0]| && orphans <= refs.Keys
    ensures Takes(refs, orphans, buckets[|buckets| - 1], buckets[|buckets| - 1])
  {
    var last := buckets[|buckets| - 1];
    var after := set k | k in last && !(k in orphans && HasTurn(refs, last, k));
    assert Takes(refs, orphans, last, after);
    if after != last { StillMoving(refs, orphans, buckets, |buckets| - 1, after); }
  }

  /** Sweeping ends, over every bucket of canonical keys: after as many sweeps as there were
      objects, a further one takes nothing. */
  lemma RepeatedSweepsSettle(rows: Rows, buckets: seq<set<string>>, after: set<string>)
    requires Sweeps(rows, buckets) && AllCanonical(buckets[0]) && |buckets| > |buckets[0]|
    requires FaultFreeSweep(rows, buckets[|buckets| - 1], after)
    ensures after == buckets[|buckets| - 1]
  {
    SweepsAreTurns(rows, buckets);
    Settled(ParsedKeys(buckets[0]), Orphans(rows, buckets[0]), buckets);
    OnlyShrinks(rows, buckets, |buckets| - 1);
    SweepIsATurn(rows, buckets[0], buckets[|buckets| - 1], after);
  }

  lemma {:induction false} BlockedAtStart(refs: Parsed, orphans: set<string>, buckets: seq<set<string>>, n: nat,
                                          k: string)
    requires n < |buckets| && Turns(refs, orphans, buckets) && k in buckets[0] && k in orphans
    ensures Blocked(refs, orphans, buckets[0], k) ==> k in buckets[n]
    ensures k in buckets[n] ==> (Blocked(refs, orphans, buckets[0], k) <==> Blocked(refs, orphans, buckets[n], k))
  {
    if n > 0 {
      BlockedAtStart(refs, orphans, buckets, n - 1, k);
      assert Takes(refs, orphans, buckets[n - 1], buckets[n]);
      if k in buckets[n] { BlockedThrough(refs, orphans, buckets[n - 1], buckets[n], k); }
      if Blocked(refs, orphans, buckets[0], k) { BlockedHasNoTurn(refs, orphans, buckets[n - 1], k); }
    }
  }

  /** Which orphans outlive all sweeps: exactly those for which a key that no sweep takes,
      of the same media id, is listed before every key of their own directory. */
  lemma OrphanOutlivesIff(rows: Rows, buckets: seq<set<string>>, k: string)
    requires Sweeps(rows, buckets) && AllCanonical(buckets[0]) && |buckets| > |buckets[0]|
    requires k in buckets[0] && Sweepable(rows, k)
    ensures k in buckets[|buckets| - 1] <==> Blocked(ParsedKeys(buckets[0]), Orphans(rows, buckets[0]), buckets[0], k)
  {
    var refs, orphans, last := ParsedKeys(buckets[0]), Orphans(rows, buckets[0]), buckets[|buckets| - 1];
    SweepsAreTurns(rows, buckets);
    BlockedAtStart(refs, orphans, buckets, |buckets| - 1, k);
    if k in last {
      Settled(refs, orphans, buckets);
      StuckIsBlocked(refs, orphans, last, k);
    }
  }

  /** A sweep without failures shrinks the bucket exactly when, for some dead id it recorded,
      an object below the recorded prefix has its trimmed form in the bucket. */
  lemma SweepShrinksIff(rows: Rows, before: set<string>, after: set<string>, listed: seq<string>,
                        found: map<string, string>, swept: set<string>)
    requires Found(before, listed, found) && Sweep(rows, before, after, found, swept, {})
    ensures after < before <==>
      exists id, x :: id in found && TrimSpace(id) != "" && !Live(rows, id) && Removes(before, found[id], x)
  {
    if id, x :| id in found && TrimSpace(id) != "" && !Live(rows, id) && Removes(before, found[id], x) {
      assert id in swept + {};
      assert TrimSpace(x) in Doomed(before, TrimSpace(found[id]));
      assert TrimSpace(x) in DoomedByAll(before, found, swept);
    }
    if k :| k in before && k !in after {
      assert k in DoomedByAll(before, found, swept + {});
      var id :| id in swept + {} && id in found && k in Doomed(before, TrimSpace(found[id]));
      var x :| x in before && TrimSpace(found[id]) <= x && TrimSpace(x) != "" && TrimSpace(x) == k;
      assert Removes(before, found[id], x);
    }
  }

  predicate Removes(bucket: set<string>, prefix: string, x: string) {
    x in bucket && TrimSpace(prefix) <= x && TrimSpace(x) != "" && TrimSpace(x) in bucket
  }

  /** An upload under the base name ".." leaves an object that is its media directory's own
      key. Listed before the objects of the same media id in another owner's directory, it
      shields all of them from every sweep. */
  lemma DirectoryKeyShields(rows: Rows, buckets: seq<set<string>>, a: string, b: string, id: string, k: string)
    requires Sweeps(rows, buckets) && AllCanonical(buckets[0]) && |buckets| > |buckets[0]|
    requires Component(a) && Component(b) && Component(id) && a != b
    requires Join(MediaDir(a, id), '/') in buckets[0]
    requires k in buckets[0] && MediaPrefix(b, id) <= k && Sweepable(rows, k)
    requires forall x :: x in buckets[0] && InMediaDir(x, b, id) ==> Less(Join(MediaDir(a, id), '/'), x)
    ensures k in buckets[|buckets| - 1]
  {
    var refs, d := ParsedKeys(buckets[0]), Join(MediaDir(a, id), '/');
    DirectoryKeyStays(rows, a, id);
    ExtractBelowPrefix(b, id, k);
    forall x | x in buckets[0] && SameDir(refs, x, k) ensures Less(d, x) {
      var o := Owner(x, id, MediaPrefix(b, id));
      PrefixInjective(o, id, b, id);
    }
    assert SameId(refs, d, k) && BeforeDir(refs, buckets[0], d, k);
    OrphanOutlivesIff(rows, buckets, k);
  }

  lemma DirectoryKeyStays(rows: Rows, a: string, id: string)
    requires Component(a) && Component(id)
    ensures var d := Join(MediaDir(a, id), '/');
      !Sweepable(rows, d) && ExtractMediaPrefix(d) == Some(MediaRef(id, MediaPrefix(a, id)))
  {
    MediaDirItselfParses(a, id);
    DirPlain(a, id);
  }
}
