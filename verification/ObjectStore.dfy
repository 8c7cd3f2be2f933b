/** The S3 bucket and StorageService's paginated, batched deletion and listing. */
module ObjectStore {
  import opened Text
  import opened Faults
  import opened KeyLayout
  import opened Paths

  predicate Ascending(ks: seq<string>) {
    forall i, j :: 0 <= i < j < |ks| ==> Less(ks[i], ks[j])
  }

  predicate After(mark: Option<string>, k: string) { mark.Some? ==> Less(mark.value, k) }

  function Flatten(batches: seq<seq<string>>): seq<string> {
    if batches == [] then [] else Flatten(batches[..|batches| - 1]) + batches[|batches| - 1]
  }

  /** What is submitted for deletion when these keys are listed: each key trimmed, the
      blank ones skipped. */
  function Submitted(listed: seq<string>): seq<string> {
    if listed == [] then []
    else
      var k := TrimSpace(listed[|listed| - 1]);
      Submitted(listed[..|listed| - 1]) + if k == "" then [] else [k]
  }

  function Elements(ks: seq<string>): set<string> { set k | k in ks }

  /** The keys a full deletion by prefix removes from a set of objects. */
  function Doomed(objects: set<string>, prefix: string): set<string> {
    set k | k in objects && prefix <= k && TrimSpace(k) != "" :: TrimSpace(k)
  }

  datatype StorageError = NotConfigured | PrefixRequired | StoreFault

  /** One DeleteObjectsByPrefix: what it was asked for and whether it reported an error. */
  datatype Deletion = Deletion(prefix: string, failed: bool)

  /** `StorageService` over its bucket, with the batches the bucket was asked to delete and
      the deletions by prefix it was asked for. */
  class StorageService {
    var objects: set<string>
    var bodies: map<string, string> // what the objects hold
    var calls: nat                  // listings and batch deletes so far
    const faults: nat -> Fault      // how the n-th of them ends
    ghost var batches: seq<seq<string>>
    ghost var deletions: seq<Deletion>
    const named: bool // a bucket name is configured

    constructor (named: bool, objects: set<string>, faults: nat -> Fault)
      ensures this.objects == objects && this.named == named && this.faults == faults
      ensures calls == 0 && batches == [] && deletions == []
    {
      this.named, this.objects, this.faults := named, objects, faults;
      bodies, calls, batches, deletions := map[], 0, [], [];
    }

    /** uploadFile, when it takes effect. */
    method Store(key: string, body: string)
      modifies `objects, `bodies
      ensures objects == old(objects) + {key} && bodies == old(bodies)[key := body]
    {
      objects, bodies := objects + {key}, bodies[key := body];
    }

    /** One page of ListObjectsV2: the next keys in order, as many as the store likes. */
    method ListPage(prefix: string, mark: Option<string>) returns (ok: bool, page: seq<string>, more: bool)
      modifies `calls
      ensures calls == old(calls) + 1 && (ok <==> faults(old(calls)).NoFault?)
      ensures ok ==> Ascending(page)
      ensures ok ==> forall k :: k in page ==> k in objects && prefix <= k && After(mark, k)
      ensures ok ==> forall k :: k in objects && prefix <= k && After(mark, k) ==>
                k in page || (more && page != [] && Less(page[|page| - 1], k))
      ensures ok && more ==> page != []
    {
      page, more := [], false;
      var fault := faults(calls);
      calls := calls + 1;
      if !fault.NoFault? { return false, [], false; }
      var left := set k | k in objects && prefix <= k && After(mark, k);
      while left != {}
        invariant forall k :: k in objects && prefix <= k && After(mark, k) <==> k in page || k in left
        invariant Ascending(page) && calls == old(calls) + 1
        invariant forall k :: k in left && page != [] ==> Less(page[|page| - 1], k)
        decreases |left|
      {
        if * {
          if page != [] { return true, page, true; }
        }
        ghost var low := FirstExists(left);
        var first :| first in left && forall k :: k in left ==> k == first || Less(first, k);
        forall i | 0 <= i < |page| ensures Less(page[i], first) {
          if i < |page| - 1 { LessTrans(page[i], page[|page| - 1], first); }
        }
        page := page + [first];
        left := left - {first};
      }
      return true, page, false;
    }

    /** DeleteObjects: one batch, all or nothing; its reply may be lost. */
    method DeleteObjects(keys: seq<string>) returns (ok: bool)
      modifies `objects, `batches, `calls
      ensures calls == old(calls) + 1 && (ok <==> faults(old(calls)).NoFault?)
      ensures objects == old(objects) - Elements(Taken(faults(old(calls)), keys))
      ensures batches == old(batches) + if faults(old(calls)).LostCall? then [] else [keys]
    {
      var fault := faults(calls);
      calls := calls + 1;
      if fault.LostCall? { return false; }
      objects := objects - Elements(keys);
      batches := batches + [keys];
      return fault.NoFault?;
    }

    method Flush(toDelete: seq<string>) returns (ok: bool, ghost sent: seq<seq<string>>)
      modifies `objects, `batches, `calls
      ensures calls == if toDelete == [] then old(calls) else old(calls) + 1
      ensures ok <==> toDelete == [] || faults(old(calls)).NoFault?
      ensures objects == old(objects) - Elements(Flatten(sent)) && batches == old(batches) + sent
      ensures sent == [] || (sent == [toDelete] && toDelete != [])
      ensures ok ==> Flatten(sent) == toDelete
    {
      if |toDelete| == 0 { return true, []; }
      ghost var before := batches;
      ok := DeleteObjects(toDelete);
      sent := batches[|before|..];
      assert [toDelete][..0] == [];
    }

    /** The inner loop over one page of `DeleteObjectsByPrefix`. */
    method SubmitPage(page: seq<string>, pending: seq<string>)
      returns (ok: bool, toDelete: seq<string>, ghost sent: seq<seq<string>>)
      requires |pending| < 1000
      modifies `objects, `batches, `calls
      ensures batches == old(batches) + sent && objects == old(objects) - Elements(Flatten(sent))
      ensures forall b :: b in sent ==> 1 <= |b| <= 1000
      ensures calls >= old(calls) && (ok <==> Calm(faults, old(calls), calls))
      ensures ok ==> |toDelete| < 1000
      ensures ok ==> Flatten(sent) + toDelete == pending + Submitted(page)
      ensures !ok ==> Flatten(sent) <= pending + Submitted(page)
    {
      toDelete, sent, ok := pending, [], true;
      var i := 0;
      while i < |page|
        invariant 0 <= i <= |page| && |toDelete| < 1000
        invariant calls >= old(calls) && Calm(faults, old(calls), calls)
        invariant batches == old(batches) + sent && objects == old(objects) - Elements(Flatten(sent))
        invariant forall b :: b in sent ==> 1 <= |b| <= 1000
        invariant Flatten(sent) + toDelete == pending + Submitted(page[..i])
      {
        var key := TrimSpace(page[i]);
        SubmittedStep(page, i);
        i := i + 1;
        if key == "" { continue; }
        Regroup(Flatten(sent), toDelete, pending, Submitted(page[..i - 1]), key);
        toDelete := toDelete + [key];
        if |toDelete| == 1000 {
          ghost var last;
          ok, last := Flush(toDelete);
          SentAppend(old(objects), old(batches), sent, last);
          if !ok {
            SubmittedPrefix(page, i);
            LastOfPending(Flatten(sent), last, toDelete, pending, Submitted(page[..i]), Submitted(page));
            sent := sent + last;
            return;
          }
          sent := sent + last;
          toDelete := [];
        }
      }
      assert page[..i] == page;
    }

    /** Deletes every object under the prefix, page by page and batch by batch. On
        success the bucket has lost exactly the trimmed forms of the matching keys; on
        failure part of them. It fails exactly for want of a bucket or a prefix, or when one
        of its calls meets a fault. `listed` are the keys the pages held, in
        order, and `sent` the batches. */
    method DeleteObjectsByPrefix(prefix: string)
      returns (err: Option<StorageError>, ghost listed: seq<string>, ghost sent: seq<seq<string>>)
      modifies `objects, `batches, `calls, `deletions
      ensures err.None? ==> objects == old(objects) - Doomed(old(objects), TrimSpace(prefix))
      ensures objects <= old(objects) && old(objects) - objects <= Doomed(old(objects), TrimSpace(prefix))
      ensures err == Some(NotConfigured) <==> !named
      ensures err == Some(PrefixRequired) <==> named && TrimSpace(prefix) == ""
      ensures calls >= old(calls)
      ensures err == Some(StoreFault) <==> named && TrimSpace(prefix) != "" && !Calm(faults, old(calls), calls)
      ensures err.None? <==> named && TrimSpace(prefix) != "" && Calm(faults, old(calls), calls)
      ensures deletions == old(deletions) + [Deletion(prefix, err.Some?)]
      ensures batches == old(batches) + sent && forall b :: b in sent ==> 1 <= |b| <= 1000
      ensures err.None? ==> ListedAll(old(objects), TrimSpace(prefix), listed) && Flatten(sent) == Submitted(listed)
    {
      err, listed, sent := Purge(prefix);
      deletions := deletions + [Deletion(prefix, err.Some?)];
    }

    /** Its body, but for the note of it. */
    method Purge(prefix: string)
      returns (err: Option<StorageError>, ghost listed: seq<string>, ghost sent: seq<seq<string>>)
      modifies `objects, `batches, `calls
      ensures err.None? ==> objects == old(objects) - Doomed(old(objects), TrimSpace(prefix))
      ensures objects <= old(objects) && old(objects) - objects <= Doomed(old(objects), TrimSpace(prefix))
      ensures err == Some(NotConfigured) <==> !named
      ensures err == Some(PrefixRequired) <==> named && TrimSpace(prefix) == ""
      ensures calls >= old(calls)
      ensures err == Some(StoreFault) <==> named && TrimSpace(prefix) != "" && !Calm(faults, old(calls), calls)
      ensures err.None? <==> named && TrimSpace(prefix) != "" && Calm(faults, old(calls), calls)
      ensures batches == old(batches) + sent && forall b :: b in sent ==> 1 <= |b| <= 1000
      ensures err.None? ==> ListedAll(old(objects), TrimSpace(prefix), listed) && Flatten(sent) == Submitted(listed)
    {
      listed, sent := [], [];
      if !named { return Some(NotConfigured), listed, sent; }
      var trimmed := TrimSpace(prefix);
      if trimmed == "" { return Some(PrefixRequired), listed, sent; }
      TrimSpaceFixed(prefix);

      ghost var was := objects;
      var toDelete: seq<string> := [];
      var mark: Option<string>, more, ok := None, true, true;
      while more
        invariant |toDelete| < 1000 && calls >= old(calls) && Calm(faults, old(calls), calls)
        invariant PurgedSoFar(old(objects), old(batches), sent)
        invariant Flatten(sent) + toDelete == Submitted(listed) && Listing(was, trimmed, listed, mark, more)
        decreases more, |Remaining(was, trimmed, mark)|
      {
        ghost var earlier := calls;
        ok, toDelete, mark, more, listed, sent :=
          PurgePage(trimmed, toDelete, mark, was, old(batches), listed, sent);
        CalmThen(faults, old(calls), earlier, calls);
        if !ok { return Some(StoreFault), listed, sent; }
      }
      ListingDone(was, trimmed, listed, mark);
      ghost var last, earlier := [], calls;
      ok, last := Flush(toDelete);
      CalmThen(faults, old(calls), earlier, calls);
      SentAppend(was, old(batches), sent, last);
      LastOfPending(Flatten(sent), last, toDelete, [], Submitted(listed), Submitted(listed));
      sent := sent + last;
      SentIsDoomed(was, trimmed, listed, Flatten(sent));
      return if ok then None else Some(StoreFault), listed, sent;
    }

    /** What the batches sent so far have done to the bucket. */
    ghost predicate PurgedSoFar(was: set<string>, before: seq<seq<string>>, sent: seq<seq<string>>)
      reads this
    {
      && batches == before + sent && objects == was - Elements(Flatten(sent))
      && forall b :: b in sent ==> 1 <= |b| <= 1000
    }

    /** One turn of its loop: a page, and the batches that fill up with it. */
    method PurgePage(trimmed: string, pending: seq<string>, mark: Option<string>, ghost was: set<string>,
                     ghost before: seq<seq<string>>, ghost earlier: seq<string>, ghost sentBefore: seq<seq<string>>)
      returns (ok: bool, toDelete: seq<string>, next: Option<string>, more: bool, ghost listed: seq<string>,
               ghost sent: seq<seq<string>>)
      requires Trimmed(trimmed) && trimmed != "" && |pending| < 1000 && PurgedSoFar(was, before, sentBefore)
      requires Flatten(sentBefore) + pending == Submitted(earlier) && Listing(was, trimmed, earlier, mark, true)
      modifies `objects, `batches, `calls
      ensures calls > old(calls) && (ok <==> Calm(faults, old(calls), calls)) && PurgedSoFar(was, before, sent)
      ensures Elements(Flatten(sent)) <= Doomed(was, trimmed)
      ensures ok ==> |toDelete| < 1000 && Flatten(sent) + toDelete == Submitted(listed)
      ensures ok ==> Listing(was, trimmed, listed, next, more)
      ensures ok && more ==> |Remaining(was, trimmed, next)| < |Remaining(was, trimmed, mark)|
    {
      var page;
      toDelete, next, listed, sent := pending, mark, earlier, sentBefore;
      ok, page, more := ListPage(trimmed, mark);
      if !ok {
        SentIsDoomed(was, trimmed, listed, Flatten(sent));
        return;
      }
      PageOfOriginal(was, objects, trimmed, earlier, mark, Flatten(sent));
      ListingStep(was, trimmed, earlier, mark, page, more);
      SubmittedAppend(earlier, page);
      listed := earlier + page;
      ghost var flushed;
      ok, toDelete, flushed := SubmitPage(page, pending);
      CalmThen(faults, old(calls), old(calls) + 1, calls);
      SentAppend(was, before, sentBefore, flushed);
      Chain(Flatten(sentBefore), pending, Submitted(earlier), Flatten(flushed), Submitted(page), toDelete);
      sent := sentBefore + flushed;
      SentIsDoomed(was, trimmed, listed, Flatten(sent));
      next := if page == [] then mark else Some(page[|page| - 1]);
    }

    /** Pages through "users/" and records the first prefix of every media id. */
    method ListMediaPrefixes() returns (prefixes: map<string, string>, ok: bool, ghost listed: seq<string>)
      modifies `calls
      ensures calls >= old(calls) && (ok <==> named && Calm(faults, old(calls), calls))
      ensures ok ==> ListedAll(objects, "users/", listed) && prefixes == FirstWins(Refs(listed))
    {
      prefixes, listed, ok := map[], [], named;
      if !named { return; }
      var mark: Option<string>, more := None, true;
      while more
        invariant ok && Listing(objects, "users/", listed, mark, more)
        invariant calls >= old(calls) && Calm(faults, old(calls), calls)
        invariant prefixes == FirstWins(Refs(listed))
        decreases more, |Remaining(objects, "users/", mark)|
      {
        ghost var earlier := calls;
        ok, prefixes, mark, more, listed := RecordNextPage(prefixes, mark, listed);
        CalmThen(faults, old(calls), earlier, calls);
        if !ok { return; }
      }
      ListingDone(objects, "users/", listed, mark);
    }

    /** One turn of its loop. */
    method RecordNextPage(found: map<string, string>, mark: Option<string>, ghost earlier: seq<string>)
      returns (ok: bool, prefixes: map<string, string>, next: Option<string>, more: bool, ghost listed: seq<string>)
      requires Listing(objects, "users/", earlier, mark, true) && found == FirstWins(Refs(earlier))
      modifies `calls
      ensures calls == old(calls) + 1 && (ok <==> faults(old(calls)).NoFault?)
      ensures ok ==> Listing(objects, "users/", listed, next, more) && prefixes == FirstWins(Refs(listed))
      ensures ok && more ==> |Remaining(objects, "users/", next)| < |Remaining(objects, "users/", mark)|
    {
      var page;
      prefixes, next, listed := found, mark, earlier;
      ok, page, more := ListPage("users/", mark);
      if !ok { return; }
      ListingStep(objects, "users/", earlier, mark, page, more);
      prefixes := RecordPage(Refs(page), found, Refs(earlier));
      RefsAppend(earlier, page);
      listed := earlier + page;
      next := if page == [] then mark else Some(page[|page| - 1]);
    }

    /** The inner loop of `ListMediaPrefixes` over one page, given what its keys parse to. */
    method RecordPage(page: seq<Option<MediaRef>>, found: map<string, string>,
                      ghost earlier: seq<Option<MediaRef>>)
      returns (prefixes: map<string, string>)
      requires found == FirstWins(earlier)
      ensures prefixes == FirstWins(earlier + page)
    {
      prefixes := found;
      var i := 0;
      assert earlier + page[..0] == earlier;
      while i < |page|
        invariant 0 <= i <= |page| && prefixes == FirstWins(earlier + page[..i])
      {
        FirstWinsStep(earlier, page, i);
        if page[i].Some? && page[i].value.id !in prefixes {
          prefixes := prefixes[page[i].value.id := page[i].value.prefix];
        }
        i := i + 1;
      }
      assert page[..i] == page;
    }
  }

  /** What a batch delete takes. */
  function Taken(fault: Fault, keys: seq<string>): seq<string> { if fault.LostCall? then [] else keys }

  /** All keys with the prefix, in order. */
  ghost predicate ListedAll(objects: set<string>, prefix: string, listed: seq<string>) {
    Ascending(listed) && forall k :: k in listed <==> k in objects && prefix <= k
  }

  lemma ListingDone(objects: set<string>, prefix: string, listed: seq<string>, mark: Option<string>)
    requires Listing(objects, prefix, listed, mark, false)
    ensures ListedAll(objects, prefix, listed)
  {
  }

  /** What each listed key parses to. */
  function Refs(listed: seq<string>): (refs: seq<Option<MediaRef>>)
    ensures |refs| == |listed|
    ensures forall i :: 0 <= i < |listed| ==> refs[i] == ExtractMediaPrefix(TrimSpace(listed[i]))
  {
    seq(|listed|, i requires 0 <= i < |listed| => ExtractMediaPrefix(TrimSpace(listed[i])))
  }

  /** The media ids parsed, each with the prefix of its first key. */
  function FirstWins(refs: seq<Option<MediaRef>>): map<string, string> {
    if refs == [] then map[]
    else
      var found := FirstWins(refs[..|refs| - 1]);
      match refs[|refs| - 1]
      case None => found
      case Some(ref) => if ref.id in found then found else found[ref.id := ref.prefix]
  }

  /** Where a listing stands: the keys listed so far are in order, and what is missing
      lies after the mark. */
  ghost predicate Listing(objects: set<string>, prefix: string, listed: seq<string>, mark: Option<string>, more: bool) {
    && Ascending(listed)
    && (forall k :: k in listed ==> k in objects && prefix <= k)
    && mark == (if listed == [] then None else Some(listed[|listed| - 1]))
    && (forall k :: k in objects && prefix <= k ==> k in listed || (more && After(mark, k)))
  }

  ghost function Remaining(objects: set<string>, prefix: string, mark: Option<string>): set<string> {
    set k | k in objects && prefix <= k && After(mark, k)
  }

  lemma {:induction false} SubmittedElements(ls: seq<string>)
    ensures forall x :: x in ls && TrimSpace(x) != "" ==> TrimSpace(x) in Submitted(ls)
    ensures forall k :: k in Submitted(ls) ==> k != "" && exists x :: x in ls && TrimSpace(x) == k
  {
    if ls != [] {
      var rest, last := ls[..|ls| - 1], ls[|ls| - 1];
      SubmittedElements(rest);
      assert ls == rest + [last];
      forall k | k in Submitted(ls) ensures k != "" && exists x :: x in ls && TrimSpace(x) == k {
        if k in Submitted(rest) {
          var x :| x in rest && TrimSpace(x) == k;
          assert x in ls;
        } else {
          assert last in ls;
        }
      }
    }
  }

  lemma {:induction false} SubmittedAppend(a: seq<string>, b: seq<string>)
    ensures Submitted(a + b) == Submitted(a) + Submitted(b)
  {
    if b == [] {
      assert a + b == a;
    } else {
      assert (a + b)[..|a + b| - 1] == a + b[..|b| - 1];
      SubmittedAppend(a, b[..|b| - 1]);
    }
  }

  /** Deleting the keys of earlier pages does not disturb what later pages will hold. */
  lemma PageOfOriginal(was: set<string>, now: set<string>, prefix: string, listed: seq<string>,
                       mark: Option<string>, sent: seq<string>)
    requires Trimmed(prefix) && prefix != ""
    requires Listing(was, prefix, listed, mark, true)
    requires now == was - Elements(sent) && sent <= Submitted(listed)
    ensures Remaining(now, prefix, mark) == Remaining(was, prefix, mark)
  {
    forall k | k in Remaining(was, prefix, mark) ensures k in now {
      if k in sent {
        assert k in Elements(Submitted(listed));
        SubmittedElements(listed);
        var x :| x in listed && TrimSpace(x) == k;
        assert x[0] == prefix[0];
        assert k <= x;
        PrefixNotGreater(k, x);
        var i :| 0 <= i < |listed| && listed[i] == x;
        LessTotal(x, k);
        if i < |listed| - 1 { LessTrans(x, listed[|listed| - 1], k); }
        assert false;
      }
    }
  }

  lemma ListingStep(objects: set<string>, prefix: string, listed: seq<string>, mark: Option<string>,
                    page: seq<string>, more: bool)
    requires Listing(objects, prefix, listed, mark, true)
    requires Ascending(page) && (more ==> page != [])
    requires forall k :: k in page ==> k in Remaining(objects, prefix, mark)
    requires forall k :: k in Remaining(objects, prefix, mark) ==>
               k in page || (more && page != [] && Less(page[|page| - 1], k))
    ensures var next := if page == [] then mark else Some(page[|page| - 1]);
            && Listing(objects, prefix, listed + page, next, more)
            && Remaining(objects, prefix, next) <= Remaining(objects, prefix, mark)
            && (more ==> |Remaining(objects, prefix, next)| < |Remaining(objects, prefix, mark)|)
  {
    if page != [] {
      var all, last := listed + page, page[|page| - 1];
      forall i, j | 0 <= i < j < |all| ensures Less(all[i], all[j]) {
        if i < |listed| <= j {
          assert all[j] in page;
          if i < |listed| - 1 { LessTrans(all[i], listed[|listed| - 1], all[j]); }
        }
      }
      forall k | k in objects && After(Some(last), k) ensures After(mark, k) {
        if mark.Some? { assert last in page; LessTrans(mark.value, last, k); }
      }
      assert last in Remaining(objects, prefix, mark);
      LessTotal(last, last);
      var small, big := Remaining(objects, prefix, Some(last)), Remaining(objects, prefix, mark);
      assert small <= big - {last};
      CardMono(small, big - {last});
    } else {
      assert listed + page == listed;
    }
  }

  lemma {:induction false} CardMono(a: set<string>, b: set<string>)
    requires a <= b
    ensures |a| <= |b|
    decreases |a|
  {
    if a != {} {
      var x :| x in a;
      CardMono(a - {x}, b - {x});
    }
  }

  lemma SentAppend(was: set<string>, before: seq<seq<string>>, a: seq<seq<string>>, b: seq<seq<string>>)
    ensures before + a + b == before + (a + b)
    ensures Flatten(a + b) == Flatten(a) + Flatten(b)
    ensures |b| == 1 ==> Flatten(b) == b[0]
    ensures was - Elements(Flatten(a)) - Elements(Flatten(b)) == was - Elements(Flatten(a + b))
  {
    FlattenConcat(a, b);
    assert Elements(Flatten(a) + Flatten(b)) == Elements(Flatten(a)) + Elements(Flatten(b));
  }

  lemma {:induction false} FlattenConcat(a: seq<seq<string>>, b: seq<seq<string>>)
    ensures Flatten(a + b) == Flatten(a) + Flatten(b)
  {
    if b == [] {
      assert a + b == a;
    } else {
      assert (a + b)[..|a + b| - 1] == a + b[..|b| - 1];
      FlattenConcat(a, b[..|b| - 1]);
    }
  }

  lemma SentIsDoomed(objects: set<string>, prefix: string, listed: seq<string>, sent: seq<string>)
    requires forall k :: k in listed ==> k in objects && prefix <= k
    requires sent <= Submitted(listed)
    ensures Elements(sent) <= Doomed(objects, prefix)
    ensures sent == Submitted(listed) && (forall k :: k in objects && prefix <= k ==> k in listed)
            ==> Elements(sent) == Doomed(objects, prefix)
  {
    SubmittedElements(listed);
    forall k | k in sent ensures k in Doomed(objects, prefix) {
      assert k in Elements(Submitted(listed));
    }
  }

  /** What a successful deletion by prefix does: keys without the prefix stay, and none
      with the prefix is left exactly when every such key equals its trimmed form. */
  lemma DeletionExact(objects: set<string>, prefix: string)
    requires Trimmed(prefix) && prefix != ""
    ensures forall k :: k in Doomed(objects, prefix) ==> prefix <= k
    ensures (forall k :: k in objects - Doomed(objects, prefix) ==> !(prefix <= k))
       <==> (forall k :: k in objects && prefix <= k ==> Trimmed(k))
  {
    var doomed := Doomed(objects, prefix);
    forall k | k in doomed ensures prefix <= k && Trimmed(k) {
      var x :| x in objects && prefix <= x && TrimSpace(x) == k;
      TrimBelow(prefix, x);
      TrimSpaceFixed(x);
    }
    forall k | k in objects && prefix <= k ensures k in doomed <==> Trimmed(k) {
      TrimBelow(prefix, k);
    }
    if k :| k in objects && prefix <= k && !Trimmed(k) {
      assert k in objects - doomed;
    }
  }

  /** Which uploads a deletion by their media's prefix removes: all but those whose base
      name is ".." (they collapse to the media directory's own key) and those whose base
      name ends in white space, which a slash after it shields from the trimming of the
      name (a blank becomes an underscore, but a tab stays). */
  lemma UploadIsDeletable(owner: string, id: string, name: string)
    requires Component(owner) && Component(id)
    ensures var key, safe := OriginalKey(owner, id, name), SanitizeFilename(name);
      && safe != ""
      && (key in Doomed({key}, MediaPrefix(owner, id)) <==> Base(TrimSpace(name)) != ".." && !IsSpace(safe[|safe| - 1]))
  {
    OriginalKeyRoundTrip(owner, id, name);
    SanitizedShape(name);
    assert Trimmed(MediaPrefix(owner, id)) && MediaPrefix(owner, id) != "" by {
      MediaPrefixShape(owner, id);
      TrimSpaceFixed(MediaPrefix(owner, id));
    }
    AloneDoomed(OriginalKey(owner, id, name), MediaPrefix(owner, id));
    if SanitizeFilename(name) != ".." { OriginalKeyEnds(owner, id, name); }
  }

  lemma AloneDoomed(key: string, prefix: string)
    requires Trimmed(prefix) && prefix != ""
    ensures key in Doomed({key}, prefix) <==> prefix <= key && Trimmed(key)
  {
    if prefix <= key { TrimBelow(prefix, key); }
  }

  lemma OriginalKeyEnds(owner: string, id: string, name: string)
    requires Component(owner) && Component(id) && Plain(SanitizeFilename(name))
    ensures var key, safe := OriginalKey(owner, id, name), SanitizeFilename(name);
      Trimmed(key) <==> !IsSpace(safe[|safe| - 1])
  {
    OriginalKeyPlain(owner, id, name);
    EndsOf(MediaPrefix(owner, id), OriginalKey(owner, id, name), SanitizeFilename(name)) by {
      MediaPrefixShape(owner, id);
    }
  }

  lemma EndsOf(prefix: string, key: string, safe: string)
    requires "users/" <= prefix && safe != "" && key == prefix + Join(["original", safe], '/')
    ensures Trimmed(key) <==> !IsSpace(safe[|safe| - 1])
  {
    JoinCut(["original"], [safe], '/');
    assert ["original"] + [safe] == ["original", safe];
    assert key == prefix + "original/" + safe;
    assert key[0] == 'u' && key[|key| - 1] == safe[|safe| - 1];
  }

  /** Such a name: its object is left behind by every deletion. */
  lemma TabBeforeSlashStays(owner: string, id: string)
    requires Component(owner) && Component(id)
    ensures var key := OriginalKey(owner, id, "a\t/"); key !in Doomed({key}, MediaPrefix(owner, id))
  {
    var name := "a\t/";
    assert Trimmed(name);
    TrimSpaceFixed(name);
    assert name[..2] == "a\t";
    UploadIsDeletable(owner, id, name);
  }

  lemma TrimBelow(prefix: string, k: string)
    requires Trimmed(prefix) && prefix != "" && prefix <= k
    ensures TrimSpace(k) != "" && prefix <= TrimSpace(k)
    ensures Trimmed(k) <==> TrimSpace(k) == k
  {
    assert k[0] == prefix[0];
    TrimRightKeeps(prefix, k[|prefix|..], IsSpace);
    assert prefix + k[|prefix|..] == k;
    TrimSpaceFixed(k);
  }

  /** With trimmed keys, the batches hold every listed key once. */
  lemma {:induction false} SubmittedOnce(listed: seq<string>)
    requires forall k :: k in listed ==> Trimmed(k) && k != ""
    ensures Submitted(listed) == listed
    ensures Ascending(listed) ==> forall i, j :: 0 <= i < j < |listed| ==> listed[i] != listed[j]
  {
    if listed != [] {
      var rest, last := listed[..|listed| - 1], listed[|listed| - 1];
      assert last in listed;
      forall k | k in rest ensures k in listed {}
      SubmittedOnce(rest);
      TrimSpaceFixed(last);
      assert listed == rest + [last];
    }
    forall i, j | 0 <= i < j < |listed| && Ascending(listed) ensures listed[i] != listed[j] {
      LessTotal(listed[i], listed[j]);
    }
  }

  lemma RefsAppend(a: seq<string>, b: seq<string>)
    ensures Refs(a + b) == Refs(a) + Refs(b)
  {
    forall i | 0 <= i < |a + b| ensures Refs(a + b)[i] == (Refs(a) + Refs(b))[i] {
      assert (a + b)[i] == if i < |a| then a[i] else b[i - |a|];
    }
  }

  lemma FirstWinsStep(refs: seq<Option<MediaRef>>, page: seq<Option<MediaRef>>, i: nat)
    requires i < |page|
    ensures FirstWins(refs + page[..i + 1]) ==
      var found := FirstWins(refs + page[..i]);
      if page[i].Some? && page[i].value.id !in found then found[page[i].value.id := page[i].value.prefix] else found
  {
    assert (refs + page[..i + 1])[..|refs| + i] == refs + page[..i];
  }

  predicate FirstRef(refs: seq<Option<MediaRef>>, id: string, i: int) {
    && 0 <= i < |refs| && refs[i].Some? && refs[i].value.id == id
    && forall j :: 0 <= j < i ==> refs[j].None? || refs[j].value.id != id
  }

  /** An id is recorded exactly when some listed key parses to it, and with the prefix
      of the first such key. */
  lemma {:induction false} FirstPrefixWins(refs: seq<Option<MediaRef>>, id: string)
    ensures id in FirstWins(refs) <==> exists i :: FirstRef(refs, id, i)
    ensures forall i :: FirstRef(refs, id, i) ==> FirstWins(refs)[id] == refs[i].value.prefix
  {
    if refs != [] {
      var n := |refs| - 1;
      FirstPrefixWins(refs[..n], id);
      forall i | 0 <= i < n ensures FirstRef(refs, id, i) <==> FirstRef(refs[..n], id, i) {}
      if id in FirstWins(refs[..n]) {
        var i :| FirstRef(refs[..n], id, i);
        assert FirstRef(refs, id, i);
      } else if refs[n].Some? && refs[n].value.id == id {
        if exists j :: 0 <= j < n && refs[j].Some? && refs[j].value.id == id {
          var _ := FirstRefExists(refs[..n], id);
        }
        assert FirstRef(refs, id, n);
      }
    }
  }

  /** In a listing in key order the prefix recorded for an id is that of the least key that
      parses to it, however the listing was cut into pages. */
  lemma LeastKeyWins(listed: seq<string>, refs: seq<Option<MediaRef>>, id: string) returns (i: nat)
    requires Ascending(listed) && |refs| == |listed| && id in FirstWins(refs)
    ensures i < |refs| && refs[i] == Some(MediaRef(id, FirstWins(refs)[id]))
    ensures forall j :: 0 <= j < |refs| && refs[j].Some? && refs[j].value.id == id ==>
      j == i || Less(listed[i], listed[j])
  {
    FirstPrefixWins(refs, id);
    i :| FirstRef(refs, id, i);
  }

  lemma {:induction false} FirstRefExists(refs: seq<Option<MediaRef>>, id: string) returns (i: int)
    requires exists j :: 0 <= j < |refs| && refs[j].Some? && refs[j].value.id == id
    ensures FirstRef(refs, id, i)
  {
    i := 0;
    while refs[i].None? || refs[i].value.id != id
      invariant 0 <= i < |refs|
      invariant forall j :: 0 <= j < i ==> refs[j].None? || refs[j].value.id != id
      decreases |refs| - i
    {
      i := i + 1;
    }
  }

  lemma Regroup(a: seq<string>, b: seq<string>, c: seq<string>, d: seq<string>, key: string)
    requires a + b == c + d
    ensures a + (b + [key]) == c + (d + [key])
  {
    assert a + (b + [key]) == (a + b) + [key];
  }

  /** The last batch, delivered or not, is part of what was pending. */
  lemma LastOfPending(a: seq<string>, last: seq<seq<string>>, b: seq<string>, c: seq<string>, d: seq<string>,
                      longer: seq<string>)
    requires a + b == c + d && d <= longer && (last == [] || last == [b])
    ensures a + Flatten(last) <= c + longer
    ensures last == [b] ==> Flatten(last) == b
    ensures Flatten(last) == b && d == longer ==> a + Flatten(last) == c + longer
  {
    assert a <= a + b == c + d <= c + longer;
    if last == [b] { assert last[..0] == []; }
  }

  lemma Chain(a: seq<string>, b: seq<string>, c: seq<string>, d: seq<string>, e: seq<string>, r: seq<string>)
    requires a + b == c
    ensures d <= b + e ==> a + d <= c + e
    ensures d + r == b + e ==> (a + d) + r == c + e
  {
    assert c + e == a + (b + e);
    if d + r == b + e {
      assert (a + d) + r == a + (d + r);
    }
  }

  lemma SubmittedStep(ks: seq<string>, i: nat)
    requires i < |ks|
    ensures Submitted(ks[..i + 1]) == Submitted(ks[..i]) + if TrimSpace(ks[i]) == "" then [] else [TrimSpace(ks[i])]
  {
    assert ks[..i + 1][..i] == ks[..i];
  }

  lemma {:induction false} SubmittedPrefix(ks: seq<string>, i: nat)
    requires i <= |ks|
    ensures Submitted(ks[..i]) <= Submitted(ks)
  {
    SubmittedAppend(ks[..i], ks[i..]);
    assert ks[..i] + ks[i..] == ks;
  }
}
