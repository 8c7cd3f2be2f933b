/** The parts a transcoding job is made of: retries with backoff, the candidate directories
    for workspaces, and what moving from one to the next leaves behind. */
module Transcoding {
  import opened Text
  import opened Paths

  function Pow2(n: nat): nat { if n == 0 then 1 else 2 * Pow2(n - 1) }

  lemma {:induction false} Pow2Grows(a: nat, b: nat)
    requires a <= b
    ensures Pow2(a) <= Pow2(b) && Pow2(a) >= 1
  {
    if a < b { Pow2Grows(a, b - 1); } else if a > 0 { Pow2Grows(a - 1, b - 1); }
  }

  // ---- withRetry -----------------------------------------------------------------

  /** What the operation and the context do around attempt k (from 1). */
  datatype Oracle = Oracle(
    fails: nat -> bool,       // the k-th call of the operation fails
    doneBefore: nat -> bool,  // the context is over when attempt k starts
    doneAfter: nat -> bool,   // ... or when its call has failed
    doneInWait: nat -> bool)  // ... or while waiting after it

  datatype RetryResult = Succeeded | Exhausted(lastAttempt: nat) | Cancelled

  predicate Patient(o: Oracle, maxAttempts: nat) {
    forall k :: 1 <= k <= maxAttempts ==> !o.doneBefore(k) && !o.doneAfter(k) && !o.doneInWait(k)
  }

  /** The k-th call succeeds, and nothing ends the retries before it. */
  predicate SucceedsAt(o: Oracle, k: nat) {
    && k >= 1 && !o.fails(k) && !o.doneBefore(k)
    && forall j :: 1 <= j < k ==> o.fails(j) && !o.doneBefore(j) && !o.doneAfter(j) && !o.doneInWait(j)
  }

  predicate WillSucceed(o: Oracle, maxAttempts: nat) { exists k :: 1 <= k <= maxAttempts && SucceedsAt(o, k) }

  /** Succeeds exactly when one of the first maxAttempts calls does and nothing ends the
      retries before it. No call is made after a success, or once the context is over. The
      seconds waited (a wait that is cut short counted whole) double each time: they are
      2^n - 1 after n waits. */
  method WithRetry(maxAttempts: nat, o: Oracle) returns (r: RetryResult, calls: nat, slept: nat)
    requires maxAttempts >= 1
    ensures calls <= maxAttempts
    ensures forall k :: 1 <= k <= calls ==> !o.doneBefore(k)
    ensures forall k :: 1 <= k < calls ==> o.fails(k) && !o.doneAfter(k) && !o.doneInWait(k)
    ensures r.Succeeded? <==> WillSucceed(o, maxAttempts)
    ensures r.Succeeded? <==> calls >= 1 && !o.fails(calls)
    ensures r.Exhausted? ==> r.lastAttempt == calls == maxAttempts && o.fails(calls) && !o.doneAfter(calls)
    ensures r.Cancelled? ==> (
      || (calls >= 1 && o.doneAfter(calls)) || (1 <= calls < maxAttempts && o.doneInWait(calls))
      || (calls < maxAttempts && o.doneBefore(calls + 1)))
    ensures Patient(o, maxAttempts) ==> (r.Succeeded? <==> exists k :: 1 <= k <= maxAttempts && !o.fails(k))
    ensures slept ==
      if r.Cancelled? && (calls == 0 || !o.doneAfter(calls)) then Pow2(calls) - 1 else Pow2(calls - 1) - 1
    ensures slept <= Pow2(maxAttempts - 1) - 1
  {
    var backoff := 1;
    var attempt := 1;
    calls, slept := 0, 0;
    while attempt <= maxAttempts
      invariant 1 <= attempt <= maxAttempts
      invariant calls == attempt - 1
      invariant forall k :: 1 <= k <= calls ==>
        o.fails(k) && !o.doneBefore(k) && !o.doneAfter(k) && !o.doneInWait(k)
      invariant backoff == Pow2(attempt - 1) && slept == Pow2(attempt - 1) - 1
      decreases maxAttempts - attempt
    {
      Pow2Grows(attempt - 1, maxAttempts - 1);
      if o.doneBefore(attempt) { return Cancelled, calls, slept; }
      calls := attempt;
      if !o.fails(attempt) {
        assert SucceedsAt(o, attempt);
        return Succeeded, calls, slept;
      }
      if o.doneAfter(attempt) { return Cancelled, calls, slept; }
      if attempt == maxAttempts { break; }
      Pow2Grows(attempt, maxAttempts - 1);
      slept := slept + backoff;
      if o.doneInWait(attempt) { return Cancelled, calls, slept; }
      backoff := backoff * 2;
      attempt := attempt + 1;
    }
    return Exhausted(calls), calls, slept;
  }

  // ---- workspaces ------------------------------------------------------------------

  /** The directory a candidate stands for; none if it is blank. */
  function Cleaned(dir: string): Option<string> {
    if TrimSpace(dir) == "" then None else Some(Clean(TrimSpace(dir)))
  }

  function CleanedAll(dirs: seq<string>): (cs: seq<Option<string>>)
    ensures |cs| == |dirs| && forall i :: 0 <= i < |dirs| ==> cs[i] == Cleaned(dirs[i])
  {
    seq(|dirs|, i requires 0 <= i < |dirs| => Cleaned(dirs[i]))
  }

  predicate Among(cs: seq<Option<string>>, n: nat, d: string)
    requires n <= |cs|
  {
    exists j :: 0 <= j < n && cs[j] == Some(d)
  }

  predicate FirstAt(cs: seq<Option<string>>, i: nat, d: string)
    requires i < |cs|
  {
    cs[i] == Some(d) && forall j :: 0 <= j < i ==> cs[j] != Some(d)
  }

  /** `out` lists the directories among the first n of `cs`, each once: in their order,
      where each first occurs (at the positions `at`). */
  ghost predicate InFirstOrder(cs: seq<Option<string>>, n: nat, out: seq<string>, at: seq<nat>)
    requires n <= |cs|
  {
    && |at| == |out|
    && (forall i, j :: 0 <= i < j < |at| ==> at[i] < at[j])
    && (forall i :: 0 <= i < |at| ==> at[i] < n && FirstAt(cs, at[i], out[i]))
    && (forall d :: d in out <==> Among(cs, n, d))
  }

  function WithDir(out: seq<string>, c: Option<string>): seq<string> {
    if c.Some? && c.value !in out then out + [c.value] else out
  }

  /** The `add` closure: a blank directory and one already there are skipped. */
  method Add(dir: string, seen: set<string>, out: seq<string>)
    returns (seenNow: set<string>, outNow: seq<string>, ghost c: Option<string>)
    requires forall d :: d in seen <==> d in out
    ensures c == Cleaned(dir) && outNow == WithDir(out, c)
    ensures forall d :: d in seenNow <==> d in outNow
  {
    c := Cleaned(dir);
    var trimmed := TrimSpace(dir);
    if trimmed == "" { return seen, out, c; }
    var cleaned := Clean(trimmed);
    if cleaned in seen { return seen, out, c; }
    return seen + {cleaned}, out + [cleaned], c;
  }

  /** All candidates added in order. */
  method BaseDirs(candidates: seq<string>) returns (out: seq<string>, ghost at: seq<nat>)
    ensures InFirstOrder(CleanedAll(candidates), |candidates|, out, at)
    ensures forall d :: d in out <==>
      exists i :: 0 <= i < |candidates| && CandidateAt(candidates, i, d)
  {
    out, at := [], [];
    var seen: set<string> := {};
    ghost var cs: seq<Option<string>> := [];
    var i := 0;
    while i < |candidates|
      invariant 0 <= i <= |candidates| && cs == CleanedAll(candidates[..i])
      invariant InFirstOrder(cs, |cs|, out, at)
      invariant forall d :: d in seen <==> d in out
    {
      ghost var c: Option<string>;
      ghost var before := out;
      seen, out, c := Add(candidates[i], seen, out);
      at := AddNext(cs, c, before, at);
      CleanedNext(candidates, i, cs, c);
      cs := cs + [c];
      i := i + 1;
    }
    assert candidates[..i] == candidates;
    forall d ensures d in out <==>
      exists j :: 0 <= j < |candidates| && CandidateAt(candidates, j, d)
    {
      CandidateIff(candidates, d);
    }
  }

  lemma CandidateIff(candidates: seq<string>, d: string)
    ensures Among(CleanedAll(candidates), |candidates|, d) <==>
      exists j :: 0 <= j < |candidates| && CandidateAt(candidates, j, d)
  {
    if j :| 0 <= j < |candidates| && CandidateAt(candidates, j, d) {
      assert CleanedAll(candidates)[j] == Some(d);
    }
    if j :| 0 <= j < |candidates| && CleanedAll(candidates)[j] == Some(d) {
      assert CandidateAt(candidates, j, d);
    }
  }

  lemma CleanedNext(candidates: seq<string>, i: nat, cs: seq<Option<string>>, c: Option<string>)
    requires i < |candidates| && cs == CleanedAll(candidates[..i]) && c == Cleaned(candidates[i])
    ensures cs + [c] == CleanedAll(candidates[..i + 1])
  {
    assert candidates[..i + 1][..i] == candidates[..i];
  }

  lemma AddNext(cs: seq<Option<string>>, c: Option<string>, out: seq<string>, at: seq<nat>) returns (atNow: seq<nat>)
    requires InFirstOrder(cs, |cs|, out, at)
    ensures InFirstOrder(cs + [c], |cs| + 1, WithDir(out, c), atNow)
  {
    if c.Some? && c.value !in out {
      AddFresh(cs, c, out, at);
      atNow := at + [|cs|];
    } else {
      AddOld(cs, c, out, at);
      atNow := at;
    }
  }

  lemma FirstAtMore(cs: seq<Option<string>>, c: Option<string>, i: nat, d: string)
    requires i < |cs|
    ensures FirstAt(cs + [c], i, d) <==> FirstAt(cs, i, d)
  {
    assert forall j :: 0 <= j <= i ==> (cs + [c])[j] == cs[j];
  }

  lemma AmongMore(cs: seq<Option<string>>, c: Option<string>, d: string)
    ensures Among(cs + [c], |cs| + 1, d) <==> Among(cs, |cs|, d) || c == Some(d)
  {
    var more := cs + [c];
    if j :| 0 <= j < |cs| && cs[j] == Some(d) { assert more[j] == Some(d); }
    if c == Some(d) { assert more[|cs|] == Some(d); }
  }

  lemma AddOld(cs: seq<Option<string>>, c: Option<string>, out: seq<string>, at: seq<nat>)
    requires InFirstOrder(cs, |cs|, out, at) && (c.Some? ==> c.value in out)
    ensures InFirstOrder(cs + [c], |cs| + 1, out, at)
  {
    forall i | 0 <= i < |at| ensures FirstAt(cs + [c], at[i], out[i]) { FirstAtMore(cs, c, at[i], out[i]); }
    forall d ensures d in out <==> Among(cs + [c], |cs| + 1, d) { AmongMore(cs, c, d); }
  }

  lemma AddFresh(cs: seq<Option<string>>, c: Option<string>, out: seq<string>, at: seq<nat>)
    requires InFirstOrder(cs, |cs|, out, at) && c.Some? && c.value !in out
    ensures InFirstOrder(cs + [c], |cs| + 1, out + [c.value], at + [|cs|])
  {
    var outNow, atNow := out + [c.value], at + [|cs|];
    FreshAtEnd(cs, c);
    forall i | 0 <= i < |atNow| ensures FirstAt(cs + [c], atNow[i], outNow[i]) {
      if i < |at| { FirstAtMore(cs, c, at[i], out[i]); }
    }
    forall d ensures d in outNow <==> Among(cs + [c], |cs| + 1, d) { AmongMore(cs, c, d); }
  }

  lemma FreshAtEnd(cs: seq<Option<string>>, c: Option<string>)
    requires c.Some? && !Among(cs, |cs|, c.value)
    ensures FirstAt(cs + [c], |cs|, c.value)
  {
  }

  /** Directories in first order are pairwise distinct, and no more than the candidates. */
  lemma FirstOrderDistinct(cs: seq<Option<string>>, out: seq<string>, at: seq<nat>)
    requires InFirstOrder(cs, |cs|, out, at)
    ensures Distinct(out) && |out| <= |cs|
  {
    forall i, j | 0 <= i < j < |out| ensures out[i] != out[j] {
      assert FirstAt(cs, at[i], out[i]) && FirstAt(cs, at[j], out[j]);
    }
    AtMost(at, |cs|, |at|);
  }

  lemma {:induction false} AtMost(at: seq<nat>, n: nat, k: nat)
    requires k <= |at| && (forall i, j :: 0 <= i < j < |at| ==> at[i] < at[j])
    requires forall i :: 0 <= i < |at| ==> at[i] < n
    ensures k <= n && (0 < k ==> k <= at[k - 1] + 1)
  {
    if k > 0 {
      AtMost(at, n, k - 1);
      assert at[k - 1] < n && (k > 1 ==> at[k - 2] < at[k - 1]);
    }
  }

  /** `tempBaseDirs`: one to four directories, "/var/tmp" and the current one always among
      them. */
  method TempBaseDirs(workDir: string, tempDir: string) returns (out: seq<string>, ghost at: seq<nat>)
    ensures InFirstOrder(CleanedAll([workDir, tempDir, "/var/tmp", "."]), 4, out, at)
    ensures Distinct(out) && "." in out && "/var/tmp" in out && |out| <= 4
    ensures forall d :: d in out <==>
      || d == "/var/tmp" || d == "."
      || (TrimSpace(workDir) != "" && d == Clean(TrimSpace(workDir)))
      || (TrimSpace(tempDir) != "" && d == Clean(TrimSpace(tempDir)))
  {
    var candidates := [workDir, tempDir, "/var/tmp", "."];
    out, at := BaseDirs(candidates);
    FirstOrderDistinct(CleanedAll(candidates), out, at);
    CleanDot();
    CleanVarTmp();
    forall d ensures d in out <==>
      || d == "/var/tmp" || d == "."
      || (TrimSpace(workDir) != "" && d == Clean(TrimSpace(workDir)))
      || (TrimSpace(tempDir) != "" && d == Clean(TrimSpace(tempDir)))
    {
      FourCandidates(candidates, workDir, tempDir, "/var/tmp", ".", d);
    }
  }

  predicate CandidateAt(candidates: seq<string>, i: nat, d: string)
    requires i < |candidates|
  {
    TrimSpace(candidates[i]) != "" && d == Clean(TrimSpace(candidates[i]))
  }

  lemma FourCandidates(candidates: seq<string>, a: string, b: string, c: string, e: string, d: string)
    requires candidates == [a, b, c, e] && Cleaned(c) == Some(c) && Cleaned(e) == Some(e)
    ensures (exists i :: 0 <= i < |candidates| && CandidateAt(candidates, i, d))
      <==> (d == c || d == e || Cleaned(a) == Some(d) || Cleaned(b) == Some(d))
  {
    assert CandidateAt(candidates, 0, d) <==> Cleaned(a) == Some(d);
    assert CandidateAt(candidates, 1, d) <==> Cleaned(b) == Some(d);
    assert CandidateAt(candidates, 2, d) <==> d == c;
    assert CandidateAt(candidates, 3, d) <==> d == e;
  }

  lemma CleanVarTmp()
    ensures TrimSpace("/var/tmp") == "/var/tmp" && Clean("/var/tmp") == "/var/tmp"
  {
    TrimSpaceFixed("/var/tmp");
    CleanRooted(["var", "tmp"]);
    assert Join(["var", "tmp"], '/') == "var/tmp" by {
      JoinCut(["var"], ["tmp"], '/');
      assert ["var"] + ["tmp"] == ["var", "tmp"];
    }
    assert "/" + "var/tmp" == "/var/tmp";
  }

  lemma CleanDot()
    ensures TrimSpace(".") == "." && Clean(".") == "."
  {
    TrimSpaceFixed(".");
    SplitWhole(".", '/');
    assert ["."][..0] == [];
    assert CleanParts(["."], false) == [];
  }

  datatype Failure = Failure(noSpace: bool, text: string)

  /** What one base directory yields: no workspace, a failed run in one, or success. */
  datatype Try = NoWorkspace(failure: Failure) | RunFailed(failure: Failure) | RunDone

  /** What the job does to the file system. */
  datatype Step = Made(base: string) | NotMade(base: string) | Ran(base: string) | Removed(base: string)

  predicate Advances(t: Try) { !t.RunDone? && t.failure.noSpace }

  /** Every directory before the last was full, so the last got its turn. */
  predicate InTurn(tries: seq<Try>) { forall j :: 0 <= j < |tries| - 1 ==> Advances(tries[j]) }

  /** A workspace is removed after the run in it, before the next one is made. */
  function StepsOf(base: string, t: Try): seq<Step> {
    if t.NoWorkspace? then [NotMade(base)] else [Made(base), Ran(base), Removed(base)]
  }

  function StepsUpTo(baseDirs: seq<string>, tries: seq<Try>, n: nat): seq<Step>
    requires n <= |baseDirs| && n <= |tries|
  {
    if n == 0 then [] else StepsUpTo(baseDirs, tries, n - 1) + StepsOf(baseDirs[n - 1], tries[n - 1])
  }

  lemma {:induction false} StepsOfPrefix(baseDirs: seq<string>, a: seq<Try>, b: seq<Try>, n: nat)
    requires n <= |a| && a <= b && n <= |baseDirs|
    ensures StepsUpTo(baseDirs, a, n) == StepsUpTo(baseDirs, b, n)
  {
    if n > 0 {
      StepsOfPrefix(baseDirs, a, b, n - 1);
      assert a[n - 1] == b[n - 1];
    }
  }

  function Times(x: Step, steps: seq<Step>): nat {
    if steps == [] then 0 else Times(x, steps[..|steps| - 1]) + if steps[|steps| - 1] == x then 1 else 0
  }

  /** Whether a turn in this directory takes this step. */
  predicate Takes(x: Step, dir: string, t: Try) {
    if t.NoWorkspace? then x == NotMade(dir) else x == Made(dir) || x == Ran(dir) || x == Removed(dir)
  }

  function Turns(x: Step, baseDirs: seq<string>, tries: seq<Try>, n: nat): nat
    requires n <= |baseDirs| && n <= |tries|
  {
    if n == 0 then 0 else Turns(x, baseDirs, tries, n - 1) + if Takes(x, baseDirs[n - 1], tries[n - 1]) then 1 else 0
  }

  lemma {:induction false} TimesAreTurns(x: Step, baseDirs: seq<string>, tries: seq<Try>, n: nat)
    requires n <= |baseDirs| && n <= |tries|
    ensures Times(x, StepsUpTo(baseDirs, tries, n)) == Turns(x, baseDirs, tries, n)
  {
    if n > 0 {
      TimesAreTurns(x, baseDirs, tries, n - 1);
      OneMoreTurn(x, baseDirs, tries, n);
    }
  }

  lemma OneMoreTurn(x: Step, baseDirs: seq<string>, tries: seq<Try>, n: nat)
    requires 0 < n <= |baseDirs| && n <= |tries|
    ensures Times(x, StepsUpTo(baseDirs, tries, n)) ==
      Times(x, StepsUpTo(baseDirs, tries, n - 1)) + if Takes(x, baseDirs[n - 1], tries[n - 1]) then 1 else 0
  {
    var before, dir, t := StepsUpTo(baseDirs, tries, n - 1), baseDirs[n - 1], tries[n - 1];
    var all := StepsUpTo(baseDirs, tries, n);
    assert all == before + StepsOf(dir, t);
    StepTimes(x, before, dir, t);
  }

  lemma {:induction false} SameTurns(base: string, baseDirs: seq<string>, tries: seq<Try>, n: nat)
    requires n <= |baseDirs| && n <= |tries|
    ensures Turns(Removed(base), baseDirs, tries, n) == Turns(Made(base), baseDirs, tries, n)
    ensures Turns(Ran(base), baseDirs, tries, n) == Turns(Made(base), baseDirs, tries, n)
  {
    if n > 0 { SameTurns(base, baseDirs, tries, n - 1); }
  }

  lemma {:induction false} OneTurn(baseDirs: seq<string>, tries: seq<Try>, n: nat, i: nat)
    requires Distinct(baseDirs) && i < |baseDirs| && n <= |tries| <= |baseDirs|
    ensures Turns(Made(baseDirs[i]), baseDirs, tries, n) == if i < n && !tries[i].NoWorkspace? then 1 else 0
  {
    if n > 0 {
      OneTurn(baseDirs, tries, n - 1, i);
      assert n - 1 != i ==> baseDirs[n - 1] != baseDirs[i];
    }
  }

  /** A workspace is run in and removed exactly as often as it is made, and over pairwise
      distinct directories (`TempBaseDirs`) it is made once: exactly in the directories
      tried that could hold one. */
  lemma WorkspaceRemovedOnce(baseDirs: seq<string>, tries: seq<Try>, i: nat)
    requires i < |baseDirs| && |tries| <= |baseDirs|
    ensures var steps := StepsUpTo(baseDirs, tries, |tries|);
      && Times(Removed(baseDirs[i]), steps) == Times(Made(baseDirs[i]), steps)
      && Times(Ran(baseDirs[i]), steps) == Times(Made(baseDirs[i]), steps)
      && (Distinct(baseDirs) ==>
        Times(Made(baseDirs[i]), steps) == if i < |tries| && !tries[i].NoWorkspace? then 1 else 0)
  {
    TimesAreTurns(Removed(baseDirs[i]), baseDirs, tries, |tries|);
    TimesAreTurns(Ran(baseDirs[i]), baseDirs, tries, |tries|);
    TimesAreTurns(Made(baseDirs[i]), baseDirs, tries, |tries|);
    SameTurns(baseDirs[i], baseDirs, tries, |tries|);
    if Distinct(baseDirs) { OneTurn(baseDirs, tries, |tries|, i); }
  }

  /** The run in a workspace stands between its making and its removal, with nothing else in
      between. */
  predicate RunsInside(steps: seq<Step>) { forall k :: 0 <= k < |steps| ==> InPlace(steps, k) }

  predicate InPlace(steps: seq<Step>, k: nat)
    requires k < |steps|
  {
    match steps[k]
    case Made(dir) => k + 1 < |steps| && steps[k + 1] == Ran(dir)
    case Ran(dir) => 1 <= k && k + 1 < |steps| && steps[k - 1] == Made(dir) && steps[k + 1] == Removed(dir)
    case Removed(dir) => 1 <= k && steps[k - 1] == Ran(dir)
    case NotMade(_) => true
  }

  lemma {:induction false} WorkspaceRunsInside(baseDirs: seq<string>, tries: seq<Try>, n: nat)
    requires n <= |tries| <= |baseDirs|
    ensures RunsInside(StepsUpTo(baseDirs, tries, n))
  {
    if n > 0 {
      WorkspaceRunsInside(baseDirs, tries, n - 1);
      RunsInsideMore(StepsUpTo(baseDirs, tries, n - 1), baseDirs[n - 1], tries[n - 1]);
    }
  }

  lemma RunsInsideMore(steps: seq<Step>, dir: string, t: Try)
    requires RunsInside(steps)
    ensures RunsInside(steps + StepsOf(dir, t))
  {
    var more, n := steps + StepsOf(dir, t), |steps|;
    assert more[..n] == steps && more[n..] == StepsOf(dir, t);
    forall k | 0 <= k < |more| ensures InPlace(more, k) {
      if k < n {
        assert InPlace(steps, k) && more[k] == steps[k];
        assert k + 1 < n ==> more[k + 1] == steps[k + 1];
        assert 1 <= k ==> more[k - 1] == steps[k - 1];
      } else {
        assert forall j :: 0 <= j < |StepsOf(dir, t)| ==> more[n + j] == StepsOf(dir, t)[j];
        assert k == n || k == n + 1 || k == n + 2;
      }
    }
  }

  lemma StepTimes(x: Step, before: seq<Step>, dir: string, t: Try)
    ensures Times(x, before + StepsOf(dir, t)) == Times(x, before) + if Takes(x, dir, t) then 1 else 0
  {
    if t.NoWorkspace? {
      TimesOne(x, before, NotMade(dir));
    } else {
      TimesOne(x, before, Made(dir));
      TimesOne(x, before + [Made(dir)], Ran(dir));
      TimesOne(x, before + [Made(dir)] + [Ran(dir)], Removed(dir));
      assert before + StepsOf(dir, t) == before + [Made(dir)] + [Ran(dir)] + [Removed(dir)];
    }
  }

  lemma TimesOne(x: Step, before: seq<Step>, y: Step)
    ensures Times(x, before + [y]) == Times(x, before) + if x == y then 1 else 0
  {
    assert (before + [y])[..|before|] == before;
  }
}
