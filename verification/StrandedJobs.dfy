/** When a job is stuck: the steps that strand it, the steps that end that, and so exactly
    the runs that leave it stranded. */
module StrandedJobs {
  import opened Text
  import opened Paths
  import opened KeyLayout
  import opened MediaTable
  import opened MediaProtocol
  import opened MediaSafety
  import opened History

  /** A media in processing that nobody will ever finish or fail, unless it is completed
      once more. */
  predicate Stranded(s: State, id: string) {
    Live(s.rows, id) && s.rows[id].status == Processing && !Cared(s, id)
  }

  /** The three writes that can strand a job, each with a fault: the processing mark that is
      applied although it reports an error, and the failure marks of a rejected completion
      and of the worker that are refused - if nobody else queues or holds the job. */
  predicate Strands(s: State, a: Action, id: string) {
    && Live(s.rows, id)
    && match a
       case Complete(p, MarkProcessing(w)) =>
         w == AppliedAnyway && p in s.procs && s.procs[p] == CompleteUploaded(id) && !Cared(s, id)
       case Complete(p, MarkRejected(w)) =>
         w == Refused && p in s.procs && s.procs[p] == CompleteRejected(id)
         && s.rows[id].status == Processing && !Cared(Leave(s, p), id)
       case Work(p, MarkFailed(w)) =>
         w == Refused && p in s.procs && s.procs[p] == WorkerFailing(id)
         && s.rows[id].status == Processing && !Cared(Leave(s, p), id)
       case _ => false
  }

  /** Exactly these steps strand a job that was not stranded before. */
  lemma StrandsExactly(s: State, a: Action, id: string)
    requires Inv(s) && Enabled(s, a) && !Stranded(s, id)
    ensures Stranded(Do(s, a), id) <==> Strands(s, a, id)
  {
    if Strands(s, a, id) { StrandingStrands(s, a, id); }
    if Stranded(Do(s, a), id) { StrandedOnlyBy(s, a, id); }
  }

  lemma StrandedOnlyBy(s: State, a: Action, id: string)
    requires Inv(s) && Enabled(s, a) && !Stranded(s, id) && Stranded(Do(s, a), id)
    ensures Strands(s, a, id)
  {
    var s1 := s.(lost := s.lost - {id});
    Unlost(s, s1, id);
    LostIsNoGuard(s, s1, a, id);
    StepKeeps(s1, a);
    SameButLost(Do(s, a), Do(s1, a), id);
    assert Attended(Do(s1, a), id);
    LosesOnly(s1, a, id);
    StrandsWhateverLost(s, s1, a, id);
  }

  lemma SameButLost(t: State, t1: State, id: string)
    requires t1.(lost := {}) == t.(lost := {})
    ensures Stranded(t1, id) <==> Stranded(t, id)
  {
    assert t1.rows == t.(lost := {}).rows && t1.queue == t.(lost := {}).queue && t1.procs == t.(lost := {}).procs;
  }

  lemma StrandsWhateverLost(s: State, s1: State, a: Action, id: string)
    requires s1 == s.(lost := s1.lost) && Strands(s1, a, id)
    ensures Strands(s, a, id)
  {
    if Cared(s, id) { assert Cared(s1, id); }
    if a.Complete? || a.Work? { SameButLostCared(Leave(s, a.p), Leave(s1, a.p), id); }
  }

  lemma SameButLostCared(t: State, t1: State, id: string)
    requires t1.queue == t.queue && t1.procs == t.procs
    ensures Cared(t1, id) <==> Cared(t, id)
  {
  }

  lemma StrandingStrands(s: State, a: Action, id: string)
    requires Enabled(s, a) && Strands(s, a, id)
    ensures Stranded(Do(s, a), id)
  {
    NobodyElse(s, Do(s, a), a.p, id);
  }

  lemma NobodyElse(s: State, t: State, p: nat, id: string)
    requires !Cared(Leave(s, p), id) || !Cared(s, id)
    requires t.queue == s.queue && OnlyMoves(s, t, p) && (p in t.procs ==> !Holds(t.procs[p], id))
    ensures !Cared(t, id)
  {
    forall q | q in t.procs ensures !Holds(t.procs[q], id) {
      if q != p { assert q in Leave(s, p).procs && Leave(s, p).procs[q] == s.procs[q]; }
    }
  }

  /** Without its note in `lost`, a job that is not stranded still satisfies the invariant. */
  lemma Unlost(s: State, s1: State, id: string)
    requires Inv(s) && !Stranded(s, id) && s1 == s.(lost := s.lost - {id})
    ensures Inv(s1)
  {
    forall q | q in s1.procs ensures ProcOk(s1, s1.procs[q]) {
      assert ProcOk(s, s.procs[q]);
      LostIsNoProc(s, s1, s.procs[q]);
    }
    forall i | Live(s1.rows, i) && s1.rows[i].status == Processing ensures Attended(s1, i) {
      assert Attended(s, i);
      assert Cared(s, i) ==> Cared(s1, i);
    }
    assert ReadyOk(s1) by {
      forall i | Live(s1.rows, i) && s1.rows[i].status == Ready ensures HasOutputs(s1, i) { assert HasOutputs(s, i); }
    }
  }

  lemma LostIsNoProc(s: State, s1: State, q: Proc)
    requires ProcOk(s, q) && s1 == s.(lost := s1.lost)
    ensures ProcOk(s1, q)
  {
  }

  lemma LostIsNoGuard(s: State, s1: State, a: Action, id: string)
    requires Enabled(s, a) && s1 == s.(lost := s.lost - {id})
    ensures Enabled(s1, a) && Do(s1, a).(lost := {}) == Do(s, a).(lost := {})
  {
    match a
    case Init(p, x) => assert CanInit(s1, p, x);
    case Complete(p, x) => LostIsNoGuardOfCompletions(s, s1, p, x);
    case Work(p, x) => LostIsNoGuardOfWork(s, s1, p, x);
    case Delete(p, x) => assert CanDelete(s1, p, x);
    case Sweep(p, x) => assert CanSweep(s1, p, x);
    case ClientPut(_) =>
    case Abandon(_) =>
  }

  lemma LostIsNoGuardOfCompletions(s: State, s1: State, p: nat, x: CompleteAct)
    requires CanComplete(s, p, x) && s1 == s.(lost := s1.lost)
    ensures CanComplete(s1, p, x) && DoComplete(s1, p, x).(lost := {}) == DoComplete(s, p, x).(lost := {})
  {
  }

  lemma LostIsNoGuardOfWork(s: State, s1: State, p: nat, x: WorkAct)
    requires CanWork(s, p, x) && s1 == s.(lost := s1.lost)
    ensures CanWork(s1, p, x) && DoWork(s1, p, x).(lost := {}) == DoWork(s, p, x).(lost := {})
  {
  }

  lemma LosesOnly(s: State, a: Action, id: string)
    requires Enabled(s, a) && id !in s.lost && id in Do(s, a).lost && Stranded(Do(s, a), id)
    ensures Strands(s, a, id)
  {
    assert a.Complete? || a.Work?;
    if a.Complete? { CompletionLoses(s, a.p, a.complete, id); } else { WorkLoses(s, a.p, a.work, id); }
  }

  lemma CompletionLoses(s: State, p: nat, x: CompleteAct, id: string)
    requires CanComplete(s, p, x) && id !in s.lost && id in DoComplete(s, p, x).lost
      && Stranded(DoComplete(s, p, x), id)
    ensures Strands(s, Complete(p, x), id)
  {
    OthersStillCare(s, DoComplete(s, p, x), p, id);
  }

  lemma WorkLoses(s: State, p: nat, x: WorkAct, id: string)
    requires CanWork(s, p, x) && id !in s.lost && id in DoWork(s, p, x).lost && Stranded(DoWork(s, p, x), id)
    ensures Strands(s, Work(p, x), id)
  {
    OthersStillCare(s, DoWork(s, p, x), p, id);
  }

  lemma OthersStillCare(s: State, t: State, p: nat, id: string)
    requires p in s.procs && OnlyMoves(s, t, p) && (forall i :: i in s.queue ==> i in t.queue) && !Cared(t, id)
    ensures !Cared(Leave(s, p), id)
    ensures !Holds(s.procs[p], id) ==> !Cared(s, id)
  {
    forall q | q in s.procs && q != p ensures !Holds(s.procs[q], id) {
      assert q in t.procs && t.procs[q] == s.procs[q];
    }
  }

  /** The writes after which a stranded media is so no more: a later completion marks it
      uploaded or takes the job up again, or a deletion soft-deletes the row - with or
      without an error reported, but for the completion that takes it up, which goes on only
      without. */
  predicate Rescues(s: State, a: Action, id: string) {
    match a
    case Complete(p, MarkUploaded(w)) =>
      w != Refused && p in s.procs && s.procs[p].CompleteHeaded? && s.procs[p].id == id
    case Complete(p, MarkProcessing(w)) => w == Done && p in s.procs && s.procs[p] == CompleteUploaded(id)
    case Delete(p, SoftDeleteRow(w, _)) => w != Refused && p in s.procs && s.procs[p] == DeletePurged(id)
    case _ => false
  }

  /** Exactly these writes end the stranding of a media; no worker does. */
  lemma RescuesExactly(s: State, a: Action, id: string)
    requires Inv(s) && Enabled(s, a) && Stranded(s, id)
    ensures !Stranded(Do(s, a), id) <==> Rescues(s, a, id)
  {
    match a
    case Init(p, x) => StaysInit(s, p, x, id);
    case Complete(p, x) => RescuedByCompletion(s, p, x, id);
    case Work(p, x) => StaysWork(s, p, x, id);
    case Delete(p, x) => RescuedByDeletion(s, p, x, id);
    case Sweep(p, x) => StaysSweep(s, p, x, id);
    case ClientPut(_) => StillStranded(s, Do(s, a), 0, id);
    case Abandon(p) => StillStranded(s, Do(s, a), p, id);
  }

  /** What a step leaves to a media whose job nobody holds: its row and queue as they were,
      and nobody new to hold it. */
  ghost predicate Ignores(s: State, t: State, p: nat, id: string) {
    && id in s.rows && id in t.rows && t.rows[id] == s.rows[id]
    && (id in t.queue ==> id in s.queue)
    && OnlyMoves(s, t, p)
    && (p in t.procs && Holds(t.procs[p], id) ==> id in s.queue || (p in s.procs && Holds(s.procs[p], id)))
  }

  lemma StillStranded(s: State, t: State, p: nat, id: string)
    requires Stranded(s, id) && Ignores(s, t, p, id)
    ensures Stranded(t, id)
  {
  }

  lemma NobodyHolds(s: State, p: nat, id: string)
    requires !Cared(s, id) && p in s.procs
    ensures !Holds(s.procs[p], id)
  {
  }

  lemma StaysInit(s: State, p: nat, x: InitAct, id: string)
    requires CanInit(s, p, x) && Stranded(s, id)
    ensures Stranded(DoInit(s, p, x), id)
  {
    StillStranded(s, DoInit(s, p, x), p, id);
  }

  lemma StaysSweep(s: State, p: nat, x: SweepAct, id: string)
    requires CanSweep(s, p, x) && Stranded(s, id)
    ensures Stranded(DoSweep(s, p, x), id)
  {
    var t := DoSweep(s, p, x);
    SweepHoldsNone(s, p, x, id);
    assert OnlyMoves(s, t, p);
    StillStranded(s, t, p, id);
  }

  lemma SweepHoldsNone(s: State, p: nat, x: SweepAct, id: string)
    requires CanSweep(s, p, x)
    ensures var t := DoSweep(s, p, x); t.rows == s.rows && t.queue == s.queue && p in t.procs && !Holds(t.procs[p], id)
    ensures OnlyMoves(s, DoSweep(s, p, x), p)
  {
  }

  lemma StaysWork(s: State, p: nat, x: WorkAct, id: string)
    requires CanWork(s, p, x) && Stranded(s, id)
    ensures Stranded(DoWork(s, p, x), id)
  {
    if x.MarkReady? || x.MarkFailed? {
      NobodyHolds(s, p, id);
      MarksOwnRow(s, p, x, id);
    } else {
      WorkMarksNothing(s, p, x, id);
    }
    StillStranded(s, DoWork(s, p, x), p, id);
  }

  lemma MarksOwnRow(s: State, p: nat, x: WorkAct, id: string)
    requires CanWork(s, p, x) && (x.MarkReady? || x.MarkFailed?) && !Holds(s.procs[p], id) && id in s.rows
    ensures Ignores(s, DoWork(s, p, x), p, id)
  {
  }

  lemma WorkMarksNothing(s: State, p: nat, x: WorkAct, id: string)
    requires CanWork(s, p, x) && !x.MarkReady? && !x.MarkFailed? && id in s.rows
    ensures Ignores(s, DoWork(s, p, x), p, id)
  {
  }

  lemma RescuedByDeletion(s: State, p: nat, x: DeleteAct, id: string)
    requires CanDelete(s, p, x) && Stranded(s, id)
    ensures !Stranded(DoDelete(s, p, x), id) <==> Rescues(s, Delete(p, x), id)
  {
    if !Rescues(s, Delete(p, x), id) {
      DeletionIgnores(s, p, x, id);
      StillStranded(s, DoDelete(s, p, x), p, id);
    }
  }

  lemma DeletionIgnores(s: State, p: nat, x: DeleteAct, id: string)
    requires CanDelete(s, p, x) && !Rescues(s, Delete(p, x), id) && id in s.rows
    ensures Ignores(s, DoDelete(s, p, x), p, id)
  {
  }

  lemma RescuedByCompletion(s: State, p: nat, x: CompleteAct, id: string)
    requires Inv(s) && CanComplete(s, p, x) && Stranded(s, id)
    ensures !Stranded(DoComplete(s, p, x), id) <==> Rescues(s, Complete(p, x), id)
  {
    var t := DoComplete(s, p, x);
    if p in s.procs { NobodyHolds(s, p, id); }
    if x.MarkProcessing? && s.procs[p].id == id {
      ProcessingMarked(s, p, x.w, id);
    } else if Rescues(s, Complete(p, x), id) {
      assert t.rows[id].status == Uploaded;
    } else {
      if x.EnqueueJob? { JobIsId(s, p); }
      CompletionIgnores(s, p, x, id);
      StillStranded(s, t, p, id);
    }
  }

  lemma ProcessingMarked(s: State, p: nat, w: Write, id: string)
    requires CanComplete(s, p, MarkProcessing(w)) && s.procs[p].id == id && Stranded(s, id)
    ensures Stranded(DoComplete(s, p, MarkProcessing(w)), id) <==> w != Done
  {
    var t := DoComplete(s, p, MarkProcessing(w));
    if w == Done { assert p in t.procs && Holds(t.procs[p], id); }
  }

  lemma JobIsId(s: State, p: nat)
    requires Inv(s) && CanComplete(s, p, EnqueueJob)
    ensures TrimSpace(s.procs[p].id) == s.procs[p].id
  {
    assert ProcOk(s, s.procs[p]);
    TrimSpaceFixed(s.procs[p].id);
  }

  lemma CompletionIgnores(s: State, p: nat, x: CompleteAct, id: string)
    requires CanComplete(s, p, x) && id in s.rows && !Rescues(s, Complete(p, x), id)
    requires (p in s.procs ==> !Holds(s.procs[p], id)) && !(x.MarkProcessing? && s.procs[p].id == id)
    requires x.EnqueueJob? ==> TrimSpace(s.procs[p].id) == s.procs[p].id
    ensures Ignores(s, DoComplete(s, p, x), p, id)
  {
  }

  // ---- over runs -------------------------------------------------------------------------

  ghost function StrandsIn(s: State, run: seq<Action>, id: string): nat -> bool
    requires Legal(s, run)
  {
    (i: nat) => i < |run| && Strands(StateAt(s, run, i), run[i], id)
  }

  ghost function RescuesIn(s: State, run: seq<Action>, id: string): nat -> bool
    requires Legal(s, run)
  {
    (i: nat) => i < |run| && Rescues(StateAt(s, run, i), run[i], id)
  }

  ghost function StrandedIn(s: State, run: seq<Action>, id: string): nat -> bool
    requires Legal(s, run)
  {
    (i: nat) => i <= |run| && Stranded(StateAt(s, run, i), id)
  }

  /** A media is stranded at the end of a run exactly when one of the three writes stranded
      it and none of the writes that end it came since. */
  lemma StrandedIff(s0: State, run: seq<Action>, id: string)
    requires Initial(s0) && Legal(s0, run)
    ensures Stranded(Exec(s0, run), id) <==> Lasting(StrandsIn(s0, run, id), RescuesIn(s0, run, id), |run|)
  {
    var on, sets, clears := StrandedIn(s0, run, id), StrandsIn(s0, run, id), RescuesIn(s0, run, id);
    forall i: nat | i < |run| ensures Follows(on, sets, clears, i) { StrandedNext(s0, run, i, id); }
    SetAndNotCleared(on, sets, clears, |run|);
    LastState(s0, run);
  }

  lemma StrandedNext(s0: State, run: seq<Action>, i: nat, id: string)
    requires Initial(s0) && Legal(s0, run) && i < |run|
    ensures Follows(StrandedIn(s0, run, id), StrandsIn(s0, run, id), RescuesIn(s0, run, id), i)
  {
    InitialOk(s0);
    StepAt(s0, run, i);
    var s := StateAt(s0, run, i);
    if Stranded(s, id) {
      RescuesExactly(s, run[i], id);
      if Strands(s, run[i], id) { StrandingStrands(s, run[i], id); }
    } else {
      StrandsExactly(s, run[i], id);
    }
  }
}
