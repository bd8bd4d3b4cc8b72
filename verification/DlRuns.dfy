/** The daemon over whole runs: any interleaving of requests, finished adds, ticks, saves, crashes. */
module DlRuns {
  import opened Common
  import opened DlJobs
  import opened DlRows
  import opened DlSteps
  import opened DlConservation
  import opened DlInvariants
  import opened DlOneEngine
  import opened DlTicks

  // ---- runs the outside can cause ---------------------------------------------------------

  /** Random job ids do not collide. */
  ghost predicate FreshRun(s: State, es: seq<Event>)
    decreases |es|
  {
    es != [] ==> FreshId(s, es[0]) && FreshRun(Step(s, es[0]), es[1..])
  }

  ghost predicate TrustedRun(s: State, es: seq<Event>)
    decreases |es|
  {
    es != [] ==> Trusted(s, es[0]) && TrustedRun(Step(s, es[0]), es[1..])
  }

  /** An add thread reports `Cancelled` only after it was told to stop. */
  ghost predicate Honest(s: State, e: Event) {
    e.Adds? ==> forall h :: h in e.outcomes && e.outcomes[h].Cancelled? ==> h in s.cancelled
  }

  ghost predicate HonestRun(s: State, es: seq<Event>)
    decreases |es|
  {
    es != [] ==> Honest(s, es[0]) && HonestRun(Step(s, es[0]), es[1..])
  }

  lemma {:induction false} RunSound(s: State, es: seq<Event>)
    requires Sound(s) && FreshRun(s, es)
    ensures Sound(Run(s, es))
    decreases |es|
  {
    if es != [] {
      StepSound(s, es[0]);
      RunSound(Step(s, es[0]), es[1..]);
    }
  }

  /** In every reachable state an active job has an engine or an add in flight, a completed one has
      neither, and a request queued behind a settled engine has its deadline anchor. */
  lemma ReachableRowsOk(es: seq<Event>, i: nat)
    requires FreshRun(START, es) && i < |Run(START, es).rows|
    ensures var r := Run(START, es).rows[i];
      && (r.job.status.Active() ==> r.engine.Some? || r.add.Some?)
      && (r.job.status == Completed ==> r.engine.None? && r.add.None?)
      && (EngineReady(r) && r.pending != [] ==> r.pendingSince.Some?)
  {
    RunSound(START, es);
    assert RowOk(Run(START, es).rows[i]);
  }

  /** No reachable state runs two engines for one known torrent. */
  lemma {:induction false} RunOneEngine(s: State, es: seq<Event>)
    requires Sound(s) && OneEngine(s.rows) && FreshRun(s, es) && TrustedRun(s, es)
    ensures OneEngine(Run(s, es).rows)
    decreases |es|
  {
    if es != [] {
      StepSound(s, es[0]);
      StepOneEngine(s, es[0]);
      RunOneEngine(Step(s, es[0]), es[1..]);
    }
  }

  // ---- nothing is dropped unasked ---------------------------------------------------------

  lemma {:induction false} AddsDropNothing(s: State, listed: seq<nat>, outcomes: map<nat, AddOutcome>, now: nat)
    requires Sound(s)
    requires forall h :: h in outcomes && outcomes[h].Cancelled? ==> h in s.cancelled
    ensures var t := ResumeAlong(s, listed, outcomes, now); t.dropped == s.dropped && t.lost == s.lost
    decreases |listed|
  {
    if listed != [] {
      ResumeOneSound(s, listed[0], outcomes, now);
      AddsDropNothing(ResumeOne(s, listed[0], outcomes, now), listed[1..], outcomes, now);
    }
  }

  lemma {:induction false} TickDropsNothing(s: State, k: nat, probes: string -> Probe, now: nat)
    requires k <= |s.rows|
    ensures var t := PollUpTo(s, k, probes, now); t.dropped == s.dropped && t.lost == s.lost
  {
    if k > 0 {
      TickDropsNothing(s, k - 1, probes, now);
    }
  }

  lemma {:induction false} RunDropsNothing(s: State, es: seq<Event>)
    requires Sound(s) && FreshRun(s, es) && HonestRun(s, es)
    requires forall i :: 0 <= i < |es| ==> !es[i].Crash? && !(es[i].Spool? && es[i].q.Drop?)
    ensures Run(s, es).dropped == s.dropped && Run(s, es).lost == s.lost
    decreases |es|
  {
    if es != [] {
      StepSound(s, es[0]);
      match es[0] {
        case Spool(_, _, _, _) =>
        case Adds(outcomes, now) => AddsDropNothing(s, AddsInFlight(s.rows), outcomes, now);
        case Tick(probes, now) => TickDropsNothing(s, |s.rows|, probes, now);
        case SaveState =>
        case Crash => assert false;
      }
      RunDropsNothing(Step(s, es[0]), es[1..]);
    }
  }

  /** Without a stop, a remove or a crash each request is queued once or answered once. */
  lemma RequestQueuedOrAnswered(es: seq<Event>, x: string)
    requires FreshRun(START, es) && HonestRun(START, es) && Count(AskedBy(es), x) == 1
    requires forall i :: 0 <= i < |es| ==> !es[i].Crash? && !(es[i].Spool? && es[i].q.Drop?)
    ensures Count(Waiting(Run(START, es).rows), x) + Count(SaidIds(Run(START, es).said), x) == 1
  {
    RunDropsNothing(START, es);
    RequestInOnePlace(es, x);
  }

  // ---- completed rows stay ----------------------------------------------------------------

  lemma AddsKeepCompletedOne(s: State, i: nat, outcomes: map<nat, AddOutcome>, now: nat, r: Runtime)
    requires RowsOk(s.rows) && r in s.rows && r.job.status == Completed
    ensures r in ResumeOne(s, i, outcomes, now).rows
  {
    var t := ResumeOne(s, i, outcomes, now).rows;
    var k :| 0 <= k < |s.rows| && s.rows[k] == r;
    if i < |s.rows| && HasOutcome(s.rows[i], outcomes) {
      var o := outcomes[s.rows[i].add.value];
      if o.AddError? || (o.Ready? && Duplicate(s.rows, i, o.details).None?) {
        assert t[k] == r;
      } else {
        assert t[if k < i then k else k - 1] == r;
      }
    }
  }

  lemma {:induction false} AddsKeepCompleted(
    s: State, listed: seq<nat>, outcomes: map<nat, AddOutcome>, now: nat, r: Runtime)
    requires Sound(s) && r in s.rows && r.job.status == Completed
    ensures r in ResumeAlong(s, listed, outcomes, now).rows
    decreases |listed|
  {
    if listed != [] {
      AddsKeepCompletedOne(s, listed[0], outcomes, now, r);
      ResumeOneSound(s, listed[0], outcomes, now);
      AddsKeepCompleted(ResumeOne(s, listed[0], outcomes, now), listed[1..], outcomes, now, r);
    }
  }

  /** A commit to row `k`, or a stop or remove of it. */
  predicate Touches(s: State, q: Request, k: nat) {
    (q.Enqueue? && FindExisting(s.rows, LowerHash(q.infohash), Some(q.sourceKey)) == Some(k))
    || (q.Drop? && DropTarget(s.rows, q) == Some(k))
  }

  lemma DropsAnother(s: State, at: nat, k: nat)
    requires at < |s.rows| && k < |s.rows| && at != k
    ensures s.rows[k] in StopJob(s, at).rows
  {
    assert StopJob(s, at).rows[if k < at then k else k - 1] == s.rows[k];
  }

  /** A request changes a completed row only by committing to it again or by dropping it. */
  lemma OnlyCommitOrDropEndsCompleted(s: State, q: Request, jobId: string, live: bool, now: nat, k: nat)
    requires Sound(s) && k < |s.rows| && s.rows[k].job.status == Completed
    ensures s.rows[k] in HandleRequest(s, q, jobId, live, now).rows
         || Touches(s, q, k)
  {
    var t := HandleRequest(s, q, jobId, live, now).rows;
    if q.Drop? {
      var at := DropTarget(s.rows, q);
      if at.Some? && at.value != k {
        DropsAnother(Ask(s, q), at.value, k);
      }
    } else {
      var at := FindExisting(s.rows, LowerHash(q.infohash), Some(q.sourceKey));
      if at != Some(k) || q.StreamFiles? {
        assert t[k] == s.rows[k];
      }
    }
  }

  /** No request of the run commits to job `id` or drops it. */
  ghost predicate LeftAlone(s: State, es: seq<Event>, id: string)
    decreases |es|
  {
    es != [] ==>
      && (es[0].Spool? ==> forall k :: 0 <= k < |s.rows| && s.rows[k].job.jobId == id ==> !Touches(s, es[0].q, k))
      && LeftAlone(Step(s, es[0]), es[1..], id)
  }

  lemma StepKeepsCompleted(s: State, e: Event, r: Runtime)
    requires Sound(s) && FreshId(s, e) && r in s.rows && r.job.status == Completed && !e.Crash?
    requires LeftAlone(s, [e], r.job.jobId)
    ensures r in Step(s, e).rows
  {
    var k :| 0 <= k < |s.rows| && s.rows[k] == r;
    match e {
      case Spool(q, jobId, live, now) => OnlyCommitOrDropEndsCompleted(s, q, jobId, live, now, k);
      case Adds(outcomes, now) => AddsKeepCompleted(s, AddsInFlight(s.rows), outcomes, now, r);
      case Tick(probes, now) => PolledRow(s, |s.rows|, probes, now, k);
      case SaveState =>
    }
  }

  /** Over any run without a crash a completed row stays as it is until a request commits to it again or
      drops it: no add result, no tick, no save and no other request changes it. */
  lemma {:induction false} CompletedStays(s: State, es: seq<Event>, r: Runtime)
    requires Sound(s) && FreshRun(s, es) && r in s.rows && r.job.status == Completed
    requires LeftAlone(s, es, r.job.jobId) && forall i :: 0 <= i < |es| ==> !es[i].Crash?
    ensures r in Run(s, es).rows
    decreases |es|
  {
    if es != [] {
      StepSound(s, es[0]);
      StepKeepsCompleted(s, es[0], r);
      CompletedStays(Step(s, es[0]), es[1..], r);
    }
  }

  // ---- restarts ---------------------------------------------------------------------------

  /** A crash after a save: the next daemon has the same jobs in the same order, terminal rows
      untouched, and every active one re-adding. */
  lemma RestartAdopts(s: State, i: nat)
    requires Sound(s) && !s.dirty && i < |s.rows|
    ensures |Restart(s).rows| == |s.rows|
    ensures var job := s.rows[i].job; var t := Restart(s).rows[i];
      && t.job.jobId == job.jobId
      && (if job.status in {Failed, Stopped, Completed} then t.job == job && t.add.None?
          else t.add == Some(s.next + i) && t.job == job.(status := Adding, error := None))
      && t.engine.None? && t.details.None? && t.pending == []
      && t.moveDeferSince.None? && t.pendingSince.None? && t.appliedSelection.None?
  {
  }

  ghost predicate HasJobRow(rows: seq<Runtime>, job: Job) {
    exists k :: 0 <= k < |rows| && rows[k].job == job
  }

  lemma SavedComesBack(s: State, job: Job)
    requires job.status == Completed && job in s.disk
    ensures HasJobRow(Restart(s).rows, job)
  {
    var m :| 0 <= m < |s.disk| && s.disk[m] == job;
    assert Restart(s).rows[m].job == job;
  }

  lemma StepKeepsSaved(s: State, e: Event, job: Job)
    requires Sound(s) && FreshId(s, e) && job.status == Completed && HasJobRow(s.rows, job) && job in s.disk
    requires LeftAlone(s, [e], job.jobId)
    ensures HasJobRow(Step(s, e).rows, job) && job in Step(s, e).disk
  {
    var t := Step(s, e);
    if e.Crash? {
      SavedComesBack(s, job);
    } else {
      var k :| 0 <= k < |s.rows| && s.rows[k].job == job;
      StepKeepsCompleted(s, e, s.rows[k]);
      var n :| 0 <= n < |t.rows| && t.rows[n] == s.rows[k];
      if e.SaveState? && s.dirty {
        assert Jobs(s.rows)[k] == job;
      } else {
        StepKeepsDisk(s, e);
      }
    }
  }

  lemma StepKeepsDisk(s: State, e: Event)
    requires !(e.SaveState? && s.dirty)
    ensures Step(s, e).disk == s.disk
  {
    match e {
      case Spool(_, _, _, _) =>
      case Adds(outcomes, now) => AddsKeepDisk(s, AddsInFlight(s.rows), outcomes, now);
      case Tick(probes, now) => TickKeepsDisk(s, |s.rows|, probes, now);
      case SaveState =>
      case Crash =>
    }
  }

  lemma {:induction false} AddsKeepDisk(s: State, listed: seq<nat>, outcomes: map<nat, AddOutcome>, now: nat)
    ensures ResumeAlong(s, listed, outcomes, now).disk == s.disk
    decreases |listed|
  {
    if listed != [] {
      AddsKeepDisk(ResumeOne(s, listed[0], outcomes, now), listed[1..], outcomes, now);
    }
  }

  lemma {:induction false} TickKeepsDisk(s: State, k: nat, probes: string -> Probe, now: nat)
    requires k <= |s.rows|
    ensures PollUpTo(s, k, probes, now).disk == s.disk
  {
    if k > 0 {
      TickKeepsDisk(s, k - 1, probes, now);
    }
  }

  /** Once a completed job is in the state file it is there, and in the daemon, after every run of requests,
      adds, ticks, saves and any number of crashes, until a request commits to it again or drops it. */
  lemma {:induction false} CompletedSurvives(s: State, es: seq<Event>, job: Job)
    requires Sound(s) && FreshRun(s, es) && LeftAlone(s, es, job.jobId)
    requires job.status == Completed && HasJobRow(s.rows, job) && job in s.disk
    ensures HasJobRow(Run(s, es).rows, job) && job in Run(s, es).disk
    decreases |es|
  {
    if es != [] {
      StepSound(s, es[0]);
      StepKeepsSaved(s, es[0], job);
      CompletedSurvives(Step(s, es[0]), es[1..], job);
    }
  }

  /** The daemon leaves its loop only when every job has ended, none queues a request and no add is in flight;
      an engine it drops then is one of a job that failed or was stopped. */
  lemma IdleExit(s: State, x: string)
    requires Sound(s) && Conserved(s) && !HasWork(s.rows)
    ensures forall i :: 0 <= i < |s.rows| ==>
      Over(s.rows[i]) && (s.rows[i].engine.Some? ==> s.rows[i].job.status in {Failed, Stopped})
    ensures Count(s.asked, x) == Count(SaidIds(s.said), x) + Count(s.dropped, x) + Count(s.lost, x)
    ensures AddsInFlight(s.rows) == []
  {
    WorkIff(s.rows);
    AdoptedQueueNothing(s.rows);
    NothingInFlight(s.rows);
  }

  /** So in every state a run reaches. */
  lemma LeavesNoJobBehind(es: seq<Event>, i: nat)
    requires FreshRun(START, es) && !HasWork(Run(START, es).rows) && i < |Run(START, es).rows|
    ensures var r := Run(START, es).rows[i];
      Over(r) && (r.engine.Some? ==> r.job.status in {Failed, Stopped})
  {
    RunSound(START, es);
    WorkIff(Run(START, es).rows);
    assert RowOk(Run(START, es).rows[i]);
  }

  lemma {:induction false} NothingInFlight(rows: seq<Runtime>)
    requires forall i :: 0 <= i < |rows| ==> rows[i].add.None?
    ensures AddsInFlight(rows) == []
  {
    if rows != [] {
      NothingInFlight(rows[..|rows| - 1]);
    }
  }
}
