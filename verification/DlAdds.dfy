/** How long a job keeps an add that has no result yet: exactly what ends it, over every event and every run. */
module DlAdds {
  import opened Common
  import opened DlJobs
  import opened DlRows
  import opened DlSteps
  import opened DlInvariants
  import opened DlTicks
  import opened DlResume
  import opened DlRuns

  // ---- a tick -----------------------------------------------------------------------------

  /** The tick completes the job, by an engine that the add was to replace. */
  predicate CompletesUnder(r: Runtime, p: Probe, now: nat) {
    r.engine.Some? && p.alive && TakenAsComplete(r, p) && MoveGoes(r, p, now)
  }

  lemma TickKeepsAddIff(r: Runtime, p: Probe, now: nat)
    requires RowOk(r) && r.add.Some?
    ensures PollRow(r, p, now).row.add == r.add <==> !CompletesUnder(r, p, now)
    ensures CompletesUnder(r, p, now) ==> PollRow(r, p, now).row.add.None?
  {
    CompletesIff(r, p, now);
    if r.engine.Some? && p.alive {
      TakenTick(r, p, now);
      TakeKeepsAdd(r, p, now);
    }
    if r.engine.Some? && p.alive && TakenAsComplete(r, p) {
      MoveKeepsAdd(TakeTick(r, p, now).row, p, now);
    }
  }

  lemma TakeKeepsAdd(r: Runtime, p: Probe, now: nat)
    ensures TakeTick(r, p, now).row.add == r.add
  {
  }

  lemma MoveKeepsAdd(r: Runtime, p: Probe, now: nat)
    requires r.job.status == Moving
    ensures var t := TryMove(r, p, now).row; if t.job.status == Completed then t.add.None? else t.add == r.add
  {
  }

  lemma TickIsSameJob(s: State, probes: string -> Probe, now: nat, k: nat)
    requires Sound(s) && k < |s.rows|
    ensures var r, t := s.rows[k], Step(s, Tick(probes, now)).rows[k];
      && t == PollRow(r, probes(r.job.jobId), now).row
      && t.job.jobId == r.job.jobId && (t.add == r.add || t.add.None?)
  {
    PolledRow(s, |s.rows|, probes, now, k);
    PollRowOk(s.rows[k], probes(s.rows[k].job.jobId), now);
  }

  lemma TickHoldsIff(s: State, probes: string -> Probe, now: nat, k: nat)
    requires Sound(s) && k < |s.rows| && s.rows[k].add.Some?
    ensures var r, t := s.rows[k], Step(s, Tick(probes, now)).rows;
      && (HeldBy(t, r.job.jobId, r.add.value) <==> !CompletesUnder(r, probes(r.job.jobId), now))
      && (CompletesUnder(r, probes(r.job.jobId), now) ==> !Held(t, r.add.value))
  {
    var r, t := s.rows[k], Step(s, Tick(probes, now)).rows;
    TickIsSameJob(s, probes, now, k);
    TickKeepsAddIff(r, probes(r.job.jobId), now);
    forall m | 0 <= m < |t| && t[m].add == r.add ensures m == k {
      TickIsSameJob(s, probes, now, m);
    }
  }

  // ---- one event --------------------------------------------------------------------------

  ghost predicate Holder(s: State, k: nat, id: string, h: nat) {
    k < |s.rows| && s.rows[k].job.jobId == id && s.rows[k].add == Some(h)
  }

  /** The event ends job `id`'s add `h`, of which there is no result: a request drops the job or commits to it
      after it failed, a finished add is merged into it after it failed, a tick completes it by the engine the
      add was to replace, or the daemon dies. */
  ghost predicate Ends(s: State, e: Event, id: string, h: nat) {
    match e
    case Spool(q, _, _, _) => exists k: nat :: Holder(s, k, id, h) && EndsAdd(s, q, k)
    case Adds(outcomes, now) => ReplacedAlong(s, AddsInFlight(s.rows), outcomes, now, id)
    case Tick(probes, now) => exists k: nat :: Holder(s, k, id, h) && CompletesUnder(s.rows[k], probes(id), now)
    case SaveState => false
    case Crash => true
  }

  /** No result of add `h` comes in over the run. */
  predicate Unready(es: seq<Event>, h: nat) {
    forall i :: 0 <= i < |es| && es[i].Adds? ==> h !in es[i].outcomes
  }

  lemma OneHolder(s: State, j: nat, k: nat, id: string, h: nat)
    requires Sound(s) && Holder(s, j, id, h) && Holder(s, k, id, h)
    ensures j == k
  {
    assert Jobs(s.rows)[j].jobId == Jobs(s.rows)[k].jobId;
  }

  lemma RequestEndsIff(s: State, q: Request, jobId: string, live: bool, now: nat, k: nat, id: string, h: nat)
    requires Sound(s) && Holder(s, k, id, h)
    ensures var e := Spool(q, jobId, live, now);
      && (HeldBy(Step(s, e).rows, id, h) <==> !Ends(s, e, id, h))
      && (Ends(s, e, id, h) ==> !Held(Step(s, e).rows, h))
  {
    RequestKeepsAddIff(s, q, jobId, live, now, k);
    if EndsAdd(s, q, k) {
      RequestEndsAdd(s, q, jobId, live, now, k);
    }
    forall j: nat | Holder(s, j, id, h) ensures j == k {
      OneHolder(s, j, k, id, h);
    }
  }

  lemma TickEndsIff(s: State, probes: string -> Probe, now: nat, k: nat, id: string, h: nat)
    requires Sound(s) && Holder(s, k, id, h)
    ensures var e := Tick(probes, now);
      && (HeldBy(Step(s, e).rows, id, h) <==> !Ends(s, e, id, h))
      && (Ends(s, e, id, h) ==> !Held(Step(s, e).rows, h))
  {
    TickHoldsIff(s, probes, now, k);
    forall j: nat | Holder(s, j, id, h) ensures j == k {
      OneHolder(s, j, k, id, h);
    }
  }

  lemma CrashEnds(s: State, h: nat)
    requires h < s.next
    ensures !Held(Restart(s).rows, h)
  {
    var t := Restart(s).rows;
    assert forall i :: 0 <= i < |t| ==> t[i] == AdoptJob(s.disk[i], s.next + i);
  }

  /** Over one event a job keeps an add without a result if and only if the event does not end it. */
  lemma StepKeepsAddIff(s: State, e: Event, id: string, h: nat)
    requires Sound(s) && HeldBy(s.rows, id, h) && Unready([e], h)
    ensures HeldBy(Step(s, e).rows, id, h) <==> !Ends(s, e, id, h)
    ensures Ends(s, e, id, h) ==> !Held(Step(s, e).rows, h)
  {
    var k :| 0 <= k < |s.rows| && s.rows[k].job.jobId == id && s.rows[k].add == Some(h);
    assert Holder(s, k, id, h);
    match e {
      case Spool(q, jobId, live, now) => RequestEndsIff(s, q, jobId, live, now, k, id, h);
      case Adds(outcomes, now) =>
        assert [e][0] == e && h !in outcomes;
        UnreadyStays(s, AddsInFlight(s.rows), outcomes, now, id, h);
      case Tick(probes, now) => TickEndsIff(s, probes, now, k, id, h);
      case SaveState =>
      case Crash =>
        CrashEnds(s, h);
        HeldByHeld(Restart(s).rows, id, h);
    }
  }

  // ---- over whole runs --------------------------------------------------------------------

  lemma RequestBringsNone(s: State, q: Request, jobId: string, live: bool, now: nat, h: nat)
    requires Sound(s) && h < s.next && !Held(s.rows, h)
    ensures !Held(HandleRequest(s, q, jobId, live, now).rows, h)
  {
    var t := HandleRequest(s, q, jobId, live, now).rows;
    forall m | 0 <= m < |t| ensures t[m].add != Some(h) {
      if q.Drop? && DropTarget(s.rows, q).Some? {
        assert t[m] == s.rows[if m < DropTarget(s.rows, q).value then m else m + 1];
      }
    }
  }

  lemma TickBringsNone(s: State, probes: string -> Probe, now: nat, h: nat)
    requires Sound(s) && !Held(s.rows, h)
    ensures !Held(Step(s, Tick(probes, now)).rows, h)
  {
    var t := Step(s, Tick(probes, now)).rows;
    forall m | 0 <= m < |t| ensures t[m].add != Some(h) {
      TickIsSameJob(s, probes, now, m);
    }
  }

  /** A handle that no row has comes back with no event. */
  lemma StepBringsNone(s: State, e: Event, h: nat)
    requires Sound(s) && h < s.next && !Held(s.rows, h)
    ensures !Held(Step(s, e).rows, h)
  {
    match e {
      case Spool(q, jobId, live, now) => RequestBringsNone(s, q, jobId, live, now, h);
      case Adds(outcomes, now) => NeverBack(s, AddsInFlight(s.rows), outcomes, now, h);
      case Tick(probes, now) => TickBringsNone(s, probes, now, h);
      case SaveState =>
      case Crash => CrashEnds(s, h);
    }
  }

  lemma {:induction false} AlongNext(s: State, listed: seq<nat>, outcomes: map<nat, AddOutcome>, now: nat)
    ensures s.next <= ResumeAlong(s, listed, outcomes, now).next
    decreases |listed|
  {
    if listed != [] {
      ResumeOneNext(s, listed[0], outcomes, now);
      AlongNext(ResumeOne(s, listed[0], outcomes, now), listed[1..], outcomes, now);
    }
  }

  lemma {:induction false} PollNext(s: State, k: nat, probes: string -> Probe, now: nat)
    requires k <= |s.rows|
    ensures s.next == PollUpTo(s, k, probes, now).next
  {
    if k > 0 {
      PollNext(s, k - 1, probes, now);
    }
  }

  lemma StepNext(s: State, e: Event)
    ensures s.next <= Step(s, e).next
  {
    match e {
      case Spool(_, _, _, _) =>
      case Adds(outcomes, now) => AlongNext(s, AddsInFlight(s.rows), outcomes, now);
      case Tick(probes, now) => PollNext(s, |s.rows|, probes, now);
      case SaveState =>
      case Crash =>
    }
  }

  lemma {:induction false} RunBringsNone(s: State, es: seq<Event>, id: string, h: nat)
    requires Sound(s) && FreshRun(s, es) && h < s.next && !Held(s.rows, h)
    ensures !HeldBy(Run(s, es).rows, id, h)
    decreases |es|
  {
    if es == [] {
      HeldByHeld(s.rows, id, h);
    } else {
      StepBringsNone(s, es[0], h);
      StepNext(s, es[0]);
      StepSound(s, es[0]);
      RunBringsNone(Step(s, es[0]), es[1..], id, h);
    }
  }

  ghost predicate EndedAlong(s: State, es: seq<Event>, id: string, h: nat)
    decreases |es|
  {
    es != [] && (Ends(s, es[0], id, h) || EndedAlong(Step(s, es[0]), es[1..], id, h))
  }

  lemma HeldIsOld(s: State, id: string, h: nat)
    requires Sound(s) && HeldBy(s.rows, id, h)
    ensures h < s.next
  {
  }

  /** Over any run in which its result does not come in, a job keeps its add in flight if and only if no event
      of the run ends it. */
  lemma {:induction false} AddStaysIff(s: State, es: seq<Event>, id: string, h: nat)
    requires Sound(s) && FreshRun(s, es) && HeldBy(s.rows, id, h) && Unready(es, h)
    ensures HeldBy(Run(s, es).rows, id, h) <==> !EndedAlong(s, es, id, h)
    decreases |es|
  {
    if es != [] {
      var t := Step(s, es[0]);
      HeldIsOld(s, id, h);
      StepKeepsAddIff(s, es[0], id, h);
      StepNext(s, es[0]);
      StepSound(s, es[0]);
      if Ends(s, es[0], id, h) {
        RunBringsNone(t, es[1..], id, h);
      } else {
        assert forall i :: 0 <= i < |es[1..]| ==> es[1..][i] == es[i + 1];
        AddStaysIff(t, es[1..], id, h);
      }
    }
  }
}
