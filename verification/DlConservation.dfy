/** Requests are conserved: no step of the daemon loses or duplicates one. */
module DlConservation {
  import opened Common
  import opened DlJobs
  import opened DlRows
  import opened DlSteps

  function Count(ids: seq<string>, x: string): nat {
    if ids == [] then 0 else Count(ids[..|ids| - 1], x) + if ids[|ids| - 1] == x then 1 else 0
  }

  function SaidIds(said: seq<Response>): seq<string> {
    seq(|said|, i requires 0 <= i < |said| => said[i].requestId)
  }

  /** The places a consumed request can be in: queued on a row, answered, dropped with its job,
      lost with the process. */
  function Places(s: State, x: string): nat {
    Count(Waiting(s.rows), x) + Count(SaidIds(s.said), x) + Count(s.dropped, x) + Count(s.lost, x)
  }

  /** As often as `x` was consumed, so often it is in one of its places. */
  ghost predicate Conserved(s: State) {
    forall x :: Count(s.asked, x) == Places(s, x)
  }

  // ---- sums over sequences ----------------------------------------------------------------

  lemma {:induction false} CountConcat(a: seq<string>, b: seq<string>, x: string)
    ensures Count(a + b, x) == Count(a, x) + Count(b, x)
  {
    if b == [] {
      assert a + b == a;
    } else {
      assert (a + b)[..|a + b| - 1] == a + b[..|b| - 1];
      CountConcat(a, b[..|b| - 1], x);
    }
  }

  lemma SaidConcat(a: seq<Response>, b: seq<Response>, x: string)
    ensures Count(SaidIds(a + b), x) == Count(SaidIds(a), x) + Count(SaidIds(b), x)
  {
    assert SaidIds(a + b) == SaidIds(a) + SaidIds(b);
    CountConcat(SaidIds(a), SaidIds(b), x);
  }

  lemma IdsConcat(a: seq<Pending>, b: seq<Pending>, x: string)
    ensures Count(Ids(a + b), x) == Count(Ids(a), x) + Count(Ids(b), x)
  {
    assert Ids(a + b) == Ids(a) + Ids(b);
    CountConcat(Ids(a), Ids(b), x);
  }

  lemma {:induction false} WaitingConcat(a: seq<Runtime>, b: seq<Runtime>, x: string)
    ensures Count(Waiting(a + b), x) == Count(Waiting(a), x) + Count(Waiting(b), x)
  {
    if b == [] {
      assert a + b == a;
    } else {
      var last := b[|b| - 1];
      assert (a + b)[..|a + b| - 1] == a + b[..|b| - 1];
      WaitingConcat(a, b[..|b| - 1], x);
      CountConcat(Waiting(a + b[..|b| - 1]), Ids(last.pending), x);
      CountConcat(Waiting(b[..|b| - 1]), Ids(last.pending), x);
    }
  }

  lemma WaitingOne(r: Runtime)
    ensures Waiting([r]) == Ids(r.pending)
  {
  }

  lemma WaitingAround(rows: seq<Runtime>, i: nat, x: string)
    requires i < |rows|
    ensures Count(Waiting(rows), x)
         == Count(Waiting(rows[..i]), x) + Count(Ids(rows[i].pending), x) + Count(Waiting(rows[i + 1..]), x)
  {
    assert rows == (rows[..i] + [rows[i]]) + rows[i + 1..];
    WaitingConcat(rows[..i], [rows[i]], x);
    WaitingConcat(rows[..i] + [rows[i]], rows[i + 1..], x);
    WaitingOne(rows[i]);
  }

  lemma WaitingPut(rows: seq<Runtime>, i: nat, r: Runtime, x: string)
    requires i < |rows|
    ensures Count(Waiting(rows[i := r]), x) + Count(Ids(rows[i].pending), x)
         == Count(Waiting(rows), x) + Count(Ids(r.pending), x)
  {
    WaitingAround(rows, i, x);
    WaitingAround(rows[i := r], i, x);
    assert rows[i := r][..i] == rows[..i] && rows[i := r][i + 1..] == rows[i + 1..];
  }

  lemma WaitingWithout(rows: seq<Runtime>, i: nat, x: string)
    requires i < |rows|
    ensures Count(Waiting(Without(rows, i)), x) + Count(Ids(rows[i].pending), x) == Count(Waiting(rows), x)
  {
    WaitingAround(rows, i, x);
    WaitingConcat(rows[..i], rows[i + 1..], x);
  }

  // ---- row steps --------------------------------------------------------------------------

  /** The step answers or keeps exactly what the row held plus the requests `extra`. */
  ghost predicate Fair(r: Runtime, extra: seq<string>, o: Outcome, x: string) {
    Count(Ids(r.pending), x) + Count(extra, x) == Count(Ids(o.row.pending), x) + Count(SaidIds(o.said), x)
  }

  lemma AllSaid(r: Runtime, why: Reason)
    ensures SaidIds(AnswerAll(r, r.pending)) == Ids(r.pending)
    ensures SaidIds(RefuseAll(r.pending, why)) == Ids(r.pending)
  {
  }

  lemma DeliverFair(r: Runtime, p: Pending, x: string)
    ensures Fair(r, [p.requestId], Deliver(r, p), x)
  {
    IdsConcat(r.pending, [p], x);
    assert Ids([p]) == [p.requestId];
    assert SaidIds([Respond(r, p)]) == [p.requestId];
  }

  lemma {:induction false} DeliverAllFair(r: Runtime, ps: seq<Pending>, x: string)
    ensures Fair(r, Ids(ps), DeliverAll(r, ps), x)
  {
    if ps != [] {
      var last := ps[|ps| - 1];
      var before := DeliverAll(r, ps[..|ps| - 1]);
      DeliverAllFair(r, ps[..|ps| - 1], x);
      DeliverFair(before.row, last, x);
      SaidConcat(before.said, Deliver(before.row, last).said, x);
      assert ps == ps[..|ps| - 1] + [last] && Ids([last]) == [last.requestId];
      IdsConcat(ps[..|ps| - 1], [last], x);
    }
  }

  lemma StreamRowFair(r: Runtime, p: Pending, live: bool, now: nat, x: string)
    ensures Fair(r, [p.requestId], StreamRow(r, p, live, now), x)
  {
    IdsConcat(r.pending, [p], x);
    assert Ids([p]) == [p.requestId];
    assert SaidIds([Refusal(p.requestId, NotActive)]) == [p.requestId];
    assert SaidIds([Respond(r, p)]) == [p.requestId];
  }

  lemma AddFair(r: Runtime, o: AddOutcome, now: nat, x: string)
    ensures o.Ready? ==> Fair(r, [], AddSettles(r, o, now), x)
    ensures o.AddError? ==> Fair(r, [], AddFails(r, o.text), x)
  {
    AllSaid(r, NoPlayableMedia);
    if o.AddError? {
      AllSaid(r, AddFailed(o.text));
    }
  }

  lemma AnswerQueuedFair(r: Runtime, st: Stats, now: nat, x: string)
    ensures Fair(r, [], AnswerQueued(r, st, now), x)
  {
    AllSaid(r, NotReadyInTime);
  }

  lemma MovesQueueNothing(r: Runtime, st: Stats, p: Probe, now: nat)
    ensures TakeStats(r, st, now).pending == r.pending
    ensures TryMove(r, p, now).row.pending == r.pending
  {
  }

  lemma TakeTickFair(r: Runtime, p: Probe, now: nat, x: string)
    ensures Fair(r, [], TakeTick(r, p, now), x)
  {
    if p.stats.Some? {
      AnswerQueuedFair(r, p.stats.value, now, x);
      MovesQueueNothing(AnswerQueued(r, p.stats.value, now).row, p.stats.value, p, now);
    }
  }

  lemma PollRowFair(r: Runtime, p: Probe, now: nat, x: string)
    ensures Fair(r, [], PollRow(r, p, now), x)
  {
    AllSaid(r, EngineExited);
    TakeTickFair(r, p, now, x);
    MoveTakesNone(TakeTick(r, p, now).row, p, now);
  }

  lemma MoveTakesNone(r: Runtime, p: Probe, now: nat)
    ensures TryMove(r, p, now).row.pending == r.pending && TryMove(r, p, now).said == []
  {
  }

  // ---- list steps -------------------------------------------------------------------------

  lemma PutConserves(s: State, i: nat, o: Outcome, extra: seq<string>, x: string)
    requires i < |s.rows| && Fair(s.rows[i], extra, o, x)
    ensures Places(Put(s, i, o), x) == Places(s, x) + Count(extra, x)
  {
    WaitingPut(s.rows, i, o.row, x);
    SaidConcat(s.said, o.said, x);
  }

  lemma EnqueueConserves(s: State, q: Request, jobId: string, live: bool, now: nat, x: string)
    requires q.Enqueue?
    ensures Places(HandleRequest(s, q, jobId, live, now), x)
         == Places(s, x) + Count(if q.play then [q.id] else [], x)
  {
    var want := if q.play then [q.id] else [];
    var hash := LowerHash(q.infohash);
    var at := FindExisting(s.rows, hash, Some(q.sourceKey));
    if at.Some? {
      var row := Recommit(s.rows[at.value], q.files, hash, s.next);
      var o := MergeEnqueue(s.rows[at.value], q.id, q.files, q.play, hash, s.next);
      DeliverFair(row, Pending(q.id, EnqueuePlay, PlayPicks(row)), x);
      assert Fair(s.rows[at.value], want, o, x);
      PutConserves(Ask(s, q), at.value, o, want, x);
    } else {
      var row := Fresh(q, jobId, s.next);
      WaitingConcat(s.rows, [row], x);
      WaitingOne(row);
      assert Ids(row.pending) == want;
    }
  }

  lemma StreamConserves(s: State, q: Request, jobId: string, live: bool, now: nat, x: string)
    requires q.StreamFiles?
    ensures Places(HandleRequest(s, q, jobId, live, now), x) == Places(s, x) + Count([q.id], x)
  {
    var at := FindExisting(s.rows, LowerHash(q.infohash), Some(q.sourceKey));
    if at.Some? {
      var p := Pending(q.id, Stream(q.indices), []);
      StreamRowFair(s.rows[at.value], p, live, now, x);
      PutConserves(Ask(s, q), at.value, StreamRow(s.rows[at.value], p, live, now), [q.id], x);
    } else {
      SaidConcat(s.said, [Refusal(q.id, NoActiveJob)], x);
      assert SaidIds([Refusal(q.id, NoActiveJob)]) == [q.id];
    }
  }

  lemma DropConserves(s: State, q: Request, jobId: string, live: bool, now: nat, x: string)
    requires q.Drop?
    ensures Places(HandleRequest(s, q, jobId, live, now), x) == Places(s, x)
  {
    var at := DropTarget(s.rows, q);
    if at.Some? {
      WaitingWithout(s.rows, at.value, x);
      CountConcat(s.dropped, Ids(s.rows[at.value].pending), x);
    }
  }

  lemma HandleAsks(s: State, q: Request, jobId: string, live: bool, now: nat)
    ensures HandleRequest(s, q, jobId, live, now).asked == s.asked + if WantsAnswer(q) then [q.id] else []
  {
  }

  lemma HandlePlaces(s: State, q: Request, jobId: string, live: bool, now: nat, x: string)
    ensures Places(HandleRequest(s, q, jobId, live, now), x)
         == Places(s, x) + Count(if WantsAnswer(q) then [q.id] else [], x)
  {
    if q.Enqueue? {
      EnqueueConserves(s, q, jobId, live, now, x);
    } else if q.StreamFiles? {
      StreamConserves(s, q, jobId, live, now, x);
    } else {
      DropConserves(s, q, jobId, live, now, x);
    }
  }

  lemma HandleConserves(s: State, t: State, q: Request, jobId: string, live: bool, now: nat, x: string)
    requires Count(s.asked, x) == Places(s, x) && t == HandleRequest(s, q, jobId, live, now)
    ensures Count(t.asked, x) == Places(t, x)
  {
    HandleAsks(s, q, jobId, live, now);
    HandlePlaces(s, q, jobId, live, now, x);
    CountConcat(s.asked, if WantsAnswer(q) then [q.id] else [], x);
  }

  lemma MergeConserves(s: State, dup: nat, i: nat, x: string)
    requires dup < |s.rows| && i < |s.rows| && dup != i
    ensures Places(MergeInto(s, dup, i), x) == Places(s, x)
  {
    var row := Recommit(s.rows[dup], s.rows[i].job.kept, None, s.next);
    var o := DeliverAll(row, s.rows[i].pending);
    DeliverAllFair(row, s.rows[i].pending, x);
    PutConserves(s, dup, o, Ids(s.rows[i].pending), x);
    WaitingWithout(s.rows[dup := o.row], i, x);
  }

  lemma ResumeOneConserves(s: State, i: nat, outcomes: map<nat, AddOutcome>, now: nat, x: string)
    ensures Places(ResumeOne(s, i, outcomes, now), x) == Places(s, x)
  {
    if i < |s.rows| && HasOutcome(s.rows[i], outcomes) {
      var o := outcomes[s.rows[i].add.value];
      AddFair(s.rows[i], o, now, x);
      match o
      case Ready(_, _, _, _, _) =>
        var dup := Duplicate(s.rows, i, o.details);
        if dup.Some? {
          MergeConserves(s, dup.value, i, x);
        } else {
          PutConserves(s, i, AddSettles(s.rows[i], o, now), [], x);
        }
      case Cancelled =>
        WaitingWithout(s.rows, i, x);
        CountConcat(s.dropped, Ids(s.rows[i].pending), x);
      case AddError(text) =>
        PutConserves(s, i, AddFails(s.rows[i], text), [], x);
    }
  }

  lemma {:induction false} ResumeAlongConserves(
    s: State, listed: seq<nat>, outcomes: map<nat, AddOutcome>, now: nat, x: string)
    ensures Places(ResumeAlong(s, listed, outcomes, now), x) == Places(s, x)
    ensures ResumeAlong(s, listed, outcomes, now).asked == s.asked
    decreases |listed|
  {
    if listed != [] {
      ResumeOneConserves(s, listed[0], outcomes, now, x);
      ResumeAlongConserves(ResumeOne(s, listed[0], outcomes, now), listed[1..], outcomes, now, x);
    }
  }

  lemma PollOneConserves(s: State, t: State, i: nat, p: Probe, now: nat, x: string)
    requires i < |s.rows| && t == PollOne(s, i, p, now)
    ensures Places(t, x) == Places(s, x) && t.asked == s.asked
  {
    PollRowFair(s.rows[i], p, now, x);
    PutConserves(s, i, PollRow(s.rows[i], p, now), [], x);
  }

  lemma {:induction false} NextPollConserves(s: State, k: nat, t: State, probes: string -> Probe, now: nat, x: string)
    requires k < |s.rows| && t == PollUpTo(s, k + 1, probes, now)
    ensures Places(t, x) == Places(PollUpTo(s, k, probes, now), x)
    ensures t.asked == PollUpTo(s, k, probes, now).asked
  {
    NextPoll(s, k, probes, now);
    PollOneConserves(PollUpTo(s, k, probes, now), t, k, probes(s.rows[k].job.jobId), now, x);
  }

  lemma {:induction false} PollConserves(s: State, k: nat, probes: string -> Probe, now: nat, x: string)
    requires k <= |s.rows|
    ensures Places(PollUpTo(s, k, probes, now), x) == Places(s, x)
    ensures PollUpTo(s, k, probes, now).asked == s.asked
  {
    if k == 0 {
      assert PollUpTo(s, 0, probes, now) == s;
    } else {
      PollConserves(s, k - 1, probes, now, x);
      NextPollConserves(s, k - 1, PollUpTo(s, k, probes, now), probes, now, x);
    }
  }

  lemma {:induction false} AdoptedQueueNothing(rows: seq<Runtime>)
    requires forall i :: 0 <= i < |rows| ==> rows[i].pending == []
    ensures Waiting(rows) == []
  {
    if rows != [] {
      AdoptedQueueNothing(rows[..|rows| - 1]);
    }
  }

  // ---- over whole runs --------------------------------------------------------------------

  lemma StepConserves(s: State, e: Event)
    requires Conserved(s)
    ensures Conserved(Step(s, e))
  {
    forall x ensures Count(Step(s, e).asked, x) == Places(Step(s, e), x) {
      match e
      case Spool(q, jobId, live, now) => HandleConserves(s, Step(s, e), q, jobId, live, now, x);
      case Adds(outcomes, now) => ResumeAlongConserves(s, AddsInFlight(s.rows), outcomes, now, x);
      case Tick(probes, now) => PollConserves(s, |s.rows|, probes, now, x);
      case SaveState =>
      case Crash =>
        AdoptedQueueNothing(Restart(s).rows);
        CountConcat(s.lost, Waiting(s.rows), x);
    }
  }

  lemma {:induction false} RunConserves(s: State, es: seq<Event>)
    requires Conserved(s)
    ensures Conserved(Run(s, es))
    decreases |es|
  {
    if es != [] {
      StepConserves(s, es[0]);
      RunConserves(Step(s, es[0]), es[1..]);
    }
  }

  /** The ids a run consumes, read off its spool requests. */
  function AskedBy(es: seq<Event>): seq<string> {
    if es == [] then []
    else AskedIn(es[0]) + AskedBy(es[1..])
  }

  function AskedIn(e: Event): seq<string> {
    if e.Spool? && WantsAnswer(e.q) then [e.q.id] else []
  }

  lemma StepAsks(s: State, e: Event)
    ensures Step(s, e).asked == s.asked + AskedIn(e)
  {
    match e {
      case Spool(_, _, _, _) =>
      case Adds(outcomes, now) => ResumeAlongConserves(s, AddsInFlight(s.rows), outcomes, now, "");
      case Tick(probes, now) => PollConserves(s, |s.rows|, probes, now, "");
      case SaveState =>
      case Crash =>
    }
  }

  lemma Assoc(a: seq<string>, b: seq<string>, c: seq<string>)
    ensures a + (b + c) == (a + b) + c
  {
  }

  lemma {:induction false} RunAsks(s: State, es: seq<Event>)
    ensures Run(s, es).asked == s.asked + AskedBy(es)
    decreases |es|
  {
    if es != [] {
      StepAsks(s, es[0]);
      RunAsks(Step(s, es[0]), es[1..]);
      Assoc(s.asked, AskedIn(es[0]), AskedBy(es[1..]));
    }
  }

  /** With an id used once, the request is in exactly one place, exactly once, after every run. */
  lemma RequestInOnePlace(es: seq<Event>, x: string)
    requires Count(AskedBy(es), x) == 1
    ensures var t := Run(START, es);
      Count(Waiting(t.rows), x) + Count(SaidIds(t.said), x) + Count(t.dropped, x) + Count(t.lost, x) == 1
  {
    RunConserves(START, es);
    RunAsks(START, es);
    assert START.asked + AskedBy(es) == AskedBy(es);
  }

  /** No response is ever written for an id nobody asked about. */
  lemma NoUnaskedResponse(es: seq<Event>, k: nat)
    requires k < |Run(START, es).said|
    ensures Run(START, es).said[k].requestId in AskedBy(es)
  {
    var t := Run(START, es);
    var x := t.said[k].requestId;
    RunConserves(START, es);
    RunAsks(START, es);
    assert START.asked + AskedBy(es) == AskedBy(es);
    CountIn(SaidIds(t.said), k);
    CountOut(AskedBy(es), x);
  }

  lemma {:induction false} CountIn(ids: seq<string>, k: nat)
    requires k < |ids|
    ensures Count(ids, ids[k]) > 0
  {
    if k < |ids| - 1 {
      CountIn(ids[..|ids| - 1], k);
    }
  }

  lemma {:induction false} CountOut(ids: seq<string>, x: string)
    ensures x !in ids ==> Count(ids, x) == 0
  {
    if ids != [] {
      CountOut(ids[..|ids| - 1], x);
    }
  }
}
