/** When a job in `Moving` has its files: what a tick without stats may rely on. */
module DlChecked {
  import opened Common
  import opened DlJobs
  import opened DlRows
  import opened DlSteps
  import opened DlInvariants
  import opened DlTicks
  import opened DlRuns
  import opened DlRunTicks

  /** The event is a tick that gets stats for job `id`. */
  predicate StatsTick(e: Event, id: string) {
    e.Tick? && e.probes(id).alive && e.probes(id).stats.Some?
  }

  /** The step leaves job `id` with other kept files. */
  ghost predicate KeptChanged(s: State, t: State, id: string) {
    exists j, k :: 0 <= j < |s.rows| && 0 <= k < |t.rows|
      && s.rows[j].job.jobId == id == t.rows[k].job.jobId && s.rows[j].job.kept != t.rows[k].job.kept
  }

  /** Over the run, job `id`'s kept files were not replaced after its last tick with stats; `stands` says so
      of what came before. */
  ghost predicate KeptStands(s: State, es: seq<Event>, id: string, stands: bool)
    decreases |es|
  {
    if es == [] then stands
    else KeptStands(Step(s, es[0]), es[1..], id,
                    StatsTick(es[0], id) || (stands && !KeptChanged(s, Step(s, es[0]), id)))
  }

  // ---- a `Moving` row was one before ------------------------------------------------------

  /** A `Moving` row of `to` was `Moving` in `from`, with the same recorded progress. */
  ghost predicate MovesFrom(from: seq<Runtime>, u: Runtime) {
    u.job.status == Moving ==>
      exists j :: 0 <= j < |from| && from[j].job.jobId == u.job.jobId && from[j].job.status == Moving
                  && from[j].job.fileProgress == u.job.fileProgress
  }

  ghost predicate AllMoveFrom(from: seq<Runtime>, to: seq<Runtime>) {
    forall k :: 0 <= k < |to| ==> MovesFrom(from, to[k])
  }

  lemma SameRowsMoveFrom(rows: seq<Runtime>)
    ensures AllMoveFrom(rows, rows)
  {
    forall k | 0 <= k < |rows| ensures MovesFrom(rows, rows[k]) {
    }
  }

  lemma MovesFromPut(from: seq<Runtime>, to: seq<Runtime>, i: nat, u: Runtime)
    requires AllMoveFrom(from, to) && i < |to|
    requires u.job.status == Moving ==>
      to[i].job.status == Moving && u.job.jobId == to[i].job.jobId && u.job.fileProgress == to[i].job.fileProgress
    ensures AllMoveFrom(from, to[i := u])
  {
    assert MovesFrom(from, to[i]);
    var now := to[i := u];
    assert forall k :: 0 <= k < |now| && k != i ==> now[k] == to[k];
  }

  lemma MovesFromWithout(from: seq<Runtime>, to: seq<Runtime>, i: nat)
    requires AllMoveFrom(from, to) && i < |to|
    ensures AllMoveFrom(from, Without(to, i))
  {
  }

  lemma MergeMovesFrom(from: seq<Runtime>, s: State, dup: nat, i: nat)
    requires RowsOk(s.rows) && AllMoveFrom(from, s.rows) && dup < |s.rows| && i < |s.rows| && dup != i
    ensures AllMoveFrom(from, MergeInto(s, dup, i).rows)
  {
    var row := Recommit(s.rows[dup], s.rows[i].job.kept, None, s.next);
    CommitOk(s.rows[dup], "", s.rows[i].job.kept, false, None, s.next);
    DeliverAllOk(row, s.rows[i].pending);
    var u := DeliverAll(row, s.rows[i].pending).row;
    MovesFromPut(from, s.rows, dup, u);
    MovesFromWithout(from, s.rows[dup := u], i);
  }

  lemma ResumeOneMovesFrom(from: seq<Runtime>, s: State, i: nat, outcomes: map<nat, AddOutcome>, now: nat)
    requires RowsOk(s.rows) && AllMoveFrom(from, s.rows)
    ensures AllMoveFrom(from, ResumeOne(s, i, outcomes, now).rows)
  {
    if i < |s.rows| && HasOutcome(s.rows[i], outcomes) {
      var o := outcomes[s.rows[i].add.value];
      match o
      case Ready(_, _, _, _, _) =>
        if Duplicate(s.rows, i, o.details).Some? {
          MergeMovesFrom(from, s, Duplicate(s.rows, i, o.details).value, i);
        } else {
          MovesFromPut(from, s.rows, i, AddSettles(s.rows[i], o, now).row);
        }
      case Cancelled => MovesFromWithout(from, s.rows, i);
      case AddError(text) => MovesFromPut(from, s.rows, i, AddFails(s.rows[i], text).row);
    }
  }

  lemma {:induction false} ResumeAlongMovesFrom(
    from: seq<Runtime>, s: State, listed: seq<nat>, outcomes: map<nat, AddOutcome>, now: nat)
    requires Sound(s) && AllMoveFrom(from, s.rows)
    ensures AllMoveFrom(from, ResumeAlong(s, listed, outcomes, now).rows)
    decreases |listed|
  {
    if listed != [] {
      ResumeOneMovesFrom(from, s, listed[0], outcomes, now);
      ResumeOneSound(s, listed[0], outcomes, now);
      ResumeAlongMovesFrom(from, ResumeOne(s, listed[0], outcomes, now), listed[1..], outcomes, now);
    }
  }

  lemma EnqueueMovesFrom(s: State, q: Request, jobId: string, live: bool, now: nat)
    requires q.Enqueue?
    ensures AllMoveFrom(s.rows, HandleRequest(s, q, jobId, live, now).rows)
  {
    SameRowsMoveFrom(s.rows);
    var at := FindExisting(s.rows, LowerHash(q.infohash), Some(q.sourceKey));
    if at.Some? {
      var row := MergeEnqueue(s.rows[at.value], q.id, q.files, q.play, LowerHash(q.infohash), s.next).row;
      MovesFromPut(s.rows, s.rows, at.value, row);
    }
  }

  lemma HandleMovesFrom(s: State, q: Request, jobId: string, live: bool, now: nat)
    requires Sound(s)
    ensures AllMoveFrom(s.rows, HandleRequest(s, q, jobId, live, now).rows)
  {
    SameRowsMoveFrom(s.rows);
    match q
    case Enqueue(_, _, _, _, _, _) => EnqueueMovesFrom(s, q, jobId, live, now);
    case StreamFiles(id, infohash, key, indices) =>
      var at := FindExisting(s.rows, LowerHash(infohash), Some(key));
      if at.Some? {
        var row := StreamRow(s.rows[at.value], Pending(id, Stream(indices), []), live, now).row;
        MovesFromPut(s.rows, s.rows, at.value, row);
      }
    case Drop(_, _, _) =>
      if DropTarget(s.rows, q).Some? {
        MovesFromWithout(s.rows, s.rows, DropTarget(s.rows, q).value);
      }
  }

  /** A tick leaves a row in `Moving` with its files checked by these stats, or, without stats, as it was. */
  lemma TickMoves(r: Runtime, p: Probe, now: nat)
    requires RowOk(r) && PollRow(r, p, now).row.job.status == Moving
    ensures PollRow(r, p, now).row.job.jobId == r.job.jobId
    ensures p.alive && p.stats.Some? ==> Checked(PollRow(r, p, now).row)
    ensures !(p.alive && p.stats.Some?) ==> PollRow(r, p, now).row == r
  {
    PollRowOk(r, p, now);
    if p.alive && p.stats.Some? {
      TakenTick(r, p, now);
      var told := TakeTick(r, p, now).row;
      assert told.job.fileProgress == p.stats.value.fileProgress;
      assert PollRow(r, p, now).row == told;
      forall i | 0 <= i < |told.job.kept| ensures Has(told, told.job.kept[i]) {
        assert Progress(p.stats.value, r.job.kept[i].index) >= r.job.kept[i].length;
      }
    }
  }

  // ---- over whole runs --------------------------------------------------------------------

  ghost predicate MovingChecked(s: State, id: string, stands: bool) {
    stands ==> forall k :: 0 <= k < |s.rows| && s.rows[k].job.jobId == id && s.rows[k].job.status == Moving
                           ==> Checked(s.rows[k])
  }

  lemma MovedFromChecked(s: State, t: State, id: string, k: nat)
    requires MovingChecked(s, id, true) && AllMoveFrom(s.rows, t.rows) && !KeptChanged(s, t, id)
    requires k < |t.rows| && t.rows[k].job.jobId == id && t.rows[k].job.status == Moving
    ensures Checked(t.rows[k])
  {
    assert MovesFrom(s.rows, t.rows[k]);
    var j :| 0 <= j < |s.rows| && s.rows[j].job.jobId == id && s.rows[j].job.status == Moving
             && s.rows[j].job.fileProgress == t.rows[k].job.fileProgress;
    assert s.rows[j].job.kept == t.rows[k].job.kept;
    forall i | 0 <= i < |t.rows[k].job.kept| ensures Has(t.rows[k], t.rows[k].job.kept[i]) {
      assert Has(s.rows[j], s.rows[j].job.kept[i]);
    }
  }

  lemma QuietStepMovesFrom(s: State, e: Event)
    requires Sound(s) && !e.Tick?
    ensures AllMoveFrom(s.rows, Step(s, e).rows)
  {
    match e {
      case Spool(q, jobId, live, now) => HandleMovesFrom(s, q, jobId, live, now);
      case Adds(outcomes, now) =>
        SameRowsMoveFrom(s.rows);
        ResumeAlongMovesFrom(s.rows, s, AddsInFlight(s.rows), outcomes, now);
      case SaveState => SameRowsMoveFrom(s.rows);
      case Crash =>
    }
  }

  lemma TickChecked(s: State, probes: string -> Probe, now: nat, id: string, stands: bool)
    requires Sound(s) && MovingChecked(s, id, stands)
    ensures var e := Tick(probes, now);
      MovingChecked(Step(s, e), id, StatsTick(e, id) || (stands && !KeptChanged(s, Step(s, e), id)))
  {
    var t := Step(s, Tick(probes, now));
    forall k | 0 <= k < |t.rows| && t.rows[k].job.jobId == id && t.rows[k].job.status == Moving
      ensures StatsTick(Tick(probes, now), id) || stands ==> Checked(t.rows[k])
    {
      PolledRow(s, |s.rows|, probes, now, k);
      TickMoves(s.rows[k], probes(s.rows[k].job.jobId), now);
    }
  }

  lemma StepChecked(s: State, e: Event, id: string, stands: bool)
    requires Sound(s) && MovingChecked(s, id, stands)
    ensures MovingChecked(Step(s, e), id, StatsTick(e, id) || (stands && !KeptChanged(s, Step(s, e), id)))
  {
    if e.Tick? {
      TickChecked(s, e.probes, e.now, id, stands);
    } else if stands && !KeptChanged(s, Step(s, e), id) {
      QuietStepMovesFrom(s, e);
      var t := Step(s, e);
      forall k | 0 <= k < |t.rows| && t.rows[k].job.jobId == id && t.rows[k].job.status == Moving
        ensures Checked(t.rows[k])
      {
        MovedFromChecked(s, t, id, k);
      }
    }
  }

  lemma {:induction false} RunChecked(s: State, es: seq<Event>, id: string, stands: bool)
    requires Sound(s) && FreshRun(s, es) && MovingChecked(s, id, stands)
    ensures MovingChecked(Run(s, es), id, KeptStands(s, es, id, stands))
    decreases |es|
  {
    if es != [] {
      var stand := StatsTick(es[0], id) || (stands && !KeptChanged(s, Step(s, es[0]), id));
      StepChecked(s, es[0], id, stands);
      StepSound(s, es[0]);
      RunChecked(Step(s, es[0]), es[1..], id, stand);
    }
  }

  /** In every reachable state a `Moving` job whose kept files were not replaced since its last tick with
      stats has every one of them complete in what that tick recorded. */
  lemma MovingIsChecked(es: seq<Event>, k: nat)
    requires FreshRun(START, es) && k < |Run(START, es).rows| && Run(START, es).rows[k].job.status == Moving
    requires KeptStands(START, es, Run(START, es).rows[k].job.jobId, true)
    ensures Checked(Run(START, es).rows[k])
  {
    RunChecked(START, es, Run(START, es).rows[k].job.jobId, true);
  }

  /** So a tick that gets no stats and completes such a job moves complete files only. */
  lemma FailedStatsMovesChecked(es: seq<Event>, probes: string -> Probe, now: nat, k: nat)
    requires FreshRun(START, es) && k < |Run(START, es).rows|
    requires var r := Run(START, es).rows[k];
      r.job.status != Completed && probes(r.job.jobId).stats.None? && KeptStands(START, es, r.job.jobId, true)
    requires Step(Run(START, es), Tick(probes, now)).rows[k].job.status == Completed
    ensures var r, t := Run(START, es).rows[k], Step(Run(START, es), Tick(probes, now)).rows[k];
      t.job.kept == r.job.kept && Checked(r)
  {
    var r := Run(START, es).rows[k];
    EveryMoveOfEveryRun(es, probes, now, k);
    TickOfRun(es, probes, now, k);
    assert r.job.status == Moving;
    MovingIsChecked(es, k);
  }

  /** And after a commit to a `Moving` job, a tick without stats that moves its files moves one that the record
      does not show complete if and only if the commit, or the job when that named none, has one. */
  lemma FailedStatsMovesUnfetchedIff(r: Runtime, files: seq<KeptFile>, hash: Option<string>, handle: nat,
                                     p: Probe, now: nat)
    requires RowOk(r) && r.job.status == Moving && p.alive && p.stats.None? && MoveGoes(r, p, now)
    ensures var t := PollRow(Recommit(r, files, hash, handle), p, now).row;
      && t.job.status == Completed && t.job.kept == (if files == [] then r.job.kept else files)
      && (Checked(t) <==> if files == [] then Checked(r) else forall i :: 0 <= i < |files| ==> Has(r, files[i]))
  {
    var c := Recommit(r, files, hash, handle);
    var t := PollRow(c, p, now).row;
    assert c.job.status == Moving && c.engine == r.engine && c.moveDeferSince == r.moveDeferSince;
    assert t.job.fileProgress == r.job.fileProgress;
    if files != [] {
      assert forall i :: 0 <= i < |files| ==> (Has(t, t.job.kept[i]) <==> Has(r, files[i]));
    }
    forall f: KeptFile ensures Has(t, f) <==> Has(r, f) {
    }
  }
}
