/** What the stats ticks of any run decide: deadlines of queued requests, and the final move. */
module DlRunTicks {
  import opened Common
  import opened DlJobs
  import opened DlRows
  import opened DlSteps
  import opened DlInvariants
  import opened DlFiles
  import opened DlTicks
  import opened DlRuns

  /** The responses of the rows' own passes, row by row. */
  function SaidByRows(rows: seq<Runtime>, probes: string -> Probe, now: nat): seq<Response> {
    if rows == [] then []
    else
      var last := rows[|rows| - 1];
      SaidByRows(rows[..|rows| - 1], probes, now) + PollRow(last, probes(last.job.jobId), now).said
  }

  lemma Assoc(a: seq<Response>, b: seq<Response>, c: seq<Response>)
    ensures a + (b + c) == (a + b) + c
  {
  }

  lemma SaidByOneMore(rows: seq<Runtime>, n: nat, probes: string -> Probe, now: nat)
    requires n < |rows|
    ensures SaidByRows(rows[..n + 1], probes, now)
         == SaidByRows(rows[..n], probes, now) + PollRow(rows[n], probes(rows[n].job.jobId), now).said
  {
    assert rows[..n + 1][..n] == rows[..n];
  }

  lemma NextSays(s: State, n: nat, probes: string -> Probe, now: nat)
    requires n < |s.rows|
    ensures PollUpTo(s, n + 1, probes, now).said
         == PollUpTo(s, n, probes, now).said + PollRow(s.rows[n], probes(s.rows[n].job.jobId), now).said
  {
    NextPoll(s, n, probes, now);
  }

  lemma NextTickSays(s: State, n: nat, probes: string -> Probe, now: nat)
    requires n < |s.rows|
    requires PollUpTo(s, n, probes, now).said == s.said + SaidByRows(s.rows[..n], probes, now)
    ensures PollUpTo(s, n + 1, probes, now).said == s.said + SaidByRows(s.rows[..n + 1], probes, now)
  {
    NextSays(s, n, probes, now);
    SaidByOneMore(s.rows, n, probes, now);
    Assoc(s.said, SaidByRows(s.rows[..n], probes, now),
          PollRow(s.rows[n], probes(s.rows[n].job.jobId), now).said);
  }

  /** A tick writes the responses of its rows, in row order, and nothing else. */
  lemma {:induction false} TickSays(s: State, n: nat, probes: string -> Probe, now: nat)
    requires n <= |s.rows|
    ensures PollUpTo(s, n, probes, now).said == s.said + SaidByRows(s.rows[..n], probes, now)
  {
    if n == 0 {
      assert s.said + [] == s.said;
    } else {
      TickSays(s, n - 1, probes, now);
      NextTickSays(s, n - 1, probes, now);
    }
  }

  lemma {:induction false} SaidByRow(rows: seq<Runtime>, probes: string -> Probe, now: nat, k: nat, x: Response)
    requires k < |rows| && x in PollRow(rows[k], probes(rows[k].job.jobId), now).said
    ensures x in SaidByRows(rows, probes, now)
  {
    if k < |rows| - 1 {
      SaidByRow(rows[..|rows| - 1], probes, now, k, x);
    }
  }

  /** A tick of a run: the row before, what the tick found, the row after. */
  lemma TickOfRun(es: seq<Event>, probes: string -> Probe, now: nat, k: nat)
    requires FreshRun(START, es) && k < |Run(START, es).rows|
    ensures var s := Run(START, es);
      var t := Step(s, Tick(probes, now));
      && RowOk(s.rows[k]) && |t.rows| == |s.rows|
      && t.rows[k] == PollRow(s.rows[k], probes(s.rows[k].job.jobId), now).row
      && forall x :: x in PollRow(s.rows[k], probes(s.rows[k].job.jobId), now).said ==> x in t.said
  {
    var s := Run(START, es);
    RunSound(START, es);
    PolledRow(s, |s.rows|, probes, now, k);
    TickSays(s, |s.rows|, probes, now);
    assert s.rows[..|s.rows|] == s.rows;
    forall x | x in PollRow(s.rows[k], probes(s.rows[k].job.jobId), now).said
      ensures x in Step(s, Tick(probes, now)).said
    {
      SaidByRow(s.rows, probes, now, k, x);
    }
  }

  /** After any run, a tick with stats that finds requests queued behind an engine answers or refuses all of
      them if the torrent serves them or 60 s have passed since an anchor, and else keeps them all; and behind a
      settled engine there is an anchor. */
  lemma EveryRequestHasADeadline(es: seq<Event>, probes: string -> Probe, now: nat, k: nat)
    requires FreshRun(START, es) && k < |Run(START, es).rows|
    requires var r := Run(START, es).rows[k];
      r.engine.Some? && r.pending != [] && probes(r.job.jobId).alive && probes(r.job.jobId).stats.Some?
    ensures var r, t := Run(START, es).rows[k], Step(Run(START, es), Tick(probes, now));
      && r.details.Some? && (EngineReady(r) ==> r.pendingSince.Some?)
      && if ServesAll(r, probes(r.job.jobId).stats.value) then
           t.rows[k].pending == []
           && forall i :: 0 <= i < |r.pending| ==> exists x :: x in t.said && Answers(r, r.pending[i], x)
         else if Overdue(r, now) then
           t.rows[k].pending == []
           && forall i :: 0 <= i < |r.pending| ==> Refusal(r.pending[i].requestId, NotReadyInTime) in t.said
         else t.rows[k].pending == r.pending && t.rows[k].pendingSince == r.pendingSince
  {
    var r := Run(START, es).rows[k];
    var p := probes(r.job.jobId);
    TickOfRun(es, probes, now, k);
    TickDecides(r, p, now);
    var said := PollRow(r, p, now).said;
    assert forall i :: 0 <= i < |said| ==> said[i] in said;
  }

  /** After any run, a tick completes a job exactly when its engine runs, the download counts as complete and
      the move goes; with stats that means every kept file complete in them, and under a live stream six hours
      since the recorded completion. Requests are left behind exactly when the torrent is not live. */
  lemma EveryMoveOfEveryRun(es: seq<Event>, probes: string -> Probe, now: nat, k: nat)
    requires FreshRun(START, es) && k < |Run(START, es).rows|
    requires Run(START, es).rows[k].job.status != Completed
    ensures var r, t := Run(START, es).rows[k], Step(Run(START, es), Tick(probes, now)).rows[k];
      var p := probes(r.job.jobId);
      && (t.job.status == Completed <==> r.engine.Some? && p.alive && TakenAsComplete(r, p) && MoveGoes(r, p, now))
      && (t.job.status == Completed && t.pending != [] <==> Strands(r, p, now))
      && (t.job.status == Completed && p.stats.Some? ==>
            && (forall i :: 0 <= i < |r.job.kept| ==>
                  Fetched(p.stats.value, r.job.kept[i]))
            && (p.deferred ==> HeldLong(r, now)))
  {
    var r := Run(START, es).rows[k];
    var p := probes(r.job.jobId);
    TickOfRun(es, probes, now, k);
    CompletesIff(r, p, now);
    StrandedIff(r, p, now);
  }
}
