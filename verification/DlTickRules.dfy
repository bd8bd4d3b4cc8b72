/** What a tick makes of a job's download, field by field. */
module DlTickRules {
  import opened Common
  import opened DlJobs
  import opened DlRows
  import opened DlInvariants
  import opened DlFiles
  import opened DlTicks

  /** What no tick touches: who the job is and what it keeps. */
  ghost predicate SameJob(r: Runtime, t: Runtime) {
    && t.job == r.job.(status := t.job.status, error := t.job.error, fileProgress := t.job.fileProgress,
                       doneAt := t.job.doneAt, movedTo := t.job.movedTo)
  }

  /** Status, error, engine and add of `t`; completion facts as they were. */
  ghost predicate Is(r: Runtime, t: Runtime, status: Status, error: Option<Reason>) {
    && t.job.status == status && t.job.error == error && t.job.doneAt == r.job.doneAt && t.job.movedTo == r.job.movedTo
    && t.engine == r.engine && t.details == r.details && t.add == r.add
  }

  ghost predicate FailsBy(r: Runtime, t: Runtime, why: Reason) { Is(r, t, Failed, Some(why)) }

  /** The anchor of the hold after a tick: set by the first stats that show the download complete, forgotten when
      a complete download turns out not to be, and else kept. */
  ghost predicate AnchorAfter(r: Runtime, t: Runtime, p: Probe, now: nat) {
    t.moveDeferSince ==
      if TakenAsComplete(r, p) then
        if r.moveDeferSince.None? && p.stats.Some? then Some(now) else r.moveDeferSince
      else if p.stats.Some? && r.job.status == Moving then None
      else r.moveDeferSince
  }

  /** A complete download is held for a stream up to six hours, fails for the first thing the move lacks, or is
      moved and gives its engine up; an incomplete one goes on, and is no longer `Moving`. */
  lemma TickEnds(r: Runtime, p: Probe, now: nat)
    requires RowOk(r) && r.engine.Some? && p.alive
    ensures var t := PollRow(r, p, now).row;
      && SameJob(r, t) && AnchorAfter(r, t, p, now)
      && (p.stats.Some? ==> t.job.fileProgress == p.stats.value.fileProgress)
      && (p.stats.None? ==> t.job.fileProgress == r.job.fileProgress)
      && if !TakenAsComplete(r, p) then
           Is(r, t, if p.stats.Some? && r.job.status == Moving then Downloading else r.job.status, r.job.error)
         else if p.deferred && !HeldLong(r, now) then Is(r, t, Moving, r.job.error)
         else if p.downloadsDir.None? then FailsBy(r, t, NoDownloadsDir)
         else if !p.cacheDirKnown then FailsBy(r, t, EngineGoneBeforeMove)
         else if p.moveError.Some? then FailsBy(r, t, MoveFailed(p.moveError.value))
         else
           && t.job.status == Completed && t.job.error == r.job.error
           && t.job.doneAt == Some(p.wallClock) && t.job.movedTo == p.downloadsDir
           && t.engine.None? && t.details.None? && t.add.None?
  {
    TickTakes(r, p, now);
    MoveEnds(TakeTick(r, p, now).row, p, now);
  }

  lemma TickTakes(r: Runtime, p: Probe, now: nat)
    requires RowOk(r) && r.engine.Some?
    ensures var t := TakeTick(r, p, now).row;
      && SameJob(r, t) && AnchorAfter(r, t, p, now)
      && t.job.fileProgress == (if p.stats.Some? then p.stats.value.fileProgress else r.job.fileProgress)
      && Is(r, t, if TakenAsComplete(r, p) then Moving
                  else if p.stats.Some? && r.job.status == Moving then Downloading
                  else r.job.status, r.job.error)
  {
    TakenTick(r, p, now);
    if p.stats.Some? {
      AnswerQueuedOk(r, p.stats.value, now);
    }
  }

  lemma MoveEnds(r: Runtime, p: Probe, now: nat)
    requires r.engine.Some?
    ensures var t := TryMove(r, p, now).row;
      && SameJob(r, t) && t.moveDeferSince == r.moveDeferSince && t.job.fileProgress == r.job.fileProgress
      && if p.deferred && !HeldLong(r, now) then t == r
         else if p.downloadsDir.None? then FailsBy(r, t, NoDownloadsDir)
         else if !p.cacheDirKnown then FailsBy(r, t, EngineGoneBeforeMove)
         else if p.moveError.Some? then FailsBy(r, t, MoveFailed(p.moveError.value))
         else
           && t.job.status == Completed && t.job.error == r.job.error
           && t.job.doneAt == Some(p.wallClock) && t.job.movedTo == p.downloadsDir
           && t.engine.None? && t.details.None? && t.add.None?
  {
  }

  /** When a download that was complete turns out not to be, its hold starts anew: the next completion is held
      for a stream however long ago the first one was. */
  lemma HoldStartsAnew(r: Runtime, p: Probe, t0: nat, q: Probe, now: nat)
    requires RowOk(r) && r.job.status == Moving && p.alive && p.stats.Some? && !AllFetched(p.stats.value, r.job.kept)
    requires q.alive && q.deferred && q.stats.Some? && AllFetched(q.stats.value, r.job.kept)
    ensures var t := PollRow(PollRow(r, p, t0).row, q, now).row;
      t.job.status == Moving && t.engine == r.engine && t.moveDeferSince == Some(now)
  {
    TickEnds(r, p, t0);
    PollRowOk(r, p, t0);
    TickEnds(PollRow(r, p, t0).row, q, now);
  }

  /** The engine is told to fetch the files the job keeps. */
  lemma TickSelects(r: Runtime, p: Probe, now: nat)
    requires RowOk(r) && r.engine.Some? && p.alive
    ensures var t := PollRow(r, p, now).row;
      if p.stats.Some? && r.job.kept != [] then
        && t.appliedSelection.Some? && |t.appliedSelection.value| == |r.job.kept|
        && forall i :: 0 <= i < |r.job.kept| ==> t.appliedSelection.value[i] == r.job.kept[i].index
      else t.appliedSelection == r.appliedSelection
  {
    TakesSelection(r, p, now);
    var told := TakeTick(r, p, now).row;
    assert TryMove(told, p, now).row.appliedSelection == told.appliedSelection;
  }

  lemma TakesSelection(r: Runtime, p: Probe, now: nat)
    ensures TakeTick(r, p, now).row.appliedSelection
         == if p.stats.Some? && r.job.kept != [] then Some(Indices(r.job.kept)) else r.appliedSelection
  {
    if p.stats.Some? {
      assert AnswerQueued(r, p.stats.value, now).row.job == r.job;
    }
  }

  /** A job whose engine exited fails with all its requests refused; a job without an engine is not visited. */
  lemma DeadEngineFails(r: Runtime, p: Probe, now: nat)
    requires r.engine.Some? ==> !p.alive
    ensures var o := PollRow(r, p, now);
      if r.engine.None? then o.row == r && o.said == []
      else
        && AllRefused(r.pending, EngineExited, o.said)
        && o.row.job == r.job.(status := Failed, error := Some(EngineExited))
        && o.row == r.(job := o.row.job, engine := None, pending := [])
  {
  }
}
