/** What one stats tick decides for a job: its queued requests and its final move. */
module DlTicks {
  import opened Common
  import opened DlJobs
  import opened DlRows
  import opened DlSteps
  import opened DlInvariants
  import opened DlFiles

  // ---- queued requests have a deadline ----------------------------------------------------

  /** An anchor is on the row, 60 s old or more. */
  predicate Overdue(r: Runtime, now: nat) {
    r.pendingSince.Some? && now >= r.pendingSince.value + 60_000
  }

  lemma TickGates(r: Runtime, p: Probe, now: nat)
    requires RowOk(r) && r.engine.Some? && r.pending != [] && p.alive && p.stats.Some?
    ensures var o := PollRow(r, p, now);
      if AllReady(r, p.stats.value) then
        o.row.pending == [] && o.row.pendingSince.None? && o.said == AnswerAll(r, r.pending)
      else if Overdue(r, now) then
        o.row.pending == [] && o.row.pendingSince.None? && o.said == RefuseAll(r.pending, NotReadyInTime)
      else o.row.pending == r.pending && o.row.pendingSince == r.pendingSince && o.said == []
  {
    var answered := AnswerQueued(r, p.stats.value, now).row;
    QueueStays(answered, p.stats.value, p, now);
    var told := TakeTick(r, p, now).row;
    assert told == TakeStats(answered, p.stats.value, now);
  }

  /** The download half of a tick leaves the queue and its anchor alone. */
  lemma QueueStays(r: Runtime, st: Stats, p: Probe, now: nat)
    ensures var t := TakeStats(r, st, now); var u := TryMove(t, p, now).row;
      t.pending == r.pending == u.pending && t.pendingSince == r.pendingSince == u.pendingSince
  {
  }

  /** Every request of the queue is refused for this reason, and nothing else is said. */
  ghost predicate AllRefused(ps: seq<Pending>, why: Reason, said: seq<Response>) {
    |said| == |ps| && forall k :: 0 <= k < |ps| ==> said[k] == Refusal(ps[k].requestId, why)
  }

  ghost predicate AllAnswered(r: Runtime, said: seq<Response>)
    requires r.details.Some?
  {
    |said| == |r.pending| && forall k :: 0 <= k < |said| ==> Answers(r, r.pending[k], said[k])
  }

  /** A tick with stats answers all requests queued behind an engine, also one that is being replaced, each with
      its files, if the engine serves every one of them; else it refuses them all if the row's anchor is 60 s
      old; else it keeps them all. */
  lemma TickDecides(r: Runtime, p: Probe, now: nat)
    requires RowOk(r) && r.engine.Some? && r.pending != [] && p.alive && p.stats.Some?
    ensures var o := PollRow(r, p, now);
      if ServesAll(r, p.stats.value) then
        o.row.pending == [] && o.row.pendingSince.None? && AllAnswered(r, o.said)
      else if Overdue(r, now) then
        o.row.pending == [] && o.row.pendingSince.None? && AllRefused(r.pending, NotReadyInTime, o.said)
      else o.row.pending == r.pending && o.row.pendingSince == r.pendingSince && o.said == []
  {
    ReadyIff(r, p.stats.value);
    TickGates(r, p, now);
    forall k | 0 <= k < |r.pending| ensures Answers(r, r.pending[k], Respond(r, r.pending[k])) {
      RespondAnswers(r, r.pending[k]);
    }
  }

  /** A row after a series of ticks. */
  function Ticks(r: Runtime, ps: seq<Probe>, at: nat -> nat): Runtime {
    if ps == [] then r
    else PollRow(Ticks(r, ps[..|ps| - 1], at), ps[|ps| - 1], at(|ps| - 1)).row
  }

  lemma TickKeepsSettled(r: Runtime, p: Probe, now: nat)
    requires EngineReady(r)
    ensures PollRow(r, p, now).row.add.None?
  {
  }

  /** Whatever ticks come, once a tick with stats is past the deadline nothing waits any more,
      unless the download was moved away under the waiting requests. */
  lemma {:induction false} NothingWaitsPastDeadline(r: Runtime, ps: seq<Probe>, at: nat -> nat)
    requires RowOk(r) && EngineReady(r) && r.pending != [] && ps != []
    requires forall i :: 0 <= i < |ps| ==> ps[i].alive && ps[i].stats.Some?
    ensures var t := Ticks(r, ps, at);
      && RowOk(t) && t.add.None?
      && (t.pending == [] || (t.pending == r.pending && t.pendingSince == r.pendingSince))
      && (t.pending != [] && t.engine.Some? ==> !Overdue(r, at(|ps| - 1)))
  {
    var before := Ticks(r, ps[..|ps| - 1], at);
    var p := ps[|ps| - 1];
    if |ps| > 1 {
      NothingWaitsPastDeadline(r, ps[..|ps| - 1], at);
    }
    PollRowOk(before, p, at(|ps| - 1));
    if before.engine.Some? {
      TickKeepsSettled(before, p, at(|ps| - 1));
      if before.pending != [] {
        TickGates(before, p, at(|ps| - 1));
      } else {
        TickQueuesNothing(before, p, at(|ps| - 1));
      }
    }
  }

  lemma TickQueuesNothing(r: Runtime, p: Probe, now: nat)
    requires r.pending == []
    ensures PollRow(r, p, now).row.pending == []
  {
  }

  /** A tick with stats refuses what waits behind an engine exactly when the torrent does not serve it and an
      anchor 60 s old is on the row. */
  lemma RefusesIff(r: Runtime, p: Probe, now: nat)
    requires RowOk(r) && r.engine.Some? && r.pending != [] && p.alive && p.stats.Some?
    ensures AllRefused(r.pending, NotReadyInTime, PollRow(r, p, now).said)
       <==> !ServesAll(r, p.stats.value) && Overdue(r, now)
  {
    TickDecides(r, p, now);
    var said := PollRow(r, p, now).said;
    if ServesAll(r, p.stats.value) {
      assert Answers(r, r.pending[0], said[0]);
    }
  }

  /** Inside 60 s of the add that settled a row, its requests are refused if and only if the torrent does not
      serve them and an anchor was left on the row before, 60 s ago or more. */
  lemma SettledRefusedIff(r: Runtime, o: AddOutcome, t0: nat, p: Probe, now: nat)
    requires RowOk(r) && o.Ready? && r.pending != [] && (r.job.kept != [] || PickedFile(Some(o.details)) != [])
    requires p.alive && p.stats.Some? && now < t0 + 60_000
    ensures var settled := AddSettles(r, o, t0).row;
      && settled.details == Some(o.details)
      && (AllRefused(r.pending, NotReadyInTime, PollRow(settled, p, now).said)
          <==> !ServesAll(settled, p.stats.value) && Overdue(r, now))
  {
    AddOk(r, o, t0);
    RefusesIff(AddSettles(r, o, t0).row, p, now);
  }

  /** The same for a stream request that has to wait: for a torrent that is not live, or, with the old engine
      still polled, for the add that replaces it. */
  lemma StreamRefusedIff(r: Runtime, q: Pending, live: bool, t0: nat, p: Probe, now: nat)
    requires RowOk(r) && r.engine.Some? && (r.job.status.Active() || r.add.Some?) && !(EngineReady(r) && live)
    requires p.alive && p.stats.Some? && now < t0 + 60_000
    ensures var queued := StreamRow(r, q, live, t0).row;
      && queued.pending == r.pending + [q] && queued.details == r.details
      && (AllRefused(queued.pending, NotReadyInTime, PollRow(queued, p, now).said)
          <==> !ServesAll(queued, p.stats.value) && Overdue(r, now))
  {
    StreamRowOk(r, q, live, t0);
    RefusesIff(StreamRow(r, q, live, t0).row, p, now);
  }

  /** And for a play that has to wait for the add that replaces the engine, which sets no anchor of its own:
      however young, it is refused if and only if an old one is there. */
  lemma PlayRefusedIff(r: Runtime, id: string, files: seq<KeptFile>, hash: Option<string>, handle: nat,
                       p: Probe, now: nat)
    requires RowOk(r) && r.engine.Some? && (r.add.Some? || !r.job.status.Active()) && p.alive && p.stats.Some?
    ensures var queued := MergeEnqueue(r, id, files, true, hash, handle).row;
      && |queued.pending| == |r.pending| + 1 && queued.pending[|r.pending|].requestId == id
      && queued.add.Some? && queued.engine == r.engine && queued.details == r.details
      && (AllRefused(queued.pending, NotReadyInTime, PollRow(queued, p, now).said)
          <==> !ServesAll(queued, p.stats.value) && Overdue(r, now))
  {
    CommitOk(r, id, files, true, hash, handle);
    RefusesIff(MergeEnqueue(r, id, files, true, hash, handle).row, p, now);
  }

  /** The anchor outlives the requests it was set for: when an engine dies under waiting requests, the next
      play of the revived job is refused by its first tick, however young it is, if and only if those requests
      began to wait 60 s ago or more. */
  lemma StaleAnchorRefusesAtOnce(r: Runtime, dead: Probe, t0: nat, id: string, handle: nat, o: AddOutcome,
                                 p: Probe, now: nat)
    requires RowOk(r) && EngineReady(r) && r.pending != [] && !dead.alive && r.job.kept != []
    requires o.Ready? && p.alive && p.stats.Some? && !p.stats.value.live
    ensures var failed := PollRow(r, dead, t0).row;
      var revived := MergeEnqueue(failed, id, [], true, None, handle).row;
      var settled := AddSettles(revived, o, now).row;
      PollRow(settled, p, now).said
      == if Overdue(r, now) then [Refusal(id, NotReadyInTime)] else []
  {
    var failed := PollRow(r, dead, t0).row;
    var revived := MergeEnqueue(failed, id, [], true, None, handle).row;
    assert failed.pending == [] && failed.pendingSince == r.pendingSince && failed.engine.None?;
    assert revived.pending == [Pending(id, EnqueuePlay, PlayPicks(revived))];
    PlayWaits(revived, o, p, now);
  }

  /** The one play waiting for an add that delivers a torrent which is not live yet. */
  lemma PlayWaits(r: Runtime, o: AddOutcome, p: Probe, now: nat)
    requires |r.pending| == 1 && r.pending[0].kind.EnqueuePlay? && r.pendingSince.Some? && r.job.kept != []
    requires o.Ready? && p.alive && p.stats.Some? && !p.stats.value.live
    ensures PollRow(AddSettles(r, o, now).row, p, now).said
         == if Overdue(r, now) then [Refusal(r.pending[0].requestId, NotReadyInTime)] else []
  {
    var settled := AddSettles(r, o, now).row;
    assert settled.pending == r.pending && !PendingReady(settled, r.pending[0], p.stats.value);
    assert r.pending[..0] == [];
  }

  // ---- the final move ---------------------------------------------------------------------

  /** The download was recorded as complete six hours ago or more. */
  predicate HeldLong(r: Runtime, now: nat) {
    r.moveDeferSince.Some? && now >= r.moveDeferSince.value + 6 * 3_600_000
  }

  /** The move itself is possible and not held for a stream. */
  predicate MoveGoes(r: Runtime, p: Probe, now: nat) {
    (p.deferred ==> HeldLong(r, now)) && p.downloadsDir.Some? && p.cacheDirKnown && p.moveError.None?
  }

  predicate Fetched(st: Stats, f: KeptFile) {
    f.length == 0 || (f.index < |st.fileProgress| && st.fileProgress[f.index] >= f.length)
  }

  /** The stats say that the torrent is complete, and every kept file. */
  predicate AllFetched(st: Stats, kept: seq<KeptFile>) {
    st.finished && forall i :: 0 <= i < |kept| ==> Fetched(st, kept[i])
  }

  /** The tick takes the download as complete: by these stats, or, without stats, by an older
      tick's verdict. */
  predicate TakenAsComplete(r: Runtime, p: Probe) {
    if p.stats.Some? then AllFetched(p.stats.value, r.job.kept) else r.job.status == Moving
  }

  lemma TakenTick(r: Runtime, p: Probe, now: nat)
    requires RowOk(r) && r.engine.Some?
    ensures var t := TakeTick(r, p, now).row;
      && t.engine == r.engine && t.job.kept == r.job.kept
      && (t.job.status == Moving <==> TakenAsComplete(r, p))
      && t.job.status != Completed
      && (TakenAsComplete(r, p) ==>
            t.moveDeferSince == if r.moveDeferSince.None? && p.stats.Some? then Some(now) else r.moveDeferSince)
  {
    if p.stats.Some? {
      assert FilesDownloaded(p.stats.value, r.job.kept) == AllFetched(p.stats.value, r.job.kept);
    }
  }

  /** Exactly when a tick completes a job. */
  lemma CompletesIff(r: Runtime, p: Probe, now: nat)
    requires RowOk(r)
    ensures r.job.status != Completed && PollRow(r, p, now).row.job.status == Completed
       <==> r.engine.Some? && p.alive && TakenAsComplete(r, p) && MoveGoes(r, p, now)
  {
    if r.engine.Some? {
      TakenTick(r, p, now);
    }
  }

  /** A tick with stats never moves an incomplete file, nor takes one from a live stream inside
      six hours of the recorded completion. */
  lemma MoveSafety(r: Runtime, p: Probe, now: nat, i: nat)
    requires RowOk(r) && r.job.status != Completed && p.stats.Some? && i < |r.job.kept|
    requires PollRow(r, p, now).row.job.status == Completed
    ensures Fetched(p.stats.value, r.job.kept[i])
    ensures p.deferred ==> HeldLong(r, now)
    ensures PollRow(r, p, now).row.job.kept == r.job.kept
  {
    CompletesIff(r, p, now);
    TakenTick(r, p, now);
  }

  /** Under a live stream a complete download is moved if and only if an anchor is on the row when the tick
      comes, and it is six hours old: the completion of an earlier life counts. */
  lemma MovesUnderStreamIff(r: Runtime, p: Probe, now: nat)
    requires RowOk(r) && r.job.status != Completed && r.engine.Some? && p.alive && TakenAsComplete(r, p)
    requires p.deferred && p.downloadsDir.Some? && p.cacheDirKnown && p.moveError.None?
    ensures PollRow(r, p, now).row.job.status == Completed
       <==> HeldLong(r, now)
  {
    CompletesIff(r, p, now);
  }

  /** The anchor survives a revive: a job downloaded again is moved from under a live stream by the first tick
      that finds it complete if and only if the completion of its earlier life is six hours old. */
  lemma StaleAnchorMovesUnderStream(r: Runtime, id: string, handle: nat, o: AddOutcome, p: Probe, now: nat)
    requires RowOk(r) && r.job.status == Completed && r.job.kept != [] && r.pending == []
    requires o.Ready? && p.alive && p.deferred && p.stats.Some? && AllFetched(p.stats.value, r.job.kept)
    requires p.downloadsDir.Some? && p.cacheDirKnown && p.moveError.None?
    ensures var settled := AddSettles(MergeEnqueue(r, id, [], false, None, handle).row, o, now).row;
      && settled.job.status == Downloading
      && (PollRow(settled, p, now).row.job.status == Completed
          <==> HeldLong(r, now))
  {
  }

  // ---- stranded requests ------------------------------------------------------------------

  /** Without a live torrent a complete download can be moved with requests still queued. */
  predicate Strands(r: Runtime, p: Probe, now: nat) {
    && r.pending != [] && r.engine.Some? && p.alive && TakenAsComplete(r, p) && MoveGoes(r, p, now)
    && (p.stats.Some? ==>
          !p.stats.value.live && !Overdue(r, now))
  }

  lemma StrandedIff(r: Runtime, p: Probe, now: nat)
    requires RowOk(r) && r.job.status != Completed
    ensures PollRow(r, p, now).row.job.status == Completed && PollRow(r, p, now).row.pending != []
       <==> Strands(r, p, now)
  {
    CompletesIff(r, p, now);
    if r.engine.Some? && p.alive && p.stats.Some? && r.pending != [] {
      var st := p.stats.value;
      assert TakeTick(r, p, now).row.pending == AnswerQueued(r, st, now).row.pending;
      assert !st.live ==> !PendingReady(r, r.pending[0], st);
    }
  }

  /** A stranded request keeps the daemon running for good: no tick answers it. */
  lemma {:induction false} StrandedWaitsForever(r: Runtime, ps: seq<Probe>, at: nat -> nat)
    requires r.job.status == Completed && RowOk(r)
    ensures Ticks(r, ps, at) == r
  {
    if ps != [] {
      StrandedWaitsForever(r, ps[..|ps| - 1], at);
    }
  }

  // ---- engines being replaced -------------------------------------------------------------

  /** The row has a file to answer the request with. */
  ghost predicate Answerable(r: Runtime, p: Pending)
    requires r.details.Some?
  {
    var files := r.details.value.files;
    match p.kind
    case EnqueuePlay => r.job.kept != []
    case Stream(indices) =>
      if indices == [] then exists i :: 0 <= i < |files| && files[i].media != OtherMedia
      else exists i :: 0 <= i < |indices| && indices[i] < |files|
  }

  lemma PickedIff(files: seq<TorrentFile>)
    ensures PickPlayable(files).Some? <==> exists i :: 0 <= i < |files| && files[i].media != OtherMedia
  {
    if PickPlayable(files).Some? {
      BestIsPicked(files);
      assert Best(files, PickPlayable(files).value);
    } else {
      LongestNone(files, Video);
      LongestNone(files, Audio);
    }
  }

  lemma PlaysIff(r: Runtime, p: Pending)
    requires r.engine.Some? && r.job.torrentId.Some? && r.details.Some?
    ensures Respond(r, p).Play? <==> Answerable(r, p)
  {
    if p.kind.Stream? {
      var files, indices := r.details.value.files, p.kind.indices;
      PickedIff(files);
      if i :| 0 <= i < |indices| && indices[i] < |files| {
        KnownIs(files, indices, Keep(files, indices[i]));
      }
      if Known(files, indices) != [] {
        KnownIs(files, indices, Known(files, indices)[0]);
      }
    }
  }

  /** The source's rule that no response is built from an engine whose replacement is in flight is
      broken by the tick, and exactly when the old engine serves every queued request. */
  lemma OldEngineAnswersIff(r: Runtime, p: Probe, now: nat)
    requires RowOk(r) && r.engine.Some? && r.add.Some?
    ensures var said := PollRow(r, p, now).said;
      (exists k :: 0 <= k < |said| && said[k].Play? && said[k].engine == r.engine.value)
      <==> p.alive && p.stats.Some? && ServesAll(r, p.stats.value)
           && exists k :: 0 <= k < |r.pending| && Answerable(r, r.pending[k])
  {
    if p.stats.Some? {
      ReadyIff(r, p.stats.value);
    }
    forall k | 0 <= k < |r.pending| ensures Respond(r, r.pending[k]).Play? <==> Answerable(r, r.pending[k]) {
      PlaysIff(r, r.pending[k]);
    }
  }
}
