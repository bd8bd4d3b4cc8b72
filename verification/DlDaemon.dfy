/** The daemon itself: it updates its runtimes in place, and every method is one step of the
    state machine in `DlSteps` (src/core/dlctl.rs, `impl Daemon`). */
module DlDaemon {
  import opened Common
  import opened DlJobs
  import opened DlRows
  import opened DlSteps
  import opened DlInvariants

  class Daemon {
    var runtimes: seq<Runtime>
    var dirty: bool
    /** Response files and the state file, as written. */
    var responses: seq<Response>
    var stateFile: seq<Job>
    /** Names the channels of the next add thread; reserved whether or not one is started. */
    var nextHandle: nat
    ghost var cancelled: set<nat>
    ghost var asked: seq<string>
    ghost var dropped: seq<string>
    ghost var lost: seq<string>

    ghost function View(): State
      reads this
    {
      State(runtimes, responses, asked, dropped, lost, nextHandle, cancelled, dirty, stateFile)
    }

    ghost predicate Valid()
      reads this
    {
      Sound(View())
    }

    /** `Daemon::new` with `adopt_existing_jobs` over what a previous daemon left in the file. */
    constructor (file: seq<Job>)
      requires UniqueIds(file)
      ensures Valid()
      ensures View() == Restart(START.(disk := file, dirty := true))
    {
      runtimes := [];
      responses, stateFile := [], file;
      nextHandle, dirty := 0, true;
      cancelled, asked, dropped, lost := {}, [], [], [];
      new;
      ghost var from := START.(disk := file, dirty := true);
      for n := 0 to |file|
        invariant runtimes == Restart(from).rows[..n]
        invariant View() == from.(rows := runtimes, next := n)
      {
        var job := file[n];
        var handle := ReserveHandle();
        if job.status.Active() {
          runtimes := runtimes + [NewRow(job.(status := Queued, error := None))];
          StartAdd(|runtimes| - 1, handle);
        } else {
          runtimes := runtimes + [NewRow(job)];
        }
      }
      dirty := true;
      RestartSound(from);
    }

    method ReserveHandle() returns (handle: nat)
      modifies this`nextHandle
      ensures handle == old(nextHandle) && nextHandle == handle + 1
    {
      handle := nextHandle;
      nextHandle := nextHandle + 1;
    }

    /** Spawns the add thread of row `idx`. */
    method StartAdd(idx: nat, handle: nat)
      requires idx < |runtimes|
      modifies this`runtimes
      ensures runtimes == old(runtimes)[idx := DlRows.StartAdd(old(runtimes)[idx], handle)]
    {
      var runtime := runtimes[idx];
      runtimes := runtimes[idx := runtime.(add := Some(handle), job := runtime.job.(status := Adding))];
    }

    // ---- responses ------------------------------------------------------------------------

    method RespondError(requestId: string, why: Reason)
      modifies this`responses
      ensures responses == old(responses) + [Refusal(requestId, why)]
    {
      responses := responses + [Refusal(requestId, why)];
    }

    method Respond(idx: nat, pending: Pending)
      requires idx < |runtimes|
      modifies this`responses
      ensures responses == old(responses) + [DlRows.Respond(runtimes[idx], pending)]
    {
      responses := responses + [DlRows.Respond(runtimes[idx], pending)];
    }

    /** Clears the queue of row `idx` and answers every request in it with an error. */
    method RefuseQueued(idx: nat, why: Reason)
      requires idx < |runtimes|
      modifies this`runtimes, this`responses
      ensures runtimes == old(runtimes)[idx := old(runtimes)[idx].(pending := [])]
      ensures responses == old(responses) + RefuseAll(old(runtimes)[idx].pending, why)
    {
      var pending := runtimes[idx].pending;
      runtimes := runtimes[idx := runtimes[idx].(pending := [])];
      for n := 0 to |pending|
        invariant runtimes == old(runtimes)[idx := old(runtimes)[idx].(pending := [])]
        invariant responses == old(responses) + RefuseAll(pending[..n], why)
      {
        RespondError(pending[n].requestId, why);
        assert pending[..n + 1][..n] == pending[..n];
      }
      assert pending[..|pending|] == pending;
    }

    /** Answers every queued request of row `idx` and forgets the wait anchor. */
    method AnswerPending(idx: nat)
      requires idx < |runtimes|
      modifies this`runtimes, this`responses
      ensures runtimes == old(runtimes)[idx := old(runtimes)[idx].(pending := [], pendingSince := None)]
      ensures responses == old(responses) + AnswerAll(old(runtimes)[idx], old(runtimes)[idx].pending)
    {
      ghost var row := runtimes[idx];
      var pending := runtimes[idx].pending;
      runtimes := runtimes[idx := runtimes[idx].(pending := [], pendingSince := None)];
      for n := 0 to |pending|
        invariant runtimes == old(runtimes)[idx := row.(pending := [], pendingSince := None)]
        invariant responses == old(responses) + AnswerAll(row, pending[..n])
      {
        Respond(idx, pending[n]);
        AnswerOneMore(row, pending, n, old(responses));
      }
      assert pending[..|pending|] == pending;
    }

    // ---- spool requests -------------------------------------------------------------------

    /** `merge_enqueue`; `handle` is for the add thread a revive starts. */
    method MergeEnqueue(idx: nat, requestId: string, files: seq<KeptFile>, play: bool,
                        infohash: Option<string>, handle: nat)
      requires idx < |runtimes|
      modifies this`runtimes, this`responses, this`dirty
      ensures var o := DlRows.MergeEnqueue(old(runtimes)[idx], requestId, files, play, infohash, handle);
        runtimes == old(runtimes)[idx := o.row] && responses == old(responses) + o.said && dirty
    {
      if infohash.Some? {
        runtimes := runtimes[idx := runtimes[idx].(job := runtimes[idx].job.(infohash := infohash))];
      }
      if files != [] {
        runtimes := runtimes[idx := runtimes[idx].(job := runtimes[idx].job.(kept := files))];
      }
      if !runtimes[idx].job.status.Active() {
        runtimes := runtimes[idx := runtimes[idx].(job := runtimes[idx].job.(status := Queued, error := None))];
        StartAdd(idx, handle);
      }
      assert runtimes[idx] == Recommit(old(runtimes)[idx], files, infohash, handle);
      if play {
        var pending := Pending(requestId, EnqueuePlay, PlayPicks(runtimes[idx]));
        if EngineReady(runtimes[idx]) {
          Respond(idx, pending);
        } else {
          runtimes := runtimes[idx := runtimes[idx].(pending := runtimes[idx].pending + [pending])];
        }
      }
      dirty := true;
    }

    method RemoveRuntime(idx: nat)
      requires idx < |runtimes|
      modifies this`runtimes, this`dirty
      ensures runtimes == Without(old(runtimes), idx) && dirty
    {
      runtimes := runtimes[..idx] + runtimes[idx + 1..];
      dirty := true;
    }

    method StopJob(idx: nat)
      requires idx < |runtimes|
      modifies this
      ensures View() == DlSteps.StopJob(old(View()), idx)
    {
      if runtimes[idx].add.Some? {
        cancelled := cancelled + {runtimes[idx].add.value};
      }
      dropped := dropped + Ids(runtimes[idx].pending);
      RemoveRuntime(idx);
    }

    method HandleEnqueue(q: Request, jobId: string, now: nat)
      requires q.Enqueue?
      modifies this
      ensures View() == DlSteps.HandleRequest(old(View()), q, jobId, false, now)
    {
      dirty := true;
      asked := asked + if q.play then [q.id] else [];
      var hash := LowerHash(q.infohash);
      var found := FindExisting(runtimes, hash, Some(q.sourceKey));
      var handle := ReserveHandle();
      if found.Some? {
        MergeEnqueue(found.value, q.id, q.files, q.play, hash, handle);
        return;
      }
      var job := Job(jobId, q.id, hash, q.sourceKey, q.name, q.files, [], Queued, None, None, None, None);
      runtimes := runtimes + [NewRow(job)];
      var last := |runtimes| - 1;
      StartAdd(last, handle);
      if q.play {
        var pending := Pending(q.id, EnqueuePlay, PlayPicks(runtimes[last]));
        runtimes := runtimes[last := runtimes[last].(pending := runtimes[last].pending + [pending])];
      }
      assert runtimes[last] == Fresh(q, jobId, handle) && runtimes[..last] == old(runtimes);
      assert runtimes == runtimes[..last] + [runtimes[last]];
    }

    method HandleStream(q: Request, jobId: string, live: bool, now: nat)
      requires q.StreamFiles?
      modifies this
      ensures View() == DlSteps.HandleRequest(old(View()), q, jobId, live, now)
    {
      dirty := true;
      asked := asked + [q.id];
      var found := FindExisting(runtimes, LowerHash(q.infohash), Some(q.sourceKey));
      if found.None? {
        RespondError(q.id, NoActiveJob);
        return;
      }
      var idx := found.value;
      var pending := Pending(q.id, Stream(q.indices), []);
      ghost var o := StreamRow(runtimes[idx], pending, live, now);
      if EngineReady(runtimes[idx]) && runtimes[idx].job.torrentId.Some? && live {
        Respond(idx, pending);
      } else if runtimes[idx].job.status.Active() || runtimes[idx].add.Some? {
        runtimes := runtimes[idx := runtimes[idx].(pending := runtimes[idx].pending + [pending])];
        if runtimes[idx].pendingSince.None? {
          runtimes := runtimes[idx := runtimes[idx].(pendingSince := Some(now))];
        }
      } else {
        RespondError(q.id, NotActive);
      }
      assert runtimes == old(runtimes)[idx := o.row] && responses == old(responses) + o.said;
    }

    /** `handle_request` and the `dirty` that `process_spool` sets after it. */
    method HandleRequest(q: Request, jobId: string, live: bool, now: nat)
      requires Valid() && FreshId(View(), Spool(q, jobId, live, now))
      modifies this
      ensures Valid() && View() == DlSteps.HandleRequest(old(View()), q, jobId, live, now)
    {
      HandleSound(View(), q, jobId, live, now);
      match q
      case Enqueue(_, _, _, _, _, _) => HandleEnqueue(q, jobId, now);
      case StreamFiles(_, _, _, _) => HandleStream(q, jobId, live, now);
      case Drop(_, _, _) =>
        dirty := true;
        assert asked + [] == asked;
        var target := DropTarget(runtimes, q);
        if target.Some? {
          StopJob(target.value);
        }
    }

    // ---- finished adds --------------------------------------------------------------------

    /** Answers or queues `pending` at row `idx`. */
    method Redeliver(idx: nat, pending: seq<Pending>)
      requires idx < |runtimes|
      modifies this`runtimes, this`responses
      ensures var o := DeliverAll(old(runtimes)[idx], pending);
        runtimes == old(runtimes)[idx := o.row] && responses == old(responses) + o.said
    {
      ghost var row := runtimes[idx];
      for n := 0 to |pending|
        invariant runtimes == old(runtimes)[idx := DeliverAll(row, pending[..n]).row]
        invariant responses == old(responses) + DeliverAll(row, pending[..n]).said
      {
        assert pending[..n + 1][..n] == pending[..n];
        if EngineReady(runtimes[idx]) {
          Respond(idx, pending[n]);
        } else {
          runtimes := runtimes[idx := runtimes[idx].(pending := runtimes[idx].pending + [pending[n]])];
        }
      }
      assert pending[..|pending|] == pending;
    }

    /** Moves the files and requests of row `newer` to row `dup`, which it finds again by its job
        id after the removal shifted the rows. */
    method MergeInto(dup: nat, newer: nat)
      requires UniqueIds(Jobs(runtimes)) && dup < |runtimes| && newer < |runtimes| && dup != newer
      modifies this
      ensures View() == DlSteps.MergeInto(old(View()), dup, newer)
    {
      ghost var rows := runtimes;
      var dupJobId := runtimes[dup].job.jobId;
      var newKept := runtimes[newer].job.kept;
      var newRequest := runtimes[newer].job.requestId;
      var pending := runtimes[newer].pending;
      var handle := ReserveHandle();
      MergeEnqueue(dup, newRequest, newKept, false, None, handle);
      RemoveRuntime(newer);
      ghost var row := Recommit(rows[dup], newKept, None, handle);
      assert runtimes == Without(rows[dup := row], newer) && responses == old(responses);
      WithoutPut(rows, dup, newer, row, DeliverAll(row, pending).row);
      var survivor := FindSurvivor(rows, dup, newer, row, dupJobId);
      Redeliver(survivor, pending);
      dirty := true;
    }

    method FindSurvivor(ghost rows: seq<Runtime>, ghost dup: nat, ghost newer: nat, ghost row: Runtime, jobId: string)
      returns (survivor: nat)
      requires UniqueIds(Jobs(rows)) && dup < |rows| && newer < |rows| && dup != newer
      requires row.job.jobId == jobId == rows[dup].job.jobId
      requires runtimes == Without(rows[dup := row], newer)
      ensures survivor == if dup < newer then dup else dup - 1
    {
      ghost var at := if dup < newer then dup else dup - 1;
      forall j, k | 0 <= j < k < |runtimes| ensures Jobs(runtimes)[j].jobId != Jobs(runtimes)[k].jobId {
        ghost var j' := if j < newer then j else j + 1;
        ghost var k' := if k < newer then k else k + 1;
        assert Jobs(rows)[j'].jobId != Jobs(rows)[k'].jobId;
      }
      FoundByJob(runtimes, at);
      var found := Find(runtimes, ByJob(jobId));
      survivor := found.value;
    }

    method OnAddReady(idx: nat, o: AddOutcome, now: nat)
      requires Valid() && idx < |runtimes| && o.Ready?
      modifies this
      ensures Valid() && View() == AddReady(old(View()), idx, o, now)
    {
      var hash := DedupHash(runtimes[idx], o.details);
      if hash.Some? {
        var dup := Find(runtimes, ByLiveHash(hash.value));
        if dup.Some? && dup.value != idx {
          MergeSound(View(), dup.value, idx);
          MergeInto(dup.value, idx);
          return;
        }
      }
      assert Duplicate(runtimes, idx, o.details).None?;
      AddOk(runtimes[idx], o, now);
      PutSound(View(), idx, AddSettles(runtimes[idx], o, now));
      Settle(idx, o, now);
    }

    /** A finished add of no use: the queued requests are refused and the job failed. */
    method GiveUp(idx: nat, why: Reason)
      requires idx < |runtimes|
      modifies this`runtimes, this`responses
      ensures runtimes == old(runtimes)[idx := FailJob(old(runtimes)[idx], why).(pending := [], add := None)]
      ensures responses == old(responses) + RefuseAll(old(runtimes)[idx].pending, why)
    {
      RefuseQueued(idx, why);
      var runtime := runtimes[idx];
      runtime := runtime.(add := None, job := runtime.job.(status := Failed, error := Some(why)));
      runtimes := runtimes[idx := runtime];
    }

    /** Row `idx` takes over what its add delivered, or fails when nothing in it plays. */
    method Settle(idx: nat, o: AddOutcome, now: nat)
      requires idx < |runtimes| && o.Ready?
      modifies this`runtimes, this`responses, this`dirty
      ensures View() == Put(old(View()), idx, AddSettles(old(runtimes)[idx], o, now))
    {
      ghost var settled := AddSettles(runtimes[idx], o, now);
      var runtime := runtimes[idx];
      if runtime.job.infohash.None? {
        runtime := runtime.(job := runtime.job.(infohash := LowerHash(o.details.infoHash)));
      }
      runtime := runtime.(job := runtime.job.(
        torrentId := Some(o.torrentId), torrentName := o.torrentName, error := None));
      if runtime.job.kept == [] {
        runtime := runtime.(job := runtime.job.(kept := PickedFile(Some(o.details))));
      }
      dirty := true;
      if runtime.job.kept == [] {
        runtimes := runtimes[idx := runtime];
        GiveUp(idx, NoPlayableMedia);
        assert runtimes[idx] == settled.row;
        return;
      }
      runtimes := runtimes[idx := runtime];
      InstallEngine(idx, o, now);
      assert runtimes[idx] == settled.row;
    }

    method InstallEngine(idx: nat, o: AddOutcome, now: nat)
      requires idx < |runtimes| && o.Ready?
      modifies this`runtimes
      ensures runtimes == old(runtimes)[idx := Install(old(runtimes)[idx], o, now)]
    {
      var runtime := runtimes[idx];
      if |runtime.job.kept| < |o.details.files| && o.restricted.Some? {
        runtime := runtime.(job := runtime.job.(torrentId := o.restricted),
                            appliedSelection := Some(Indices(runtime.job.kept)));
      }
      runtime := runtime.(engine := Some(o.engine), details := Some(o.details), add := None,
                          job := runtime.job.(status := Downloading));
      if runtime.pending != [] && runtime.pendingSince.None? {
        runtime := runtime.(pendingSince := Some(now));
      }
      runtimes := runtimes[idx := runtime];
    }

    /** Collects finished adds along the indices listed at the start of the pass. */
    method ResumeAdds(outcomes: map<nat, AddOutcome>, now: nat)
      requires Valid()
      modifies this
      ensures Valid() && View() == DlSteps.ResumeAdds(old(View()), outcomes, now)
    {
      var listed := AddsInFlight(runtimes);
      for n := 0 to |listed|
        invariant Valid()
        invariant DlSteps.ResumeAdds(old(View()), outcomes, now) == ResumeAlong(View(), listed[n..], outcomes, now)
      {
        ghost var before := View();
        var idx := listed[n];
        assert listed[n..][0] == idx && listed[n..][1..] == listed[n + 1..];
        ResumeOneSound(before, idx, outcomes, now);
        if idx < |runtimes| && HasOutcome(runtimes[idx], outcomes) {
          var outcome := outcomes[runtimes[idx].add.value];
          match outcome
          case Ready(_, _, _, _, _) =>
            OnAddReady(idx, outcome, now);
          case Cancelled =>
            dropped := dropped + Ids(runtimes[idx].pending);
            RemoveRuntime(idx);
          case AddError(text) =>
            GiveUp(idx, AddFailed(text));
            dirty := true;
        }
        assert View() == ResumeOne(before, idx, outcomes, now);
      }
    }

    // ---- the stats tick -------------------------------------------------------------------

    /** `poll_jobs`: lists the engine-backed jobs by id and visits each where it then is. */
    method PollJobs(probes: string -> Probe, now: nat)
      requires UniqueIds(Jobs(runtimes))
      modifies this
      ensures View() == DlSteps.PollJobs(old(View()), probes, now)
    {
      ghost var states, at := Visits(View(), probes, now);
      var ids := EngineIds(runtimes);
      for n := 0 to |ids|
        invariant View() == states[n]
      {
        assert Visit(states[n], states[n + 1], ids[n], at[n], probes, now);
        PollJobById(ids[n], probes(ids[n]), now, at[n]);
      }
    }

    method PollJobById(id: string, p: Probe, now: nat, ghost at: nat)
      requires Find(runtimes, ByJob(id)) == Some(at) && runtimes[at].engine.Some?
      modifies this`runtimes, this`responses, this`dirty
      ensures View() == PollOne(old(View()), at, p, now)
    {
      var found := Find(runtimes, ByJob(id));
      PollJob(found.value, p, now);
    }

    /** One job's pass: a dead engine, else the queued requests, the progress and the move. */
    method PollJob(idx: nat, p: Probe, now: nat)
      requires idx < |runtimes| && runtimes[idx].engine.Some?
      modifies this`runtimes, this`responses, this`dirty
      ensures View() == Put(old(View()), idx, PollRow(old(runtimes)[idx], p, now))
    {
      if !p.alive {
        RefuseQueued(idx, EngineExited);
        var runtime := runtimes[idx].(engine := None);
        runtimes := runtimes[idx := runtime.(job := runtime.job.(status := Failed, error := Some(EngineExited)))];
        dirty := true;
        return;
      }
      ghost var told := TakeTick(runtimes[idx], p, now);
      if p.stats.Some? {
        AnswerOrWait(idx, p.stats.value, now);
        RecordStats(idx, p.stats.value, now);
        dirty := true;
      }
      assert runtimes == old(runtimes)[idx := told.row] && responses == old(responses) + told.said;
      if runtimes[idx].job.status == Moving {
        TryMove(idx, p, now);
      }
    }

    method AnswerOrWait(idx: nat, st: Stats, now: nat)
      requires idx < |runtimes|
      modifies this`runtimes, this`responses
      ensures var o := AnswerQueued(old(runtimes)[idx], st, now);
        runtimes == old(runtimes)[idx := o.row] && responses == old(responses) + o.said
    {
      if runtimes[idx].pending != [] {
        var runtime := runtimes[idx];
        match PendingGate(AllReady(runtime, st), runtime.pendingSince, now)
        case Answer => AnswerPending(idx);
        case Wait =>
        case Timeout =>
          RefuseQueued(idx, NotReadyInTime);
          runtimes := runtimes[idx := runtimes[idx].(pendingSince := None)];
      }
    }

    method RecordStats(idx: nat, st: Stats, now: nat)
      requires idx < |runtimes|
      modifies this`runtimes
      ensures runtimes == old(runtimes)[idx := TakeStats(old(runtimes)[idx], st, now)]
    {
      var runtime := runtimes[idx];
      runtime := runtime.(job := runtime.job.(fileProgress := st.fileProgress));
      var wanted := Indices(runtime.job.kept);
      if wanted != [] && runtime.appliedSelection != Some(wanted) {
        runtime := runtime.(appliedSelection := Some(wanted));
      }
      if FilesDownloaded(st, runtime.job.kept) {
        runtime := runtime.(job := runtime.job.(status := Moving));
        if runtime.moveDeferSince.None? {
          runtime := runtime.(moveDeferSince := Some(now));
        }
      } else if runtime.job.status == Moving {
        runtime := runtime.(job := runtime.job.(status := Downloading), moveDeferSince := None);
      }
      runtimes := runtimes[idx := runtime];
    }

    method TryMove(idx: nat, p: Probe, now: nat)
      requires idx < |runtimes|
      modifies this`runtimes, this`dirty
      ensures var o := DlRows.TryMove(old(runtimes)[idx], p, now);
        runtimes == old(runtimes)[idx := o.row] && dirty == (old(dirty) || o.dirty)
    {
      var runtime := runtimes[idx];
      if MoveHeld(p.deferred, runtime.moveDeferSince, now) {
        return;
      }
      if p.downloadsDir.None? {
        runtimes := runtimes[idx := FailJob(runtime, NoDownloadsDir)];
      } else if runtime.engine.None? || !p.cacheDirKnown {
        runtimes := runtimes[idx := FailJob(runtime, EngineGoneBeforeMove)];
      } else if p.moveError.Some? {
        runtimes := runtimes[idx := FailJob(runtime, MoveFailed(p.moveError.value))];
      } else {
        runtime := runtime.(job := runtime.job.(
          status := Completed, doneAt := Some(p.wallClock), movedTo := p.downloadsDir));
        runtime := runtime.(engine := None, details := None, add := None);
        runtimes := runtimes[idx := runtime];
      }
      dirty := true;
    }

    // ---- the serve loop -------------------------------------------------------------------

    method WriteState()
      modifies this`dirty, this`stateFile
      ensures View() == Save(old(View()))
    {
      if dirty {
        stateFile := Jobs(runtimes);
        dirty := false;
      }
    }

    /** Consumes the spool files in order. */
    method ProcessSpool(spool: seq<Event>)
      requires Valid() && FreshSpool(View(), spool)
      modifies this
      ensures Valid() && View() == Run(old(View()), spool)
    {
      ghost var goal := Run(View(), spool);
      assert spool[0..] == spool;
      for n := 0 to |spool|
        invariant Valid() && FreshSpool(View(), spool[n..]) && goal == Run(View(), spool[n..])
      {
        var e := spool[n];
        assert spool[n..][0] == e && spool[n..][1..] == spool[n + 1..];
        HandleRequest(e.q, e.jobId, e.live, e.now);
      }
    }

    /** The finished adds, a due stats tick, and the state file. */
    method Work(outcomes: map<nat, AddOutcome>, tick: Option<string -> Probe>, now: nat)
      requires Valid()
      modifies this
      ensures Valid() && !dirty && View() == Run(old(View()), TurnEvents([], outcomes, tick, now))
    {
      RunTurn(View(), outcomes, tick, now);
      ResumeAdds(outcomes, now);
      if tick.Some? {
        PollSound(View(), |runtimes|, tick.value, now);
        PollJobs(tick.value, now);
      }
      WriteState();
    }

    /** One turn of `run`. */
    method Turn(spool: seq<Event>, outcomes: map<nat, AddOutcome>, tick: Option<string -> Probe>, now: nat)
      returns (stay: bool)
      requires Valid() && FreshSpool(View(), spool)
      modifies this
      ensures Valid() && !dirty
      ensures stay <==> exists i :: 0 <= i < |runtimes| && !Over(runtimes[i])
      ensures View() == Run(old(View()), TurnEvents(spool, outcomes, tick, now))
    {
      RunConcat(View(), spool, TurnEvents([], outcomes, tick, now));
      assert spool + TurnEvents([], outcomes, tick, now) == TurnEvents(spool, outcomes, tick, now);
      ProcessSpool(spool);
      Work(outcomes, tick, now);
      stay := HasWork(runtimes);
      WorkIff(runtimes);
    }
  }

  ghost predicate FreshSpool(s: State, spool: seq<Event>)
    decreases |spool|
  {
    spool != [] ==> spool[0].Spool? && FreshId(s, spool[0]) && FreshSpool(Step(s, spool[0]), spool[1..])
  }

  /** The events of one turn of the serve loop. */
  function TurnEvents(spool: seq<Event>, outcomes: map<nat, AddOutcome>, tick: Option<string -> Probe>, now: nat)
    : seq<Event>
  {
    spool + ([Adds(outcomes, now)] + (if tick.Some? then [Tick(tick.value, now)] else []) + [SaveState])
  }

  lemma RunTurn(s: State, outcomes: map<nat, AddOutcome>, tick: Option<string -> Probe>, now: nat)
    ensures var t := DlSteps.ResumeAdds(s, outcomes, now);
      Run(s, TurnEvents([], outcomes, tick, now))
      == Save(if tick.Some? then DlSteps.PollJobs(t, tick.value, now) else t)
  {
    var es := TurnEvents([], outcomes, tick, now);
    var t := DlSteps.ResumeAdds(s, outcomes, now);
    assert es[0] == Adds(outcomes, now);
    if tick.Some? {
      assert es[1..] == [Tick(tick.value, now), SaveState] && es[1..][1..] == [SaveState];
      assert Run(t, es[1..]) == Run(DlSteps.PollJobs(t, tick.value, now), [SaveState]);
      RunSave(DlSteps.PollJobs(t, tick.value, now));
    } else {
      assert es[1..] == [SaveState];
      RunSave(t);
    }
  }

  lemma RunSave(s: State)
    ensures Run(s, [SaveState]) == Save(s)
  {
  }

  lemma {:induction false} RunConcat(s: State, a: seq<Event>, b: seq<Event>)
    ensures Run(s, a + b) == Run(Run(s, a), b)
    decreases |a|
  {
    if a == [] {
      assert a + b == b;
    } else {
      assert (a + b)[0] == a[0] && (a + b)[1..] == a[1..] + b;
      RunConcat(Step(s, a[0]), a[1..], b);
    }
  }

  /** A response does not depend on what else is queued. */
  lemma {:induction false} AnswerOneMore(r: Runtime, ps: seq<Pending>, n: nat, before: seq<Response>)
    requires n < |ps|
    ensures before + AnswerAll(r, ps[..n]) + [DlRows.Respond(r.(pending := [], pendingSince := None), ps[n])]
         == before + AnswerAll(r, ps[..n + 1])
  {
    assert ps[..n + 1][..n] == ps[..n];
  }

  // ---- the jobs a tick visits ---------------------------------------------------------------

  /** The engine-backed rows, in order. */
  function EngineRows(rows: seq<Runtime>): (at: seq<nat>)
    ensures forall j :: 0 <= j < |at| ==> at[j] < |rows| && rows[at[j]].engine.Some?
    ensures forall j, k :: 0 <= j < k < |at| ==> at[j] < at[k]
    ensures forall i :: 0 <= i < |rows| && rows[i].engine.Some? ==> i in at
  {
    if rows == [] then []
    else
      var n := |rows| - 1;
      EngineRows(rows[..n]) + if rows[n].engine.Some? then [n] else []
  }

  function EngineIds(rows: seq<Runtime>): seq<string> {
    var at := EngineRows(rows);
    seq(|at|, j requires 0 <= j < |at| => rows[at[j]].job.jobId)
  }

  /** The rows a tick is done with after its first `n` visits. */
  ghost function Visited(rows: seq<Runtime>, n: nat): (k: nat)
    requires n <= |EngineRows(rows)|
    ensures k <= |rows|
  {
    if n == 0 then 0 else EngineRows(rows)[n - 1] + 1
  }

  /** Between two visited rows there is no engine. */
  lemma EnginelessBetween(rows: seq<Runtime>, n: nat)
    requires n <= |EngineRows(rows)|
    ensures var to := if n < |EngineRows(rows)| then EngineRows(rows)[n] else |rows|;
      Visited(rows, n) <= to && forall i :: Visited(rows, n) <= i < to ==> rows[i].engine.None?
  {
  }

  lemma PollRowKeepsId(r: Runtime, p: Probe, now: nat)
    ensures PollRow(r, p, now).row.job.jobId == r.job.jobId
  {
    if p.stats.Some? {
      assert AnswerQueued(r, p.stats.value, now).row.job == r.job;
    }
  }

  lemma PollKeepsIds(s: State, k: nat, probes: string -> Probe, now: nat)
    requires k <= |s.rows| && UniqueIds(Jobs(s.rows))
    ensures UniqueIds(Jobs(PollUpTo(s, k, probes, now).rows))
  {
    var t := PollUpTo(s, k, probes, now);
    forall i | 0 <= i < |s.rows| ensures Jobs(t.rows)[i].jobId == Jobs(s.rows)[i].jobId {
      if i < k {
        PolledRow(s, k, probes, now, i);
        PollRowKeepsId(s.rows[i], probes(s.rows[i].job.jobId), now);
      }
    }
  }

  /** The row a job id names, wherever removals moved it. */
  lemma {:induction false} FoundByJob(rows: seq<Runtime>, i: nat)
    requires i < |rows| && UniqueIds(Jobs(rows))
    ensures Find(rows, ByJob(rows[i].job.jobId)) == Some(i)
  {
    var at := Find(rows, ByJob(rows[i].job.jobId));
    assert Matches(rows[i], ByJob(rows[i].job.jobId)) && at.Some?;
    assert Jobs(rows)[i].jobId == Jobs(rows)[at.value].jobId;
  }

  /** Row `dup` after the removal of row `newer`. */
  lemma {:induction false} WithoutPut(rows: seq<Runtime>, dup: nat, newer: nat, row: Runtime, last: Runtime)
    requires dup < |rows| && newer < |rows| && dup != newer
    ensures var at := if dup < newer then dup else dup - 1;
      && Without(rows[dup := row], newer)[at] == row
      && Without(rows[dup := row], newer)[at := last] == Without(rows[dup := last], newer)
  {
  }

  /** A listed job is still found at its row, untouched by the earlier visits. */
  lemma {:induction false} StillThere(from: State, at: nat, probes: string -> Probe, now: nat)
    requires UniqueIds(Jobs(from.rows)) && at < |from.rows|
    ensures var t := PollUpTo(from, at, probes, now);
      t.rows[at] == from.rows[at] && Find(t.rows, ByJob(from.rows[at].job.jobId)) == Some(at)
  {
    PollKeepsIds(from, at, probes, now);
    FoundByJob(PollUpTo(from, at, probes, now).rows, at);
  }

  lemma {:induction false} Arrive(from: State, n: nat, at: nat, probes: string -> Probe, now: nat)
    requires UniqueIds(Jobs(from.rows)) && n < |EngineRows(from.rows)| && at == EngineRows(from.rows)[n]
    ensures PollUpTo(from, Visited(from.rows, n), probes, now) == PollUpTo(from, at, probes, now)
    ensures PollUpTo(from, at, probes, now).rows[at] == from.rows[at]
    ensures Find(PollUpTo(from, at, probes, now).rows, ByJob(EngineIds(from.rows)[n])) == Some(at)
  {
    EnginelessBetween(from.rows, n);
    SkipEngineless(from, Visited(from.rows, n), at, probes, now);
    StillThere(from, at, probes, now);
  }

  /** The tick's visit to job `id`, which is row `at` then. */
  ghost predicate Visit(s: State, t: State, id: string, at: nat, probes: string -> Probe, now: nat) {
    && Find(s.rows, ByJob(id)) == Some(at) && s.rows[at].engine.Some?
    && t == PollOne(s, at, probes(id), now)
  }

  lemma {:induction false} OneVisit(from: State, n: nat, at: nat, probes: string -> Probe, now: nat)
    requires UniqueIds(Jobs(from.rows)) && n < |EngineRows(from.rows)| && at == EngineRows(from.rows)[n]
    ensures Visit(PollUpTo(from, Visited(from.rows, n), probes, now),
                  PollUpTo(from, Visited(from.rows, n + 1), probes, now), EngineIds(from.rows)[n], at, probes, now)
  {
    Arrive(from, n, at, probes, now);
    Depart(from, n, at, probes, now);
  }

  /** The states of a tick between its visits, and the rows it visits. */
  lemma Visits(from: State, probes: string -> Probe, now: nat) returns (states: seq<State>, at: seq<nat>)
    requires UniqueIds(Jobs(from.rows))
    ensures |at| == |EngineIds(from.rows)| && |states| == |at| + 1
    ensures states[0] == from && states[|at|] == DlSteps.PollJobs(from, probes, now)
    ensures forall n :: 0 <= n < |at| ==>
      Visit(states[n], states[n + 1], EngineIds(from.rows)[n], at[n], probes, now)
  {
    at := EngineRows(from.rows);
    states := seq(|at| + 1, n requires 0 <= n <= |at| => PollUpTo(from, Visited(from.rows, n), probes, now));
    forall n | 0 <= n < |at| ensures Visit(states[n], states[n + 1], EngineIds(from.rows)[n], at[n], probes, now) {
      OneVisit(from, n, at[n], probes, now);
    }
    Leave(from, probes, now);
  }

  lemma Depart(from: State, n: nat, at: nat, probes: string -> Probe, now: nat)
    requires n < |EngineRows(from.rows)| && at == EngineRows(from.rows)[n]
    ensures PollUpTo(from, Visited(from.rows, n + 1), probes, now)
         == PollOne(PollUpTo(from, at, probes, now), at, probes(EngineIds(from.rows)[n]), now)
  {
  }

  lemma Leave(from: State, probes: string -> Probe, now: nat)
    ensures PollUpTo(from, Visited(from.rows, |EngineRows(from.rows)|), probes, now)
         == DlSteps.PollJobs(from, probes, now)
  {
    EnginelessBetween(from.rows, |EngineRows(from.rows)|);
    SkipEngineless(from, Visited(from.rows, |EngineRows(from.rows)|), |from.rows|, probes, now);
  }

  /** Rows without an engine are not visited, and visiting them would change nothing. */
  lemma SkipOne(s: State, m: nat, probes: string -> Probe, now: nat)
    requires 0 < m <= |s.rows| && s.rows[m - 1].engine.None?
    ensures PollUpTo(s, m, probes, now) == PollUpTo(s, m - 1, probes, now)
  {
  }

  lemma {:induction false} SkipEngineless(s: State, k: nat, m: nat, probes: string -> Probe, now: nat)
    requires k <= m <= |s.rows| && forall i :: k <= i < m ==> s.rows[i].engine.None?
    ensures PollUpTo(s, m, probes, now) == PollUpTo(s, k, probes, now)
  {
    if k < m {
      SkipOne(s, m, probes, now);
      assert s.rows[m - 1].engine.None?;
      SkipEngineless(s, k, m - 1, probes, now);
    }
  }
}
