/** Runs from the start in which what an earlier life of a job left behind decides. */
module DlRevivals {
  import opened Common
  import opened DlJobs
  import opened DlRows
  import opened DlSteps
  import opened DlWitness

  // ---- steps of a daemon with one row -----------------------------------------------------

  lemma RunFirst(s: State, e: Event, rest: seq<Event>)
    ensures Run(s, [e] + rest) == Run(Step(s, e), rest)
  {
  }

  lemma OneCommit(s: State, r: Runtime, id: string, files: seq<KeptFile>, play: bool)
    requires s.rows == [r] && r.job.infohash == Some("h")
    ensures var t := Step(s, Spool(Enqueue(id, Some("h"), "k", "n", files, play), "", false, 0));
      var o := MergeEnqueue(r, id, files, play, Some("h"), s.next);
      t.rows == [o.row] && t.said == s.said + o.said && t.next == s.next + 1
  {
    FoundByHash(r);
    assert Lower("h") == "h";
  }

  lemma OneDelivery(s: State, r: Runtime, h: nat, o: AddOutcome, now: nat)
    requires s.rows == [r] && r.add == Some(h) && r.engine.None? && o.Ready?
    ensures var t := Step(s, Adds(map[h := o], now));
      t.rows == [AddSettles(r, o, now).row] && t.said == s.said + AddSettles(r, o, now).said && t.next == s.next
  {
    var outcomes := map[h := o];
    OneAdd(r);
    assert Duplicate([r], 0, o.details).None?;
    var t := ResumeOne(s, 0, outcomes, now);
    assert t.rows == [AddSettles(r, o, now).row];
    assert ResumeAlong(t, [0][1..], outcomes, now) == t;
  }

  lemma Opening(rest: seq<Event>)
    ensures Run(START, [COMMIT] + ([ADDED] + rest)) == Run(One(SETTLED, 1), rest)
  {
    RunFirst(START, COMMIT, [ADDED] + rest);
    Commits();
    RunFirst(One(COMMITTED, 1), ADDED, rest);
    AddArrives();
  }

  // ---- a young request refused ------------------------------------------------------------

  const DEAD := Probe(false, None, false, Some("d"), true, None, 0)
  const NOT_LIVE := Probe(true, Some(Stats(false, false, [0, 0])), false, Some("d"), true, None, 0)

  const WAITING := SETTLED.(pending := [Pending("q2", Stream([0]), [])], pendingSince := Some(0))
  const KILLED := WAITING.(
    pending := [], engine := None, job := SETTLED.job.(status := Failed, error := Some(EngineExited)))
  const REPLAYED := KILLED.(
    pending := [Pending("q3", EnqueuePlay, [FILE])], add := Some(1),
    job := KILLED.job.(status := Adding, error := None))

  lemma EngineDies()
    ensures PollRow(WAITING, DEAD, 1) == Outcome(KILLED, [Refusal("q2", EngineExited)], true)
  {
    assert RefuseAll(WAITING.pending[..0], EngineExited) == [];
    assert RefuseAll(WAITING.pending, EngineExited) == [Refusal("q2", EngineExited)];
  }

  lemma PlayAgain()
    ensures MergeEnqueue(KILLED, "q3", [FILE], true, Some("h"), 1) == Outcome(REPLAYED, [], true)
  {
    assert [] + [Pending("q3", EnqueuePlay, [FILE])] == [Pending("q3", EnqueuePlay, [FILE])];
  }

  lemma RefusedAtOnce()
    ensures var r := AddSettles(REPLAYED, DELIVERED, 60_000).row;
      PollRow(r, NOT_LIVE, 60_000).said == [Refusal("q3", NotReadyInTime)]
  {
    var r := AddSettles(REPLAYED, DELIVERED, 60_000).row;
    assert r.pending == [Pending("q3", EnqueuePlay, [FILE])] && r.pendingSince == Some(0);
    assert !PendingReady(r, r.pending[0], NOT_LIVE.stats.value);
    assert RefuseAll(r.pending[..0], NotReadyInTime) == [];
    assert RefuseAll(r.pending, NotReadyInTime) == [Refusal("q3", NotReadyInTime)];
  }

  const PLAYS_AGAIN := Spool(Enqueue("q3", Some("h"), "k", "n", [FILE], true), "", false, 0)
  const DIES := Tick(_ => DEAD, 1)
  const ARRIVES_LATE := Adds(map[1 := DELIVERED], 60_000)
  const STILL_NOT_LIVE := Tick(_ => NOT_LIVE, 60_000)

  lemma DiesWaiting()
    ensures var s := Step(Step(One(SETTLED, 1), STREAM), DIES);
      s.rows == [KILLED] && s.next == 1 && s.said == [Refusal("q2", EngineExited)]
  {
    Streams();
    var s := Step(One(SETTLED, 1), STREAM);
    OneTick(s, WAITING, DEAD, 1);
    EngineDies();
    assert s.said == [];
  }

  /** What a play of the killed job comes to. */
  const AFTER_DEATH := [PLAYS_AGAIN] + ([ARRIVES_LATE] + ([STILL_NOT_LIVE] + []))

  lemma RefusedAfterDeath(s: State)
    requires s.rows == [KILLED] && s.next == 1
    ensures Run(s, AFTER_DEATH).said == s.said + [Refusal("q3", NotReadyInTime)]
  {
    RunFirst(s, PLAYS_AGAIN, [ARRIVES_LATE] + ([STILL_NOT_LIVE] + []));
    OneCommit(s, KILLED, "q3", [FILE], true);
    PlayAgain();
    RefusedOnArrival(Step(s, PLAYS_AGAIN));
  }

  lemma RefusedOnArrival(s: State)
    requires s.rows == [REPLAYED]
    ensures Run(s, [ARRIVES_LATE] + ([STILL_NOT_LIVE] + [])).said == s.said + [Refusal("q3", NotReadyInTime)]
  {
    RunFirst(s, ARRIVES_LATE, [STILL_NOT_LIVE] + []);
    OneDelivery(s, REPLAYED, 1, DELIVERED, 60_000);
    var t := Step(s, ARRIVES_LATE);
    RunFirst(t, STILL_NOT_LIVE, []);
    OneTick(t, AddSettles(REPLAYED, DELIVERED, 60_000).row, NOT_LIVE, 60_000);
    RefusedAtOnce();
    assert AddSettles(REPLAYED, DELIVERED, 60_000).said == [];
  }

  /** A stream request waits, the engine dies, the job is played again, and a minute after the first request
      its new engine arrives: the play is refused by the tick of that very moment. */
  lemma YoungRequestRefused()
    ensures Run(START, [COMMIT] + ([ADDED] + ([STREAM] + ([DIES] + AFTER_DEATH)))).said
         == [Refusal("q2", EngineExited), Refusal("q3", NotReadyInTime)]
  {
    Opening([STREAM] + ([DIES] + AFTER_DEATH));
    var s := Step(One(SETTLED, 1), STREAM);
    RunFirst(One(SETTLED, 1), STREAM, [DIES] + AFTER_DEATH);
    RunFirst(s, DIES, AFTER_DEATH);
    DiesWaiting();
    RefusedAfterDeath(Step(s, DIES));
  }

  // ---- a move from under a live stream ----------------------------------------------------

  const FETCHED := Stats(true, true, [1, 0])
  const STREAMED := Probe(true, Some(FETCHED), true, Some("d"), true, None, 0)
  const FREE := Probe(true, Some(FETCHED), false, Some("d"), true, None, 0)

  const GONE := SETTLED.(
    job := SETTLED.job.(status := Completed, fileProgress := [1, 0], doneAt := Some(0), movedTo := Some("d")),
    engine := None, details := None, moveDeferSince := Some(0), appliedSelection := Some([0]))
  const RECOMMITTED := GONE.(job := GONE.job.(status := Adding, error := None), add := Some(1))

  lemma Completes()
    ensures PollRow(SETTLED, FREE, 0).row == GONE
  {
    assert Indices([FILE]) == [0];
  }

  lemma CommitsAgain()
    ensures MergeEnqueue(GONE, "q2", [FILE], false, Some("h"), 1).row == RECOMMITTED
  {
  }

  lemma MovedAtOnce()
    ensures var r := AddSettles(RECOMMITTED, DELIVERED, MOVE_DEFER_BACKSTOP).row;
      r.job.status == Downloading && PollRow(r, STREAMED, MOVE_DEFER_BACKSTOP).row.job.status == Completed
  {
    var r := AddSettles(RECOMMITTED, DELIVERED, MOVE_DEFER_BACKSTOP).row;
    assert r.moveDeferSince == Some(0) && r.job.kept == [FILE];
  }

  const COMMITS_AGAIN := Spool(Enqueue("q2", Some("h"), "k", "n", [FILE], false), "", false, 0)
  const FIRST_DONE := Tick(_ => FREE, 0)
  const ARRIVES_SIX_HOURS_ON := Adds(map[1 := DELIVERED], MOVE_DEFER_BACKSTOP)
  const DONE_AGAIN := Tick(_ => STREAMED, MOVE_DEFER_BACKSTOP)
  const SECOND_LIFE := [COMMITS_AGAIN] + ([ARRIVES_SIX_HOURS_ON] + ([DONE_AGAIN] + []))

  lemma MovedInSecondLife(s: State)
    requires s.rows == [GONE] && s.next == 1
    ensures var t := Run(s, SECOND_LIFE); |t.rows| == 1 && t.rows[0].job.status == Completed
  {
    RunFirst(s, COMMITS_AGAIN, [ARRIVES_SIX_HOURS_ON] + ([DONE_AGAIN] + []));
    OneCommit(s, GONE, "q2", [FILE], false);
    CommitsAgain();
    var t := Step(s, COMMITS_AGAIN);
    RunFirst(t, ARRIVES_SIX_HOURS_ON, [DONE_AGAIN] + []);
    OneDelivery(t, RECOMMITTED, 1, DELIVERED, MOVE_DEFER_BACKSTOP);
    var u := Step(t, ARRIVES_SIX_HOURS_ON);
    RunFirst(u, DONE_AGAIN, []);
    OneTick(u, AddSettles(RECOMMITTED, DELIVERED, MOVE_DEFER_BACKSTOP).row, STREAMED, MOVE_DEFER_BACKSTOP);
    MovedAtOnce();
  }

  /** Six hours after its first completion a job is committed again; the tick that finds it complete moves it
      at once, though it is being streamed. */
  lemma StreamedFileMoved()
    ensures var t := Run(START, [COMMIT] + ([ADDED] + ([FIRST_DONE] + SECOND_LIFE)));
      |t.rows| == 1 && t.rows[0].job.status == Completed
  {
    Opening([FIRST_DONE] + SECOND_LIFE);
    RunFirst(One(SETTLED, 1), FIRST_DONE, SECOND_LIFE);
    OneTick(One(SETTLED, 1), SETTLED, FREE, 0);
    Completes();
    MovedInSecondLife(Step(One(SETTLED, 1), FIRST_DONE));
  }

  // ---- files moved that were never fetched ------------------------------------------------

  const OTHER := KeptFile(1, "b", 1)
  const SILENT := Probe(true, None, false, Some("d"), true, None, 0)

  const HELD := SETTLED.(
    job := SETTLED.job.(status := Moving, fileProgress := [1, 0]),
    moveDeferSince := Some(0), appliedSelection := Some([0]))

  lemma Holds()
    ensures PollRow(SETTLED, STREAMED, 0).row == HELD
  {
    assert Indices([FILE]) == [0];
  }

  lemma MovedUnfetched()
    ensures var t := PollRow(MergeEnqueue(HELD, "q2", [OTHER], false, Some("h"), 1).row, SILENT, 1).row;
      t.job.status == Completed && t.job.kept == [OTHER] && !Checked(t)
  {
    var t := PollRow(MergeEnqueue(HELD, "q2", [OTHER], false, Some("h"), 1).row, SILENT, 1).row;
    assert t.job.fileProgress == [1, 0] && !Has(t, t.job.kept[0]);
  }

  const OTHER_FILE := Spool(Enqueue("q2", Some("h"), "k", "n", [OTHER], false), "", false, 0)
  const HELD_BACK := Tick(_ => STREAMED, 0)
  const NO_STATS := Tick(_ => SILENT, 1)

  /** A complete job is held for a stream, a commit asks for another file of the torrent, and a tick without
      stats moves that file, of which nothing was fetched. */
  lemma UnfetchedFileMoved()
    ensures var t := Run(START, [COMMIT] + ([ADDED] + ([HELD_BACK] + ([OTHER_FILE] + ([NO_STATS] + [])))));
      |t.rows| == 1 && t.rows[0].job.status == Completed && t.rows[0].job.kept == [OTHER] && !Checked(t.rows[0])
  {
    Opening([HELD_BACK] + ([OTHER_FILE] + ([NO_STATS] + [])));
    RunFirst(One(SETTLED, 1), HELD_BACK, [OTHER_FILE] + ([NO_STATS] + []));
    OneTick(One(SETTLED, 1), SETTLED, STREAMED, 0);
    Holds();
    var s := Step(One(SETTLED, 1), HELD_BACK);
    RunFirst(s, OTHER_FILE, [NO_STATS] + []);
    OneCommit(s, HELD, "q2", [OTHER], false);
    var t := Step(s, OTHER_FILE);
    RunFirst(t, NO_STATS, []);
    OneTick(t, MergeEnqueue(HELD, "q2", [OTHER], false, Some("h"), 1).row, SILENT, 1);
    MovedUnfetched();
  }

  // ---- an add discarded by a tick ---------------------------------------------------------

  const FAILS_FIRST := Tick(_ => HOMELESS, 1)

  /** The run from the start to the failed move, and on. */
  lemma FromFailure(rest: seq<Event>) returns (s: State)
    ensures s.rows == [FAILED] && s.next == 1 && s.said == []
    ensures Run(START, [COMMIT] + ([ADDED] + ([FAILS_FIRST] + rest))) == Run(s, rest)
  {
    Opening([FAILS_FIRST] + rest);
    RunFirst(One(SETTLED, 1), FAILS_FIRST, rest);
    OneTick(One(SETTLED, 1), SETTLED, HOMELESS, 1);
    MoveFails();
    s := Step(One(SETTLED, 1), FAILS_FIRST);
  }

  const HOUSED := HOMELESS.(downloadsDir := Some("d"))
  const MOVES_ON := Tick(_ => HOUSED, 2)

  lemma CompletesByOldEngine()
    ensures var t := PollRow(REVIVED, HOUSED, 2).row; t.job.status == Completed && t.add.None?
  {
    assert Indices([FILE]) == [0];
  }

  lemma PlayThenMove(s: State)
    requires s.rows == [FAILED] && s.next == 1 && s.said == []
    ensures Run(s, [PLAY] + []).rows == [REVIVED]
    ensures var t := Run(s, [PLAY] + ([MOVES_ON] + [])).rows;
      |t| == 1 && t[0].job.status == Completed && t[0].add.None?
  {
    RunFirst(s, PLAY, []);
    RunFirst(s, PLAY, [MOVES_ON] + []);
    PlayRevives(s);
    RunFirst(Step(s, PLAY), MOVES_ON, []);
    OneTick(Step(s, PLAY), REVIVED, HOUSED, 2);
    CompletesByOldEngine();
  }

  /** A job whose move failed is played again, which starts an add; the next tick moves its files by the old
      engine, and the add is gone before it had a result. */
  lemma AddDiscardedByTick()
    ensures var s := Run(START, [COMMIT] + ([ADDED] + ([FAILS_FIRST] + ([PLAY] + []))));
      |s.rows| == 1 && s.rows[0].add == Some(1)
    ensures var s := Run(START, [COMMIT] + ([ADDED] + ([FAILS_FIRST] + ([PLAY] + ([MOVES_ON] + [])))));
      |s.rows| == 1 && s.rows[0].job.status == Completed && s.rows[0].add.None?
  {
    var s := FromFailure([PLAY] + []);
    var t := FromFailure([PLAY] + ([MOVES_ON] + []));
    PlayThenMove(s);
    PlayThenMove(t);
  }

  // ---- a young request refused while its engine is replaced -------------------------------

  const STREAMS_NOW := Spool(StreamFiles("q3", Some("h"), "k", [0]), "", false, 2)
  const STREAMING := REVIVED.(
    pending := REVIVED.pending + [Pending("q3", Stream([0]), [])], pendingSince := Some(2))

  const ADD_FAILS := Adds(map[1 := AddError("x")], 3)
  const FAILED_LATE := STREAMING.(
    pending := [], add := None, job := STREAMING.job.(status := Failed, error := Some(AddFailed("x"))))
  const BOTH_REFUSED := [Refusal("q2", AddFailed("x")), Refusal("q3", AddFailed("x"))]

  const PLAYS_LATE := Spool(Enqueue("q5", Some("h"), "k", "n", [FILE], true), "", false, 60_002)
  const REPLACING := FAILED_LATE.(
    pending := [Pending("q5", EnqueuePlay, [FILE])], add := Some(2),
    job := FAILED_LATE.job.(status := Adding, error := None))

  const OLD_NOT_LIVE := Tick(_ => NOT_LIVE, 60_002)

  lemma StreamWaits(s: State)
    requires s.rows == [REVIVED]
    ensures var t := Step(s, STREAMS_NOW); t.rows == [STREAMING] && t.said == s.said && t.next == s.next
  {
    FoundByHash(REVIVED);
  }

  lemma AddFailsLate(s: State)
    requires s.rows == [STREAMING]
    ensures var t := Step(s, ADD_FAILS); t.rows == [FAILED_LATE] && t.said == s.said + BOTH_REFUSED && t.next == s.next
  {
    OneAdd(STREAMING);
    var ps := STREAMING.pending;
    assert ps[..1] == REVIVED.pending && ps[..1][..0] == [];
    assert RefuseAll(ps[..1], AddFailed("x")) == [Refusal("q2", AddFailed("x"))];
    assert RefuseAll(ps, AddFailed("x")) == BOTH_REFUSED;
    var t := ResumeOne(s, 0, ADD_FAILS.outcomes, 3);
    assert t.rows == [AddFails(STREAMING, "x").row];
    assert ResumeAlong(t, [0][1..], ADD_FAILS.outcomes, 3) == t;
  }

  lemma PlaysLate()
    ensures MergeEnqueue(FAILED_LATE, "q5", [FILE], true, Some("h"), 2) == Outcome(REPLACING, [], true)
  {
    assert [] + [Pending("q5", EnqueuePlay, [FILE])] == [Pending("q5", EnqueuePlay, [FILE])];
  }

  lemma RefusedByOldAnchor()
    ensures PollRow(REPLACING, NOT_LIVE, 60_002).said == [Refusal("q5", NotReadyInTime)]
  {
    assert !PendingReady(REPLACING, REPLACING.pending[0], NOT_LIVE.stats.value);
    assert RefuseAll(REPLACING.pending[..0], NotReadyInTime) == [];
    assert RefuseAll(REPLACING.pending, NotReadyInTime) == [Refusal("q5", NotReadyInTime)];
  }

  const AFTER_ADD_FAILS := [PLAYS_LATE] + ([OLD_NOT_LIVE] + [])

  lemma RefusedAfterFailedAdd(s: State)
    requires s.rows == [FAILED_LATE] && s.next == 2
    ensures var t := Run(s, AFTER_ADD_FAILS); t.said == s.said + [Refusal("q5", NotReadyInTime)]
  {
    RunFirst(s, PLAYS_LATE, [OLD_NOT_LIVE] + []);
    OneCommit(s, FAILED_LATE, "q5", [FILE], true);
    PlaysLate();
    var t := Step(s, PLAYS_LATE);
    RunFirst(t, OLD_NOT_LIVE, []);
    OneTick(t, REPLACING, NOT_LIVE, 60_002);
    RefusedByOldAnchor();
  }

  const SECOND_ADD := [PLAY] + ([STREAMS_NOW] + ([ADD_FAILS] + AFTER_ADD_FAILS))

  lemma RefusedFromFailure(s: State)
    requires s.rows == [FAILED] && s.next == 1 && s.said == []
    ensures Run(s, SECOND_ADD).said == BOTH_REFUSED + [Refusal("q5", NotReadyInTime)]
  {
    RunFirst(s, PLAY, [STREAMS_NOW] + ([ADD_FAILS] + AFTER_ADD_FAILS));
    PlayRevives(s);
    var t := Step(s, PLAY);
    RunFirst(t, STREAMS_NOW, [ADD_FAILS] + AFTER_ADD_FAILS);
    StreamWaits(t);
    var u := Step(t, STREAMS_NOW);
    RunFirst(u, ADD_FAILS, AFTER_ADD_FAILS);
    AddFailsLate(u);
    RefusedAfterFailedAdd(Step(u, ADD_FAILS));
    assert [] + BOTH_REFUSED == BOTH_REFUSED;
  }

  /** A stream request waits for the add that is to replace an engine, the add fails, and a minute later the
      job is played again: a tick of the old engine refuses the play in the very moment it came. */
  lemma YoungPlayRefused()
    ensures Run(START, [COMMIT] + ([ADDED] + ([FAILS_FIRST] + SECOND_ADD))).said
         == BOTH_REFUSED + [Refusal("q5", NotReadyInTime)]
  {
    var s := FromFailure(SECOND_ADD);
    RefusedFromFailure(s);
  }
}
