/** Runs from the start that reach the states the comments of src/core/dlctl.rs rule out. */
module DlWitness {
  import opened Common
  import opened DlJobs
  import opened DlRows
  import opened DlSteps

  const FILE := KeptFile(0, "a", 1)
  const DETAILS := Details([TorrentFile("a", 1, Video), TorrentFile("b", 1, Video)], Some("h"))
  const FIRST := Engine(1, 1)
  const DELIVERED := Ready(FIRST, "t", "n", DETAILS, None)

  /** A download-only commit and its finished add. */
  const COMMIT := Spool(Enqueue("q1", None, "k", "n", [FILE], false), "j", false, 0)
  const ADDED := Adds(map[0 := DELIVERED], 0)

  const COMMITTED := StartAdd(NewRow(Job("j", "q1", None, "k", "n", [FILE], [], Queued, None, None, None, None)), 0)
  const SETTLED := Runtime(
    Job("j", "q1", Some("h"), "k", "n", [FILE], [], Downloading, Some("t"), None, None, None),
    Some(FIRST), Some(DETAILS), None, [], None, None, None)

  /** The daemon with one row. */
  function One(r: Runtime, next: nat): State { START.(rows := [r], next := next, dirty := true) }

  lemma Commits()
    ensures Step(START, COMMIT) == One(COMMITTED, 1)
  {
  }

  lemma AddSettled()
    ensures Duplicate([COMMITTED], 0, DETAILS).None?
    ensures AddSettles(COMMITTED, DELIVERED, 0) == Outcome(SETTLED, [], true)
  {
    assert Lower("h") == "h";
  }

  lemma OneAdd(r: Runtime)
    requires r.add.Some?
    ensures AddsInFlight([r]) == [0]
  {
  }

  lemma AddArrives()
    ensures Step(One(COMMITTED, 1), ADDED) == One(SETTLED, 1)
  {
    OneAdd(COMMITTED);
    AddSettled();
    var s := One(COMMITTED, 1);
    assert s.said + [] == s.said && [COMMITTED][0 := SETTLED] == [SETTLED];
    var t := ResumeOne(s, 0, ADDED.outcomes, 0);
    assert t == One(SETTLED, 1);
    assert ResumeAlong(t, [0][1..], ADDED.outcomes, 0) == t;
  }

  lemma OneTick(s: State, r: Runtime, p: Probe, now: nat)
    requires s.rows == [r]
    ensures var t := Step(s, Tick(_ => p, now));
      t.rows == [PollRow(r, p, now).row] && t.said == s.said + PollRow(r, p, now).said
      && t.next == s.next && t.asked == s.asked
  {
    var probes: string -> Probe := _ => p;
    assert PollUpTo(s, 0, probes, now) == s;
    assert PollUpTo(s, 1, probes, now) == PollOne(s, 0, p, now);
  }

  lemma FoundByHash(r: Runtime)
    requires r.job.infohash == Some("h")
    ensures FindExisting([r], LowerHash(Some("h")), Some("k")) == Some(0)
  {
    assert Lower("h") == "h";
  }

  lemma RunTwo(s: State, a: Event, b: Event, rest: seq<Event>)
    ensures Run(s, [a, b] + rest) == Run(Step(Step(s, a), b), rest)
  {
  }

  // ---- a stranded request -----------------------------------------------------------------

  const STREAM := Spool(StreamFiles("q2", Some("h"), "k", [0]), "", false, 0)

  /** The download is complete, but the torrent is not live. */
  const DONE := Probe(true, Some(Stats(false, true, [1])), false, Some("d"), true, None, 0)

  lemma Streams()
    ensures Step(One(SETTLED, 1), STREAM).rows
         == [SETTLED.(pending := [Pending("q2", Stream([0]), [])], pendingSince := Some(0))]
  {
    FoundByHash(SETTLED);
    assert [] + [Pending("q2", Stream([0]), [])] == [Pending("q2", Stream([0]), [])];
  }

  lemma MovesAway()
    ensures var r := SETTLED.(pending := [Pending("q2", Stream([0]), [])], pendingSince := Some(0));
      var t := PollRow(r, DONE, 1).row; t.job.status == Completed && t.pending == r.pending
  {
  }

  /** A commit, its add, a stream request before the torrent is live, one tick: the job is completed and
      moved, and the request waits for an engine that is gone. */
  lemma StrandedIsReachable()
    ensures var t := Run(START, [COMMIT, ADDED] + [STREAM, Tick(_ => DONE, 1)]);
      |t.rows| == 1 && t.rows[0].job.status == Completed && Ids(t.rows[0].pending) == ["q2"]
  {
    var tick: Event := Tick(_ => DONE, 1);
    RunTwo(START, COMMIT, ADDED, [STREAM, tick]);
    Commits();
    AddArrives();
    RunTwo(One(SETTLED, 1), STREAM, tick, []);
    assert [STREAM, tick] + [] == [STREAM, tick];
    Streams();
    var s := Step(One(SETTLED, 1), STREAM);
    OneTick(s, s.rows[0], DONE, 1);
    MovesAway();
  }

  // ---- an answer from the engine being replaced --------------------------------------------

  /** The download is complete and the torrent live, but there is no downloads directory. */
  const HOMELESS := Probe(true, Some(Stats(true, true, [1])), false, None, true, None, 0)
  const PLAY := Spool(Enqueue("q2", Some("h"), "k", "n", [FILE], true), "", false, 0)

  const FAILED := SETTLED.(
    job := SETTLED.job.(status := Failed, error := Some(NoDownloadsDir), fileProgress := [1]),
    moveDeferSince := Some(1), appliedSelection := Some([0]))

  const REVIVED := FAILED.(
    job := FAILED.job.(status := Adding, error := None), add := Some(1),
    pending := [Pending("q2", EnqueuePlay, [FILE])])

  lemma MoveFails()
    ensures PollRow(SETTLED, HOMELESS, 1).row == FAILED && PollRow(SETTLED, HOMELESS, 1).said == []
  {
    assert Indices([FILE]) == [0];
  }

  lemma PlayRevives(s: State)
    requires s.rows == [FAILED] && s.next == 1 && s.said == []
    ensures var t := Step(s, PLAY); t.rows == [REVIVED] && t.said == [] && t.next == 2
  {
    FoundByHash(FAILED);
    assert [] + [Pending("q2", EnqueuePlay, [FILE])] == [Pending("q2", EnqueuePlay, [FILE])];
    assert Lower("h") == "h";
  }

  lemma OldEngineAnswers()
    ensures var o := PollRow(REVIVED, HOMELESS, 2);
      o.said == [Play("q2", "j", "t", "n", FIRST, [FILE], 1)] && o.row.add == Some(1)
  {
  }

  /** A commit, its add, a failed move, a play of the revived job, one tick: the request is answered with
      the first engine while the add that replaces it is in flight. */
  lemma OldEngineIsReachable()
    ensures var t := Run(START, [COMMIT, ADDED] + ([Tick(_ => HOMELESS, 1), PLAY] + [Tick(_ => HOMELESS, 2)]));
      t.said == [Play("q2", "j", "t", "n", FIRST, [FILE], 1)] && |t.rows| == 1 && t.rows[0].add == Some(1)
  {
    var first: Event, second: Event := Tick(_ => HOMELESS, 1), Tick(_ => HOMELESS, 2);
    RunTwo(START, COMMIT, ADDED, [first, PLAY] + [second]);
    Commits();
    AddArrives();
    RunTwo(One(SETTLED, 1), first, PLAY, [second]);
    var s := Step(One(SETTLED, 1), first);
    OneTick(One(SETTLED, 1), SETTLED, HOMELESS, 1);
    MoveFails();
    assert s.said == [];
    PlayRevives(s);
    var t := Step(s, PLAY);
    OneTick(t, REVIVED, HOMELESS, 2);
    OldEngineAnswers();
    assert Run(t, [second]) == Run(Step(t, second), []);
  }
}
