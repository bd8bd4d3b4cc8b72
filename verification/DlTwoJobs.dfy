/** Runs from the start with two jobs that turn out to be one torrent. */
module DlTwoJobs {
  import opened Common
  import opened DlJobs
  import opened DlRows
  import opened DlSteps
  import opened DlInvariants
  import opened DlWitness
  import opened DlRevivals

  lemma TwoAdds(a: Runtime, b: Runtime)
    ensures AddsInFlight([a, b]) == (if a.add.Some? then [0] else []) + (if b.add.Some? then [1] else [])
  {
    assert [a, b][..1] == [a] && [a][..0] == [];
    assert AddsInFlight([a]) == if a.add.Some? then [0] else [];
  }

  lemma ResumeTwo(s: State, outcomes: map<nat, AddOutcome>, now: nat)
    ensures ResumeAlong(s, [0, 1], outcomes, now) == ResumeOne(ResumeOne(s, 0, outcomes, now), 1, outcomes, now)
  {
    var t := ResumeOne(s, 0, outcomes, now);
    assert [0, 1][1..] == [1] && [1][1..] == [];
    assert ResumeAlong(t, [1], outcomes, now) == ResumeAlong(ResumeOne(t, 1, outcomes, now), [], outcomes, now);
  }

  lemma ResumeFirst(s: State, outcomes: map<nat, AddOutcome>, now: nat)
    ensures ResumeAlong(s, [0], outcomes, now) == ResumeOne(s, 0, outcomes, now)
  {
    assert [0][1..] == [];
    assert ResumeAlong(ResumeOne(s, 0, outcomes, now), [], outcomes, now) == ResumeOne(s, 0, outcomes, now);
  }

  // ---- an add replaced before it was ready ------------------------------------------------

  /** The revived job has failed again, with its first engine still running and the new add in flight. */
  const FAILED_AGAIN := FAILED.(add := Some(1), pendingSince := None)

  const SECOND := Spool(Enqueue("q3", None, "k2", "m", [FILE], false), "j2", false, 0)
  const SECOND_ROW :=
    StartAdd(NewRow(Job("j2", "q3", None, "k2", "m", [FILE], [], Queued, None, None, None, None)), 2)

  lemma FailsAgain()
    ensures PollRow(REVIVED, HOMELESS, 2).row == FAILED_AGAIN
  {
    assert Indices([FILE]) == [0];
  }

  lemma SecondArrives(s: State)
    requires s.rows == [FAILED_AGAIN] && s.next == 2
    ensures Step(s, SECOND).rows == [FAILED_AGAIN, SECOND_ROW] && Step(s, SECOND).next == 3
  {
    assert FindExisting([FAILED_AGAIN], None, Some("k2")).None?;
  }

  const MERGED := Adds(map[2 := DELIVERED], 3)

  lemma ReplacesUnready(s: State)
    requires s.rows == [FAILED_AGAIN, SECOND_ROW] && s.next == 3
    ensures HeldBy(s.rows, "j", 1) && 1 !in MERGED.outcomes
    ensures var t := Step(s, MERGED); |t.rows| == 1 && t.rows[0].job.jobId == "j" && t.rows[0].add == Some(3)
  {
    assert s.rows[0].add == Some(1);
    TwoAdds(FAILED_AGAIN, SECOND_ROW);
    ResumeTwo(s, MERGED.outcomes, 3);
    assert ResumeOne(s, 0, MERGED.outcomes, 3) == s;
    assert Lower("h") == "h";
    assert Matches(FAILED_AGAIN, ByLiveHash("h"));
    assert Duplicate(s.rows, 1, DETAILS) == Some(0);
    var t := MergeInto(s, 0, 1);
    assert ResumeOne(s, 1, MERGED.outcomes, 3) == t;
    assert t.rows == [DeliverAll(Recommit(FAILED_AGAIN, [FILE], None, 3), []).row];
  }

  /** Row `j` waits for add 1, of which there is no result yet, and then for another. */
  ghost predicate AddReplaced(s: State) {
    && HeldBy(s.rows, "j", 1) && 1 !in MERGED.outcomes
    && !HeldBy(Step(s, MERGED).rows, "j", 1) && HeldBy(Step(s, MERGED).rows, "j", 3)
  }

  lemma AddIsReplaced(s: State)
    requires s.rows == [FAILED_AGAIN, SECOND_ROW] && s.next == 3
    ensures AddReplaced(s)
  {
    ReplacesUnready(s);
  }

  const FAILS_SECOND := Tick(_ => HOMELESS, 2)
  const UNTIL_FAILED_AGAIN := [PLAY] + ([FAILS_SECOND] + ([SECOND] + []))

  lemma ToTwoRows(s: State)
    requires s.rows == [FAILED] && s.next == 1 && s.said == []
    ensures var t := Run(s, UNTIL_FAILED_AGAIN); t.rows == [FAILED_AGAIN, SECOND_ROW] && t.next == 3
  {
    RunFirst(s, PLAY, [FAILS_SECOND] + ([SECOND] + []));
    PlayRevives(s);
    var t := Step(s, PLAY);
    RunFirst(t, FAILS_SECOND, [SECOND] + []);
    OneTick(t, REVIVED, HOMELESS, 2);
    FailsAgain();
    var u := Step(t, FAILS_SECOND);
    RunFirst(u, SECOND, []);
    SecondArrives(u);
  }

  /** A job fails while its new add is in flight, its old engine still there; a second job turns out to be the
      same torrent and is merged into it. The revive that the merge causes replaces the add. */
  lemma UnreadyAddReplaced()
    ensures AddReplaced(Run(START, [COMMIT] + ([ADDED] + ([FAILS_FIRST] + UNTIL_FAILED_AGAIN))))
  {
    var s := FromFailure(UNTIL_FAILED_AGAIN);
    ToTwoRows(s);
    AddIsReplaced(Run(s, UNTIL_FAILED_AGAIN));
  }

  // ---- two engines for one torrent --------------------------------------------------------

  const MAGNET := Spool(Enqueue("q1", Some("aa"), "m", "x", [FILE], false), "j1", false, 0)
  const TORRENT_FILE := Spool(Enqueue("q2", None, "f", "x", [FILE], false), "j2", false, 0)
  const MAGNET_ROW :=
    StartAdd(NewRow(Job("j1", "q1", Some("aa"), "m", "x", [FILE], [], Queued, None, None, None, None)), 0)
  const FILE_ROW :=
    StartAdd(NewRow(Job("j2", "q2", None, "f", "x", [FILE], [], Queued, None, None, None, None)), 1)

  function Reports(engine: Engine, hash: string): AddOutcome {
    Ready(engine, "1", "x", Details([TorrentFile("a", 1, Video)], Some(hash)), None)
  }

  const FILE_ADDED := Adds(map[1 := Reports(Engine(1, 1), "aa")], 0)
  const MAGNET_ADDED := Adds(map[0 := Reports(Engine(2, 2), "bb")], 0)

  lemma MagnetArrives()
    ensures Step(START, MAGNET).rows == [MAGNET_ROW] && Step(START, MAGNET).next == 1
  {
    assert Lower("aa") == "aa";
  }

  lemma FileArrives(s: State)
    requires s.rows == [MAGNET_ROW] && s.next == 1
    ensures Step(s, TORRENT_FILE).rows == [MAGNET_ROW, FILE_ROW] && Step(s, TORRENT_FILE).next == 2
  {
    assert FindExisting([MAGNET_ROW], None, Some("f")).None?;
  }

  lemma FileSettles(s: State)
    requires s.rows == [MAGNET_ROW, FILE_ROW]
    ensures var t := Step(s, FILE_ADDED);
      t.rows == [MAGNET_ROW, AddSettles(FILE_ROW, Reports(Engine(1, 1), "aa"), 0).row]
  {
    TwoAdds(MAGNET_ROW, FILE_ROW);
    ResumeTwo(s, FILE_ADDED.outcomes, 0);
    assert ResumeOne(s, 0, FILE_ADDED.outcomes, 0) == s;
    assert Lower("aa") == "aa";
    assert Duplicate(s.rows, 1, Reports(Engine(1, 1), "aa").details).None?;
  }

  lemma MagnetSettles(s: State)
    requires s.rows == [MAGNET_ROW, AddSettles(FILE_ROW, Reports(Engine(1, 1), "aa"), 0).row]
    ensures var t := Step(s, MAGNET_ADDED);
      |t.rows| == 2 && t.rows[0].engine == Some(Engine(2, 2)) && t.rows[0].job.infohash == Some("aa")
      && t.rows[1] == s.rows[1]
  {
    TwoAdds(MAGNET_ROW, s.rows[1]);
    ResumeFirst(s, MAGNET_ADDED.outcomes, 0);
    assert Lower("aa") == "aa" && Lower("bb") == "bb" && "bb"[0] != "aa"[0];
    assert Duplicate(s.rows, 0, Reports(Engine(2, 2), "bb").details).None?;
  }

  const DISAGREEING := [MAGNET] + ([TORRENT_FILE] + ([FILE_ADDED] + ([MAGNET_ADDED] + [])))

  /** A magnet and the `.torrent` file of the same torrent; the magnet's engine reports another hash than the
      link. Both settle, and two engines run for the one infohash. */
  lemma DisagreementMakesTwoEngines()
    ensures !OneEngine(Run(START, DISAGREEING).rows)
  {
    RunFirst(START, MAGNET, [TORRENT_FILE] + ([FILE_ADDED] + ([MAGNET_ADDED] + [])));
    MagnetArrives();
    var s := Step(START, MAGNET);
    RunFirst(s, TORRENT_FILE, [FILE_ADDED] + ([MAGNET_ADDED] + []));
    FileArrives(s);
    var t := Step(s, TORRENT_FILE);
    RunFirst(t, FILE_ADDED, [MAGNET_ADDED] + []);
    FileSettles(t);
    var u := Step(t, FILE_ADDED);
    RunFirst(u, MAGNET_ADDED, []);
    MagnetSettles(u);
    var rows := Step(u, MAGNET_ADDED).rows;
    assert Lower("aa") == "aa";
    assert SameTorrent(rows[0], rows[1]);
  }
}
