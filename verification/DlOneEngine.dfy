/** One engine per torrent, over every run whose hashes can be trusted. */
module DlOneEngine {
  import opened Common
  import opened DlJobs
  import opened DlRows
  import opened DlSteps
  import opened DlInvariants

  /** The engine's report and the job's own hash, when both are known, agree. */
  predicate Agree(r: Runtime, d: Details) {
    r.job.infohash.Some? && d.infoHash.Some? ==> LowerHash(d.infoHash) == r.job.infohash
  }

  lemma PutOneEngine(rows: seq<Runtime>, i: nat, r: Runtime)
    requires OneEngine(rows) && i < |rows|
    requires forall j :: 0 <= j < |rows| && j != i ==> !SameTorrent(rows[j], r)
    ensures OneEngine(rows[i := r])
  {
  }

  /** A step that keeps the hash and starts no engine keeps the property. */
  lemma QuietPut(rows: seq<Runtime>, i: nat, r: Runtime)
    requires OneEngine(rows) && i < |rows|
    requires r.engine.Some? ==> rows[i].engine.Some? && r.job.infohash == rows[i].job.infohash
    ensures OneEngine(rows[i := r])
  {
  }

  lemma WithoutOneEngine(rows: seq<Runtime>, i: nat)
    requires OneEngine(rows) && i < |rows|
    ensures OneEngine(Without(rows, i))
  {
  }

  lemma CommitOneEngine(s: State, q: Request)
    requires q.Enqueue? && q.infohash != Some("") && OneEngine(s.rows)
    requires FindExisting(s.rows, LowerHash(q.infohash), Some(q.sourceKey)).Some?
    ensures var i := FindExisting(s.rows, LowerHash(q.infohash), Some(q.sourceKey)).value;
      OneEngine(s.rows[i := MergeEnqueue(s.rows[i], q.id, q.files, q.play, LowerHash(q.infohash), s.next).row])
  {
  }

  lemma HandleOneEngine(s: State, q: Request, jobId: string, live: bool, now: nat)
    requires OneEngine(s.rows) && (q.Enqueue? ==> q.infohash != Some(""))
    ensures OneEngine(HandleRequest(s, q, jobId, live, now).rows)
  {
    match q
    case Enqueue(id, infohash, key, name, files, play) =>
      if FindExisting(s.rows, LowerHash(infohash), Some(key)).Some? {
        CommitOneEngine(s, q);
      }
    case StreamFiles(id, infohash, key, indices) =>
      var at := FindExisting(s.rows, LowerHash(infohash), Some(key));
      if at.Some? {
        QuietPut(s.rows, at.value, StreamRow(s.rows[at.value], Pending(id, Stream(indices), []), live, now).row);
      }
    case Drop(_, _, _) =>
      var at := DropTarget(s.rows, q);
      if at.Some? {
        WithoutOneEngine(s.rows, at.value);
      }
  }

  lemma SettleOneEngine(rows: seq<Runtime>, i: nat, o: AddOutcome, now: nat)
    requires OneEngine(rows) && i < |rows| && o.Ready? && Agree(rows[i], o.details)
    requires Duplicate(rows, i, o.details).None?
    ensures OneEngine(rows[i := AddSettles(rows[i], o, now).row])
  {
  }

  /** The row keeps its own hash, but only the reported one was looked for. */
  ghost predicate OwnHashTakenElsewhere(rows: seq<Runtime>, i: nat, d: Details)
    requires i < |rows|
  {
    && !Agree(rows[i], d)
    && exists j :: 0 <= j < |rows| && j != i && Matches(rows[j], ByLiveHash(rows[i].job.infohash.value))
  }

  /** The comment beside `on_add_ready` promises deduplication by both hashes; the code looks for
      one. Without the agreement a second engine appears exactly in the missed case. */
  lemma SecondEngineIff(rows: seq<Runtime>, i: nat, o: AddOutcome, now: nat)
    requires OneEngine(rows) && i < |rows| && o.Ready? && Duplicate(rows, i, o.details).None?
    ensures OneEngine(rows[i := AddSettles(rows[i], o, now).row])
       <==> !(OwnHashTakenElsewhere(rows, i, o.details)
              && (rows[i].job.kept != [] || PickedFile(Some(o.details)) != []))
  {
    var t := AddSettles(rows[i], o, now).row;
    var after := rows[i := t];
    if Agree(rows[i], o.details) {
      SettleOneEngine(rows, i, o, now);
    } else if rows[i].job.kept == [] && PickedFile(Some(o.details)) == [] {
      QuietPut(rows, i, t);
    } else {
      var own := ByLiveHash(rows[i].job.infohash.value);
      if j :| 0 <= j < |rows| && j != i && Matches(rows[j], own) {
        assert SameTorrent(after[if j < i then j else i], after[if j < i then i else j]);
      } else {
        forall j | 0 <= j < |rows| && j != i ensures !SameTorrent(rows[j], t) {
          assert !Matches(rows[j], own);
        }
        PutOneEngine(rows, i, t);
      }
    }
  }

  lemma MergeOneEngine(s: State, dup: nat, i: nat)
    requires OneEngine(s.rows) && dup < |s.rows| && i < |s.rows| && dup != i
    ensures OneEngine(MergeInto(s, dup, i).rows)
  {
    var row := Recommit(s.rows[dup], s.rows[i].job.kept, None, s.next);
    var o := DeliverAll(row, s.rows[i].pending);
    DeliverAllKeepsJob(row, s.rows[i].pending);
    QuietPut(s.rows, dup, o.row);
    WithoutOneEngine(s.rows[dup := o.row], i);
  }

  lemma {:induction false} DeliverAllKeepsJob(r: Runtime, ps: seq<Pending>)
    ensures DeliverAll(r, ps).row.job == r.job && DeliverAll(r, ps).row.engine == r.engine
  {
    if ps != [] {
      DeliverAllKeepsJob(r, ps[..|ps| - 1]);
    }
  }

  /** Every delivered torrent agrees with the row it is delivered to. */
  ghost predicate AgreeAlong(s: State, listed: seq<nat>, outcomes: map<nat, AddOutcome>, now: nat)
    decreases |listed|
  {
    listed != [] ==>
      && (listed[0] < |s.rows| && HasOutcome(s.rows[listed[0]], outcomes) ==>
            var o := outcomes[s.rows[listed[0]].add.value]; o.Ready? ==> Agree(s.rows[listed[0]], o.details))
      && AgreeAlong(ResumeOne(s, listed[0], outcomes, now), listed[1..], outcomes, now)
  }

  lemma {:induction false} ResumeOneEngine(s: State, listed: seq<nat>, outcomes: map<nat, AddOutcome>, now: nat)
    requires OneEngine(s.rows) && AgreeAlong(s, listed, outcomes, now)
    ensures OneEngine(ResumeAlong(s, listed, outcomes, now).rows)
    decreases |listed|
  {
    if listed != [] {
      var i := listed[0];
      if i < |s.rows| && HasOutcome(s.rows[i], outcomes) {
        var o := outcomes[s.rows[i].add.value];
        match o
        case Ready(_, _, _, _, _) =>
          var dup := Duplicate(s.rows, i, o.details);
          if dup.Some? {
            MergeOneEngine(s, dup.value, i);
          } else {
            SettleOneEngine(s.rows, i, o, now);
          }
        case Cancelled => WithoutOneEngine(s.rows, i);
        case AddError(text) => QuietPut(s.rows, i, AddFails(s.rows[i], text).row);
      }
      ResumeOneEngine(ResumeOne(s, i, outcomes, now), listed[1..], outcomes, now);
    }
  }

  lemma PollOneKeepsOneEngine(s: State, t: State, i: nat, p: Probe, now: nat)
    requires OneEngine(s.rows) && i < |s.rows| && RowOk(s.rows[i]) && t == PollOne(s, i, p, now)
    ensures OneEngine(t.rows)
  {
    PollRowOk(s.rows[i], p, now);
    QuietPut(s.rows, i, PollRow(s.rows[i], p, now).row);
  }

  ghost predicate OneEngineAfter(s: State, k: nat, probes: string -> Probe, now: nat)
    requires k <= |s.rows|
  {
    OneEngine(PollUpTo(s, k, probes, now).rows)
  }

  lemma {:induction false} NextPollOneEngine(s: State, k: nat, probes: string -> Probe, now: nat)
    requires RowsOk(s.rows) && k < |s.rows| && OneEngineAfter(s, k, probes, now)
    ensures OneEngineAfter(s, k + 1, probes, now)
  {
    NextPoll(s, k, probes, now);
    PollOneKeepsOneEngine(PollUpTo(s, k, probes, now), PollUpTo(s, k + 1, probes, now), k,
                          probes(s.rows[k].job.jobId), now);
  }

  lemma {:induction false} EachPollOneEngine(s: State, k: nat, probes: string -> Probe, now: nat)
    requires RowsOk(s.rows) && OneEngine(s.rows) && k <= |s.rows|
    ensures OneEngineAfter(s, k, probes, now)
  {
    if k == 0 {
      assert PollUpTo(s, 0, probes, now) == s;
    } else {
      EachPollOneEngine(s, k - 1, probes, now);
      NextPollOneEngine(s, k - 1, probes, now);
    }
  }

  lemma PollOneEngine(s: State, probes: string -> Probe, now: nat)
    requires RowsOk(s.rows) && OneEngine(s.rows)
    ensures OneEngine(PollJobs(s, probes, now).rows)
  {
    EachPollOneEngine(s, |s.rows|, probes, now);
  }

  /** What the outside must respect: no empty hash, and reports that agree. */
  ghost predicate Trusted(s: State, e: Event) {
    match e
    case Spool(q, _, _, _) => q.Enqueue? ==> q.infohash != Some("")
    case Adds(outcomes, now) => AgreeAlong(s, AddsInFlight(s.rows), outcomes, now)
    case _ => true
  }

  lemma StepOneEngine(s: State, e: Event)
    requires RowsOk(s.rows) && OneEngine(s.rows) && Trusted(s, e)
    ensures OneEngine(Step(s, e).rows)
  {
    match e
    case Spool(q, jobId, live, now) => HandleOneEngine(s, q, jobId, live, now);
    case Adds(outcomes, now) => ResumeOneEngine(s, AddsInFlight(s.rows), outcomes, now);
    case Tick(probes, now) => PollOneEngine(s, probes, now);
    case SaveState =>
    case Crash =>
  }
}
