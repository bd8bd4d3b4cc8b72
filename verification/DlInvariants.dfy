/** What every step of the daemon keeps: backed statuses, deadlines, handles, one engine per
    torrent, and a state file in step with memory. */
module DlInvariants {
  import opened Common
  import opened DlJobs
  import opened DlRows
  import opened DlSteps

  // ---- one row ----------------------------------------------------------------------------

  /** A status is backed by what works on it, and a queued request by a deadline. */
  ghost predicate RowOk(r: Runtime) {
    && r.job.status != Queued
    && (r.job.status == Adding ==> r.add.Some?)
    && (r.job.status in {Downloading, Moving} ==> r.engine.Some?)
    && (r.job.status == Completed ==> r.engine.None? && r.add.None?)
    && (r.engine.Some? ==> r.job.torrentId.Some? && r.details.Some?)
    && (EngineReady(r) && r.pending != [] ==> r.pendingSince.Some?)
  }

  lemma {:induction false} DeliverAllOk(r: Runtime, ps: seq<Pending>)
    requires RowOk(r)
    ensures RowOk(DeliverAll(r, ps).row)
    ensures var t := DeliverAll(r, ps).row; t.job == r.job && t.engine == r.engine && t.add == r.add
    ensures EngineReady(r) ==> DeliverAll(r, ps).row == r
  {
    if ps != [] {
      DeliverAllOk(r, ps[..|ps| - 1]);
    }
  }

  lemma CommitOk(r: Runtime, id: string, files: seq<KeptFile>, play: bool, hash: Option<string>, handle: nat)
    requires RowOk(r)
    ensures RowOk(Recommit(r, files, hash, handle))
    ensures RowOk(MergeEnqueue(r, id, files, play, hash, handle).row)
  {
  }

  lemma StreamRowOk(r: Runtime, p: Pending, live: bool, now: nat)
    requires RowOk(r)
    ensures RowOk(StreamRow(r, p, live, now).row)
  {
  }

  lemma AddOk(r: Runtime, o: AddOutcome, now: nat)
    requires RowOk(r)
    ensures o.Ready? ==> RowOk(AddSettles(r, o, now).row)
    ensures o.AddError? ==> RowOk(AddFails(r, o.text).row)
  {
  }

  /** What a tick may do to the parts of a row other rows depend on. */
  ghost predicate Ticked(r: Runtime, t: Runtime) {
    && t.job.jobId == r.job.jobId && t.job.infohash == r.job.infohash
    && (t.engine.Some? ==> r.engine.Some?)
    && (t.add == r.add || t.add.None?)
  }

  lemma AnswerQueuedOk(r: Runtime, st: Stats, now: nat)
    requires RowOk(r)
    ensures RowOk(AnswerQueued(r, st, now).row)
    ensures var t := AnswerQueued(r, st, now).row;
      t.job == r.job && t.engine == r.engine && t.add == r.add && t.details == r.details
      && t.moveDeferSince == r.moveDeferSince
  {
  }

  lemma TakeStatsOk(r: Runtime, st: Stats, now: nat)
    requires RowOk(r) && r.engine.Some?
    ensures RowOk(TakeStats(r, st, now)) && Ticked(r, TakeStats(r, st, now))
    ensures TakeStats(r, st, now).engine == r.engine
  {
  }

  lemma TryMoveOk(r: Runtime, p: Probe, now: nat)
    requires RowOk(r)
    ensures RowOk(TryMove(r, p, now).row) && Ticked(r, TryMove(r, p, now).row)
    ensures !TryMove(r, p, now).dirty ==> TryMove(r, p, now).row == r
  {
  }

  lemma PollRowOk(r: Runtime, p: Probe, now: nat)
    requires RowOk(r)
    ensures RowOk(PollRow(r, p, now).row) && Ticked(r, PollRow(r, p, now).row)
    ensures !PollRow(r, p, now).dirty ==> PollRow(r, p, now).row.job == r.job
    ensures r.job.status == Completed ==> PollRow(r, p, now).row == r
  {
    if r.engine.Some? && p.alive {
      var told := TakeTick(r, p, now);
      if p.stats.Some? {
        AnswerQueuedOk(r, p.stats.value, now);
        TakeStatsOk(AnswerQueued(r, p.stats.value, now).row, p.stats.value, now);
      }
      assert RowOk(told.row) && Ticked(r, told.row) && (!told.dirty ==> told.row == r);
      TryMoveOk(told.row, p, now);
    }
  }

  // ---- the whole state --------------------------------------------------------------------

  ghost predicate RowsOk(rows: seq<Runtime>) {
    forall i :: 0 <= i < |rows| ==> RowOk(rows[i])
  }

  ghost predicate UniqueIds(jobs: seq<Job>) {
    forall i, j :: 0 <= i < j < |jobs| ==> jobs[i].jobId != jobs[j].jobId
  }

  /** Each add in flight has its own handle, and none of them was told to stop. */
  ghost predicate HandlesOk(s: State) {
    && (forall i :: 0 <= i < |s.rows| && s.rows[i].add.Some?
          ==> s.rows[i].add.value < s.next && s.rows[i].add.value !in s.cancelled)
    && (forall i, j :: 0 <= i < j < |s.rows| && s.rows[i].add.Some? ==> s.rows[i].add != s.rows[j].add)
    && (forall h :: h in s.cancelled ==> h < s.next)
  }

  ghost predicate SameTorrent(a: Runtime, b: Runtime) {
    a.engine.Some? && b.engine.Some? && a.job.infohash.Some? && a.job.infohash == b.job.infohash
  }

  /** No two engines work on the same known torrent. */
  ghost predicate OneEngine(rows: seq<Runtime>) {
    forall i, j :: 0 <= i < j < |rows| ==> !SameTorrent(rows[i], rows[j])
  }

  ghost predicate Saved(s: State) {
    !s.dirty ==> s.disk == Jobs(s.rows)
  }

  ghost predicate Sound(s: State) {
    RowsOk(s.rows) && UniqueIds(Jobs(s.rows)) && UniqueIds(s.disk) && HandlesOk(s) && Saved(s)
  }

  // ---- Sound is kept ----------------------------------------------------------------------

  lemma PutSound(s: State, i: nat, o: Outcome)
    requires Sound(s) && i < |s.rows| && RowOk(o.row) && o.row.job.jobId == s.rows[i].job.jobId
    requires o.row.add in {s.rows[i].add, None, Some(s.next)}
    requires !o.dirty ==> o.row.job == s.rows[i].job
    ensures Sound(Put(s, i, o).(next := s.next + 1))
    ensures o.row.add != Some(s.next) ==> Sound(Put(s, i, o))
  {
    var t := Put(s, i, o);
    assert forall j :: 0 <= j < |t.rows| && j != i ==> t.rows[j] == s.rows[j];
    assert forall j :: 0 <= j < |t.rows| ==> Jobs(t.rows)[j].jobId == Jobs(s.rows)[j].jobId;
    if !t.dirty {
      assert Jobs(t.rows) == Jobs(s.rows);
    }
  }

  lemma WithoutSound(s: State, i: nat, stopped: set<nat>)
    requires Sound(s) && i < |s.rows|
    requires stopped <= if s.rows[i].add.Some? then {s.rows[i].add.value} else {}
    ensures Sound(s.(rows := Without(s.rows, i), dirty := true, cancelled := s.cancelled + stopped))
  {
    var rows := Without(s.rows, i);
    assert forall j :: 0 <= j < |rows| ==> rows[j] == s.rows[if j < i then j else j + 1];
    assert forall j :: 0 <= j < |rows| ==> Jobs(rows)[j] == Jobs(s.rows)[if j < i then j else j + 1];
  }

  lemma AppendSound(s: State, r: Runtime)
    requires Sound(s) && RowOk(r) && r.add == Some(s.next)
    requires forall i :: 0 <= i < |s.rows| ==> s.rows[i].job.jobId != r.job.jobId
    ensures Sound(s.(rows := s.rows + [r], next := s.next + 1, dirty := true))
  {
    assert Jobs(s.rows + [r]) == Jobs(s.rows) + [r.job];
  }

  /** A new job's random id is not in use. */
  predicate FreshId(s: State, e: Event) {
    e.Spool? ==> forall i :: 0 <= i < |s.rows| ==> s.rows[i].job.jobId != e.jobId
  }

  lemma AskSound(s: State, q: Request)
    requires Sound(s)
    ensures Sound(Ask(s, q))
  {
  }

  lemma CommitSound(s: State, q: Request, i: nat)
    requires Sound(s) && q.Enqueue? && i < |s.rows|
    ensures var o := MergeEnqueue(s.rows[i], q.id, q.files, q.play, LowerHash(q.infohash), s.next);
      Sound(Put(s, i, o).(next := s.next + 1))
  {
    CommitOk(s.rows[i], q.id, q.files, q.play, LowerHash(q.infohash), s.next);
    PutSound(s, i, MergeEnqueue(s.rows[i], q.id, q.files, q.play, LowerHash(q.infohash), s.next));
  }

  lemma EnqueueSound(s: State, q: Request, jobId: string)
    requires Sound(s) && q.Enqueue? && forall i :: 0 <= i < |s.rows| ==> s.rows[i].job.jobId != jobId
    ensures Sound(HandleRequest(s, q, jobId, false, 0))
  {
    var hash := LowerHash(q.infohash);
    var at := FindExisting(s.rows, hash, Some(q.sourceKey));
    AskSound(s, q);
    if at.Some? {
      CommitSound(Ask(s, q), q, at.value);
    } else {
      AppendSound(Ask(s, q), Fresh(q, jobId, s.next));
    }
  }

  lemma StreamSound(s: State, q: Request, live: bool, now: nat)
    requires Sound(s) && q.StreamFiles?
    ensures Sound(HandleRequest(s, q, "", live, now))
  {
    var at := FindExisting(s.rows, LowerHash(q.infohash), Some(q.sourceKey));
    AskSound(s, q);
    if at.Some? {
      var p := Pending(q.id, Stream(q.indices), []);
      StreamRowOk(s.rows[at.value], p, live, now);
      PutSound(Ask(s, q), at.value, StreamRow(s.rows[at.value], p, live, now));
    }
  }

  lemma DropSound(s: State, q: Request)
    requires Sound(s) && q.Drop?
    ensures Sound(HandleRequest(s, q, "", false, 0))
  {
    var at := DropTarget(s.rows, q);
    AskSound(s, q);
    if at.Some? {
      WithoutSound(Ask(s, q), at.value, if s.rows[at.value].add.Some? then {s.rows[at.value].add.value} else {});
    }
  }

  lemma HandleSound(s: State, q: Request, jobId: string, live: bool, now: nat)
    requires Sound(s) && FreshId(s, Spool(q, jobId, live, now))
    ensures Sound(HandleRequest(s, q, jobId, live, now))
  {
    match q
    case Enqueue(_, _, _, _, _, _) => EnqueueSound(s, q, jobId);
    case StreamFiles(_, _, _, _) => StreamSound(s, q, live, now);
    case Drop(_, _, _) => DropSound(s, q);
  }

  lemma MergeSound(s: State, dup: nat, i: nat)
    requires Sound(s) && dup < |s.rows| && i < |s.rows| && dup != i
    ensures Sound(MergeInto(s, dup, i))
  {
    var row := Recommit(s.rows[dup], s.rows[i].job.kept, None, s.next);
    CommitOk(s.rows[dup], "", s.rows[i].job.kept, false, None, s.next);
    DeliverAllOk(row, s.rows[i].pending);
    var o := DeliverAll(row, s.rows[i].pending);
    PutSound(s, dup, o.(dirty := true));
    WithoutSound(Put(s, dup, o.(dirty := true)).(next := s.next + 1), i, {});
    var t := Put(s, dup, o.(dirty := true)).(next := s.next + 1);
    assert t.(rows := Without(t.rows, i), dirty := true, cancelled := t.cancelled + {}) == MergeInto(s, dup, i);
  }

  lemma ResumeOneSound(s: State, i: nat, outcomes: map<nat, AddOutcome>, now: nat)
    requires Sound(s)
    ensures Sound(ResumeOne(s, i, outcomes, now))
  {
    if i < |s.rows| && HasOutcome(s.rows[i], outcomes) {
      var o := outcomes[s.rows[i].add.value];
      AddOk(s.rows[i], o, now);
      match o
      case Ready(_, _, _, _, _) =>
        var dup := Duplicate(s.rows, i, o.details);
        if dup.Some? {
          MergeSound(s, dup.value, i);
        } else {
          PutSound(s, i, AddSettles(s.rows[i], o, now));
        }
      case Cancelled =>
        WithoutSound(s, i, {});
        assert s.cancelled + {} == s.cancelled;
      case AddError(text) =>
        PutSound(s, i, AddFails(s.rows[i], text));
    }
  }

  lemma {:induction false} ResumeAlongSound(s: State, listed: seq<nat>, outcomes: map<nat, AddOutcome>, now: nat)
    requires Sound(s)
    ensures Sound(ResumeAlong(s, listed, outcomes, now))
    decreases |listed|
  {
    if listed != [] {
      ResumeOneSound(s, listed[0], outcomes, now);
      ResumeAlongSound(ResumeOne(s, listed[0], outcomes, now), listed[1..], outcomes, now);
    }
  }

  lemma PollOneSound(s: State, t: State, i: nat, p: Probe, now: nat)
    requires Sound(s) && i < |s.rows| && t == PollOne(s, i, p, now)
    ensures Sound(t)
  {
    PollRowOk(s.rows[i], p, now);
    PutSound(s, i, PollRow(s.rows[i], p, now));
  }

  lemma {:induction false} NextPollSound(s: State, k: nat, t: State, probes: string -> Probe, now: nat)
    requires k < |s.rows| && Sound(PollUpTo(s, k, probes, now)) && t == PollUpTo(s, k + 1, probes, now)
    ensures Sound(t)
  {
    NextPoll(s, k, probes, now);
    PollOneSound(PollUpTo(s, k, probes, now), t, k, probes(s.rows[k].job.jobId), now);
  }

  lemma {:induction false} PollSound(s: State, k: nat, probes: string -> Probe, now: nat)
    requires Sound(s) && k <= |s.rows|
    ensures Sound(PollUpTo(s, k, probes, now))
  {
    if k == 0 {
      assert PollUpTo(s, 0, probes, now) == s;
    } else {
      PollSound(s, k - 1, probes, now);
      NextPollSound(s, k - 1, PollUpTo(s, k, probes, now), probes, now);
    }
  }

  lemma RestartSound(s: State)
    requires Sound(s)
    ensures Sound(Restart(s))
  {
    var t := Restart(s);
    assert forall i :: 0 <= i < |t.rows| ==> t.rows[i] == AdoptJob(s.disk[i], s.next + i) && RowOk(t.rows[i]);
    assert forall i :: 0 <= i < |t.rows| ==> Jobs(t.rows)[i].jobId == s.disk[i].jobId;
  }

  lemma StepSound(s: State, e: Event)
    requires Sound(s) && FreshId(s, e)
    ensures Sound(Step(s, e))
  {
    match e
    case Spool(q, jobId, live, now) => HandleSound(s, q, jobId, live, now);
    case Adds(outcomes, now) => ResumeAlongSound(s, AddsInFlight(s.rows), outcomes, now);
    case Tick(probes, now) => PollSound(s, |s.rows|, probes, now);
    case SaveState =>
    case Crash => RestartSound(s);
  }
}
