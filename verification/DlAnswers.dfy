/** Which engine an answer is built from: outside ticks, never one that an add in flight is to replace. */
module DlAnswers {
  import opened Common
  import opened DlJobs
  import opened DlRows
  import opened DlSteps

  /** The response does not play, or plays from the row's engine, which no add is to replace. */
  predicate BySettled(r: Runtime, x: Response) {
    x.Play? ==> EngineReady(r) && x.engine == r.engine.value && x.jobId == r.job.jobId
  }

  ghost predicate AllBySettled(r: Runtime, said: seq<Response>) {
    forall i :: 0 <= i < |said| ==> BySettled(r, said[i])
  }

  lemma CommitAnswers(r: Runtime, id: string, files: seq<KeptFile>, play: bool, hash: Option<string>, handle: nat)
    ensures AllBySettled(r, MergeEnqueue(r, id, files, play, hash, handle).said)
  {
  }

  lemma StreamAnswers(r: Runtime, p: Pending, live: bool, now: nat)
    ensures AllBySettled(r, StreamRow(r, p, live, now).said)
  {
  }

  lemma {:induction false} DeliverAllAnswers(r: Runtime, ps: seq<Pending>)
    ensures AllBySettled(r, DeliverAll(r, ps).said)
    ensures EngineReady(r) ==> DeliverAll(r, ps).row == r
    ensures var t := DeliverAll(r, ps).row; t.engine == r.engine && t.add == r.add && t.job == r.job
  {
    if ps != [] {
      DeliverAllAnswers(r, ps[..|ps| - 1]);
    }
  }

  lemma MergedAnswers(r: Runtime, files: seq<KeptFile>, handle: nat, ps: seq<Pending>)
    ensures AllBySettled(r, DeliverAll(Recommit(r, files, None, handle), ps).said)
  {
    DeliverAllAnswers(Recommit(r, files, None, handle), ps);
  }

  lemma AddAnswersNothing(r: Runtime, o: AddOutcome, now: nat)
    ensures o.Ready? ==> AllBySettled(r, AddSettles(r, o, now).said)
    ensures o.AddError? ==> AllBySettled(r, AddFails(r, o.text).said)
  {
  }

  // ---- steps ------------------------------------------------------------------------------

  ghost predicate FromSettled(rows: seq<Runtime>, x: Response) {
    x.Play? ==> exists k :: 0 <= k < |rows| && BySettled(rows[k], x)
  }

  /** What the step writes behind `s.said` plays only from engines that are settled in `s`. */
  ghost predicate Speaks(s: State, t: State) {
    && |s.said| <= |t.said| && t.said[..|s.said|] == s.said
    && forall i :: |s.said| <= i < |t.said| ==> FromSettled(s.rows, t.said[i])
  }

  lemma PutSpeaks(s: State, t: State, k: nat, said: seq<Response>)
    requires k < |s.rows| && AllBySettled(s.rows[k], said) && t.said == s.said + said
    ensures Speaks(s, t)
  {
    forall i | |s.said| <= i < |t.said| ensures FromSettled(s.rows, t.said[i]) {
      assert t.said[i] == said[i - |s.said|] && BySettled(s.rows[k], t.said[i]);
    }
  }

  lemma RequestSpeaks(s: State, q: Request, jobId: string, live: bool, now: nat)
    ensures Speaks(s, HandleRequest(s, q, jobId, live, now))
  {
    var t := HandleRequest(s, q, jobId, live, now);
    match q
    case Enqueue(id, infohash, key, name, files, play) =>
      var hash := LowerHash(infohash);
      var at := FindExisting(s.rows, hash, Some(key));
      if at.Some? {
        CommitAnswers(s.rows[at.value], id, files, play, hash, s.next);
        PutSpeaks(s, t, at.value, MergeEnqueue(s.rows[at.value], id, files, play, hash, s.next).said);
      }
    case StreamFiles(id, infohash, key, indices) =>
      var at := FindExisting(s.rows, LowerHash(infohash), Some(key));
      if at.Some? {
        var p := Pending(id, Stream(indices), []);
        StreamAnswers(s.rows[at.value], p, live, now);
        PutSpeaks(s, t, at.value, StreamRow(s.rows[at.value], p, live, now).said);
      }
    case Drop(_, _, _) =>
  }

  /** The survivor of a merge answers for itself, before the merge and after. */
  lemma ResumeOneSpeaks(s: State, i: nat, outcomes: map<nat, AddOutcome>, now: nat)
    ensures Speaks(s, ResumeOne(s, i, outcomes, now))
  {
    var t := ResumeOne(s, i, outcomes, now);
    if i < |s.rows| && HasOutcome(s.rows[i], outcomes) {
      var o := outcomes[s.rows[i].add.value];
      AddAnswersNothing(s.rows[i], o, now);
      match o
      case Ready(_, _, _, _, _) =>
        var dup := Duplicate(s.rows, i, o.details);
        if dup.Some? {
          var kept, ps := s.rows[i].job.kept, s.rows[i].pending;
          MergedAnswers(s.rows[dup.value], kept, s.next, ps);
          PutSpeaks(s, t, dup.value, DeliverAll(Recommit(s.rows[dup.value], kept, None, s.next), ps).said);
        } else {
          PutSpeaks(s, t, i, AddSettles(s.rows[i], o, now).said);
        }
      case Cancelled =>
      case AddError(text) => PutSpeaks(s, t, i, AddFails(s.rows[i], text).said);
    }
  }

  ghost predicate SpeaksAlong(s: State, listed: seq<nat>, outcomes: map<nat, AddOutcome>, now: nat)
    decreases |listed|
  {
    listed != [] ==>
      var t := ResumeOne(s, listed[0], outcomes, now);
      Speaks(s, t) && SpeaksAlong(t, listed[1..], outcomes, now)
  }

  lemma {:induction false} PassSpeaks(s: State, listed: seq<nat>, outcomes: map<nat, AddOutcome>, now: nat)
    ensures SpeaksAlong(s, listed, outcomes, now)
    decreases |listed|
  {
    if listed != [] {
      ResumeOneSpeaks(s, listed[0], outcomes, now);
      PassSpeaks(ResumeOne(s, listed[0], outcomes, now), listed[1..], outcomes, now);
    }
  }

  /** Everything the event writes plays from an engine that is settled when it is written. */
  ghost predicate SpeaksSettled(s: State, e: Event) {
    match e
    case Adds(outcomes, now) => SpeaksAlong(s, AddsInFlight(s.rows), outcomes, now)
    case _ => Speaks(s, Step(s, e))
  }

  /** No request, no finished add, no save and no restart answers from an engine that is being replaced: ticks
      are the only events that do. */
  lemma OnlyTicksAnswerFromOldEngines(s: State, e: Event)
    requires !e.Tick?
    ensures SpeaksSettled(s, e)
  {
    match e {
      case Spool(q, jobId, live, now) => RequestSpeaks(s, q, jobId, live, now);
      case Adds(outcomes, now) => PassSpeaks(s, AddsInFlight(s.rows), outcomes, now);
      case SaveState =>
      case Crash =>
    }
  }
}
