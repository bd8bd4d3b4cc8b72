/** `resume_adds` walks a list of indices while merges and cancels shift the rows under it. */
module DlResume {
  import opened Common
  import opened DlJobs
  import opened DlRows
  import opened DlSteps
  import opened DlInvariants

  lemma {:induction false} InFlightExactly(rows: seq<Runtime>, i: nat)
    ensures i in AddsInFlight(rows) <==> i < |rows| && rows[i].add.Some?
  {
    if rows != [] {
      InFlightExactly(rows[..|rows| - 1], i);
    }
  }

  // ---- every outcome reaches the row whose add produced it, and no other -------------------

  /** Only threads that were started have results. */
  ghost predicate Started(outcomes: map<nat, AddOutcome>, next: nat) {
    forall h :: h in outcomes ==> h < next
  }

  predicate OwnReady(r: Runtime, outcomes: map<nat, AddOutcome>) {
    HasOutcome(r, outcomes) && outcomes[r.add.value].Ready?
  }

  predicate OwnError(r: Runtime, outcomes: map<nat, AddOutcome>) {
    HasOutcome(r, outcomes) && outcomes[r.add.value].AddError?
  }

  /** The row waits for an add that was started during the pass. */
  predicate Revived(u: Runtime, next: nat) {
    u.job.status == Adding && u.add.Some? && u.add.value >= next
  }

  /** A status `u` may have only from `r`, from `r`'s own outcome, or by a revive. */
  predicate StatusDescends(r: Runtime, u: Runtime, outcomes: map<nat, AddOutcome>, next: nat) {
    match u.job.status
    case Failed =>
      (r.job.status == Failed && u.job.error == r.job.error)
      || (OwnError(r, outcomes) && u.job.error == Some(AddFailed(outcomes[r.add.value].text)))
      || (OwnReady(r, outcomes) && u.job.error == Some(NoPlayableMedia))
    case Downloading => r.job.status == Downloading || OwnReady(r, outcomes)
    case Adding => r.job.status == Adding || Revived(u, next)
    case _ => u.job.status == r.job.status
  }

  /** `r`'s own outcome was taken, and it is what `u` shows. */
  predicate Applied(r: Runtime, u: Runtime, outcomes: map<nat, AddOutcome>)
    requires HasOutcome(r, outcomes)
  {
    match outcomes[r.add.value]
    case Ready(engine, _, _, _, _) =>
      (u.job.status == Downloading && u.engine == Some(engine))
      || (u.job.status == Failed && u.job.error == Some(NoPlayableMedia))
    case AddError(text) => u.job.status == Failed && u.job.error == Some(AddFailed(text))
    case Cancelled => false
  }

  /** `u` is what became of `r`: everything an add delivers is `r`'s own, or as it was. */
  predicate Descends(r: Runtime, u: Runtime, outcomes: map<nat, AddOutcome>, next: nat) {
    && u.job.jobId == r.job.jobId
    && (u.add == r.add || u.add.None? || Revived(u, next))
    && (u.add.None? && r.add.Some? ==> HasOutcome(r, outcomes) && Applied(r, u, outcomes))
    && (u.engine == r.engine || (OwnReady(r, outcomes) && u.engine == Some(outcomes[r.add.value].engine)))
    && StatusDescends(r, u, outcomes, next)
    && (OwnReady(r, outcomes)
        || (u.job.torrentId == r.job.torrentId && u.job.torrentName == r.job.torrentName
            && u.job.infohash == r.job.infohash && u.details == r.details))
  }

  ghost predicate HasAncestor(from: seq<Runtime>, u: Runtime, outcomes: map<nat, AddOutcome>, next: nat) {
    exists j :: 0 <= j < |from| && Descends(from[j], u, outcomes, next)
  }

  ghost predicate AllDescend(
    from: seq<Runtime>, to: seq<Runtime>, outcomes: map<nat, AddOutcome>, next: nat)
  {
    forall k :: 0 <= k < |to| ==> HasAncestor(from, to[k], outcomes, next)
  }

  ghost predicate HasJob(rows: seq<Runtime>, id: string) {
    exists k :: 0 <= k < |rows| && rows[k].job.jobId == id
  }

  /** A job is gone only if its own add was cancelled or turned out to be another job's torrent. */
  ghost predicate GoneByOwn(from: seq<Runtime>, to: seq<Runtime>, outcomes: map<nat, AddOutcome>) {
    forall j :: 0 <= j < |from| && !HasJob(to, from[j].job.jobId) ==>
      HasOutcome(from[j], outcomes) && !outcomes[from[j].add.value].AddError?
  }

  /** A row that still has an outcome to come has it from its ancestor's own add. */
  lemma OutcomeIsOwn(r: Runtime, u: Runtime, outcomes: map<nat, AddOutcome>, next: nat)
    requires Descends(r, u, outcomes, next) && HasOutcome(u, outcomes) && Started(outcomes, next)
    ensures r.add == u.add
  {
  }

  lemma SettlesDescends(r: Runtime, u: Runtime, outcomes: map<nat, AddOutcome>, next: nat, now: nat)
    requires Descends(r, u, outcomes, next) && OwnReady(u, outcomes) && r.add == u.add
    ensures Descends(r, AddSettles(u, outcomes[u.add.value], now).row, outcomes, next)
  {
  }

  lemma FailsDescends(r: Runtime, u: Runtime, outcomes: map<nat, AddOutcome>, next: nat)
    requires Descends(r, u, outcomes, next) && OwnError(u, outcomes) && r.add == u.add
    ensures Descends(r, AddFails(u, outcomes[u.add.value].text).row, outcomes, next)
  {
  }

  lemma SurvivorDescends(r: Runtime, u: Runtime, outcomes: map<nat, AddOutcome>, next: nat,
                         kept: seq<KeptFile>, pending: seq<Pending>, handle: nat)
    requires Descends(r, u, outcomes, next) && RowOk(u) && handle >= next
    ensures Descends(r, DeliverAll(Recommit(u, kept, None, handle), pending).row, outcomes, next)
  {
    CommitOk(u, "", kept, false, None, handle);
    var row := Recommit(u, kept, None, handle);
    DeliverAllOk(row, pending);
    DeliverAllKeepsDetails(row, pending);
  }

  lemma {:induction false} DeliverAllKeepsDetails(r: Runtime, ps: seq<Pending>)
    ensures DeliverAll(r, ps).row.details == r.details
  {
    if ps != [] {
      DeliverAllKeepsDetails(r, ps[..|ps| - 1]);
    }
  }

  lemma DescendPut(from: seq<Runtime>, to: seq<Runtime>, i: nat, u: Runtime,
                   outcomes: map<nat, AddOutcome>, next: nat)
    requires AllDescend(from, to, outcomes, next) && i < |to| && HasAncestor(from, u, outcomes, next)
    ensures AllDescend(from, to[i := u], outcomes, next)
  {
  }

  lemma DescendWithout(from: seq<Runtime>, to: seq<Runtime>, i: nat, outcomes: map<nat, AddOutcome>, next: nat)
    requires AllDescend(from, to, outcomes, next) && i < |to|
    ensures AllDescend(from, Without(to, i), outcomes, next)
  {
  }

  lemma ResumeOneDescends(from: seq<Runtime>, s: State, i: nat, outcomes: map<nat, AddOutcome>, now: nat, next: nat)
    requires RowsOk(s.rows) && next <= s.next && Started(outcomes, next) && AllDescend(from, s.rows, outcomes, next)
    ensures AllDescend(from, ResumeOne(s, i, outcomes, now).rows, outcomes, next)
    ensures s.next <= ResumeOne(s, i, outcomes, now).next
  {
    if i < |s.rows| && HasOutcome(s.rows[i], outcomes) {
      var u := s.rows[i];
      var o := outcomes[u.add.value];
      assert HasAncestor(from, u, outcomes, next);
      var j :| 0 <= j < |from| && Descends(from[j], u, outcomes, next);
      OutcomeIsOwn(from[j], u, outcomes, next);
      match o
      case Ready(_, _, _, _, _) =>
        var dup := Duplicate(s.rows, i, o.details);
        if dup.Some? {
          MergeDescends(from, s, dup.value, i, outcomes, next);
        } else {
          SettlesDescends(from[j], u, outcomes, next, now);
          DescendPut(from, s.rows, i, AddSettles(u, o, now).row, outcomes, next);
        }
      case Cancelled =>
        DescendWithout(from, s.rows, i, outcomes, next);
      case AddError(text) =>
        FailsDescends(from[j], u, outcomes, next);
        DescendPut(from, s.rows, i, AddFails(u, text).row, outcomes, next);
    }
  }

  lemma MergeDescends(from: seq<Runtime>, s: State, dup: nat, i: nat, outcomes: map<nat, AddOutcome>, next: nat)
    requires RowsOk(s.rows) && next <= s.next && AllDescend(from, s.rows, outcomes, next)
    requires dup < |s.rows| && i < |s.rows| && dup != i
    ensures AllDescend(from, MergeInto(s, dup, i).rows, outcomes, next)
  {
    assert HasAncestor(from, s.rows[dup], outcomes, next);
    var d :| 0 <= d < |from| && Descends(from[d], s.rows[dup], outcomes, next);
    SurvivorDescends(from[d], s.rows[dup], outcomes, next, s.rows[i].job.kept, s.rows[i].pending, s.next);
    var t := DeliverAll(Recommit(s.rows[dup], s.rows[i].job.kept, None, s.next), s.rows[i].pending).row;
    DescendPut(from, s.rows, dup, t, outcomes, next);
    DescendWithout(from, s.rows[dup := t], i, outcomes, next);
  }

  lemma {:induction false} ResumeAlongDescends(
    from: seq<Runtime>, s: State, listed: seq<nat>, outcomes: map<nat, AddOutcome>, now: nat, next: nat)
    requires Sound(s) && next <= s.next && Started(outcomes, next) && AllDescend(from, s.rows, outcomes, next)
    ensures AllDescend(from, ResumeAlong(s, listed, outcomes, now).rows, outcomes, next)
    decreases |listed|
  {
    if listed != [] {
      ResumeOneDescends(from, s, listed[0], outcomes, now, next);
      ResumeOneSound(s, listed[0], outcomes, now);
      ResumeAlongDescends(from, ResumeOne(s, listed[0], outcomes, now), listed[1..], outcomes, now, next);
    }
  }

  lemma ResumeOneKeepsJob(s: State, i: nat, outcomes: map<nat, AddOutcome>, now: nat, k: nat)
    requires k < |s.rows| && RowsOk(s.rows)
    ensures HasJob(ResumeOne(s, i, outcomes, now).rows, s.rows[k].job.jobId)
         || (k == i && HasOutcome(s.rows[i], outcomes) && !outcomes[s.rows[i].add.value].AddError?)
  {
    var t := ResumeOne(s, i, outcomes, now).rows;
    if i < |s.rows| && HasOutcome(s.rows[i], outcomes) && k != i {
      var o := outcomes[s.rows[i].add.value];
      if o.Ready? && Duplicate(s.rows, i, o.details).Some? {
        MergeKeepsJobs(s, Duplicate(s.rows, i, o.details).value, i, k);
      } else if o.Cancelled? {
        assert t[if k < i then k else k - 1] == s.rows[k];
      } else {
        assert t[k] == s.rows[k];
      }
    } else if k < |t| {
      assert k != i ==> t[k] == s.rows[k];
      assert |t| == |s.rows| ==> t[k].job.jobId == s.rows[k].job.jobId;
    }
  }

  lemma MergeKeepsJobs(s: State, dup: nat, i: nat, k: nat)
    requires dup < |s.rows| && i < |s.rows| && dup != i && k < |s.rows| && k != i && RowsOk(s.rows)
    ensures HasJob(MergeInto(s, dup, i).rows, s.rows[k].job.jobId)
  {
    CommitOk(s.rows[dup], "", s.rows[i].job.kept, false, None, s.next);
    DeliverAllOk(Recommit(s.rows[dup], s.rows[i].job.kept, None, s.next), s.rows[i].pending);
    var t := MergeInto(s, dup, i).rows;
    assert t[if k < i then k else k - 1].job.jobId == s.rows[k].job.jobId;
  }

  lemma ResumeOneGone(from: seq<Runtime>, s: State, i: nat, outcomes: map<nat, AddOutcome>, now: nat, next: nat)
    requires RowsOk(s.rows) && UniqueIds(Jobs(from)) && Started(outcomes, next)
    requires AllDescend(from, s.rows, outcomes, next) && GoneByOwn(from, s.rows, outcomes)
    ensures GoneByOwn(from, ResumeOne(s, i, outcomes, now).rows, outcomes)
  {
    var t := ResumeOne(s, i, outcomes, now).rows;
    forall j | 0 <= j < |from| && !HasJob(t, from[j].job.jobId)
      ensures HasOutcome(from[j], outcomes) && !outcomes[from[j].add.value].AddError?
    {
      if HasJob(s.rows, from[j].job.jobId) {
        var k :| 0 <= k < |s.rows| && s.rows[k].job.jobId == from[j].job.jobId;
        ResumeOneKeepsJob(s, i, outcomes, now, k);
        assert HasAncestor(from, s.rows[k], outcomes, next);
        var a :| 0 <= a < |from| && Descends(from[a], s.rows[k], outcomes, next);
        assert Jobs(from)[a].jobId == Jobs(from)[j].jobId;
        OutcomeIsOwn(from[a], s.rows[k], outcomes, next);
      }
    }
  }

  lemma {:induction false} ResumeAlongGone(
    from: seq<Runtime>, s: State, listed: seq<nat>, outcomes: map<nat, AddOutcome>, now: nat, next: nat)
    requires Sound(s) && UniqueIds(Jobs(from)) && next <= s.next && Started(outcomes, next)
    requires AllDescend(from, s.rows, outcomes, next) && GoneByOwn(from, s.rows, outcomes)
    ensures GoneByOwn(from, ResumeAlong(s, listed, outcomes, now).rows, outcomes)
    decreases |listed|
  {
    if listed != [] {
      ResumeOneDescends(from, s, listed[0], outcomes, now, next);
      ResumeOneGone(from, s, listed[0], outcomes, now, next);
      ResumeOneSound(s, listed[0], outcomes, now);
      ResumeAlongGone(from, ResumeOne(s, listed[0], outcomes, now), listed[1..], outcomes, now, next);
    }
  }

  /** After a pass every row carries its own former engine, status and names or what its own add brought, an
      outcome that was taken is what its row shows, and a job is gone only by its own outcome. */
  lemma OutcomesReachTheirOwnRow(s: State, outcomes: map<nat, AddOutcome>, now: nat)
    requires Sound(s) && Started(outcomes, s.next)
    ensures AllDescend(s.rows, ResumeAdds(s, outcomes, now).rows, outcomes, s.next)
    ensures GoneByOwn(s.rows, ResumeAdds(s, outcomes, now).rows, outcomes)
  {
    assert forall k :: 0 <= k < |s.rows| ==> Descends(s.rows[k], s.rows[k], outcomes, s.next);
    assert forall k :: 0 <= k < |s.rows| ==> HasJob(s.rows, s.rows[k].job.jobId);
    ResumeAlongDescends(s.rows, s, AddsInFlight(s.rows), outcomes, now, s.next);
    ResumeAlongGone(s.rows, s, AddsInFlight(s.rows), outcomes, now, s.next);
  }

  // ---- adds that are not ready stay in flight, but for one case -----------------------------

  /** Row `i`'s finished add is merged into row `k`, whose job failed with its engine still there: the
      commit revives it and replaces its add. */
  predicate Replaces(s: State, i: nat, outcomes: map<nat, AddOutcome>, k: nat) {
    && i < |s.rows| && k < |s.rows| && OwnReady(s.rows[i], outcomes)
    && Duplicate(s.rows, i, outcomes[s.rows[i].add.value].details) == Some(k)
    && !s.rows[k].job.status.Active()
  }

  lemma UnreadyReplacedIff(s: State, i: nat, outcomes: map<nat, AddOutcome>, now: nat, k: nat)
    requires Sound(s) && k < |s.rows| && s.rows[k].add.Some? && s.rows[k].add.value !in outcomes
    ensures HeldBy(ResumeOne(s, i, outcomes, now).rows, s.rows[k].job.jobId, s.rows[k].add.value)
       <==> !Replaces(s, i, outcomes, k)
  {
    var t := ResumeOne(s, i, outcomes, now);
    var h := s.rows[k].add.value;
    if i < |s.rows| && HasOutcome(s.rows[i], outcomes) {
      var o := outcomes[s.rows[i].add.value];
      if o.Ready? && Duplicate(s.rows, i, o.details).Some? {
        var dup := Duplicate(s.rows, i, o.details).value;
        if Replaces(s, i, outcomes, k) {
          MergeDrops(s, k, i);
          HeldByHeld(t.rows, s.rows[k].job.jobId, h);
        } else {
          MergeHolds(s, dup, i, k);
        }
      } else if o.Cancelled? {
        assert t.rows[if k < i then k else k - 1] == s.rows[k];
      } else {
        assert t.rows[k] == s.rows[k];
      }
    }
  }

  lemma MergeHolds(s: State, dup: nat, i: nat, k: nat)
    requires Sound(s) && dup < |s.rows| && i < |s.rows| && dup != i && k < |s.rows| && k != i && s.rows[k].add.Some?
    requires dup == k ==> s.rows[k].job.status.Active()
    ensures HeldBy(MergeInto(s, dup, i).rows, s.rows[k].job.jobId, s.rows[k].add.value)
  {
    CommitOk(s.rows[dup], "", s.rows[i].job.kept, false, None, s.next);
    DeliverAllOk(Recommit(s.rows[dup], s.rows[i].job.kept, None, s.next), s.rows[i].pending);
    var now := MergeInto(s, dup, i).rows[if k < i then k else k - 1];
    assert now.job.jobId == s.rows[k].job.jobId && now.add == s.rows[k].add;
  }

  /** The revive of a failed survivor starts a new add; the old one is nobody's any more. */
  lemma MergeDrops(s: State, k: nat, i: nat)
    requires Sound(s) && k < |s.rows| && i < |s.rows| && k != i
    requires s.rows[k].add.Some? && !s.rows[k].job.status.Active()
    ensures !Held(MergeInto(s, k, i).rows, s.rows[k].add.value)
  {
    CommitOk(s.rows[k], "", s.rows[i].job.kept, false, None, s.next);
    DeliverAllOk(Recommit(s.rows[k], s.rows[i].job.kept, None, s.next), s.rows[i].pending);
    var t := MergeInto(s, k, i).rows;
    forall m | 0 <= m < |t| ensures t[m].add != s.rows[k].add {
      var was := if m < i then m else m + 1;
      assert was != k ==> t[m] == s.rows[was];
    }
  }

  ghost predicate ReplacesJob(s: State, i: nat, outcomes: map<nat, AddOutcome>, id: string) {
    exists k :: 0 <= k < |s.rows| && s.rows[k].job.jobId == id && Replaces(s, i, outcomes, k)
  }

  lemma ReplacesJobIff(s: State, i: nat, outcomes: map<nat, AddOutcome>, k: nat)
    requires UniqueIds(Jobs(s.rows)) && k < |s.rows|
    ensures ReplacesJob(s, i, outcomes, s.rows[k].job.jobId) <==> Replaces(s, i, outcomes, k)
  {
    if m :| 0 <= m < |s.rows| && s.rows[m].job.jobId == s.rows[k].job.jobId && Replaces(s, i, outcomes, m) {
      assert Jobs(s.rows)[m].jobId == Jobs(s.rows)[k].jobId;
    }
  }

  /** Some index of the pass replaces the add of job `id` that way. */
  ghost predicate ReplacedAlong(s: State, listed: seq<nat>, outcomes: map<nat, AddOutcome>, now: nat, id: string)
    decreases |listed|
  {
    listed != [] &&
    (ReplacesJob(s, listed[0], outcomes, id)
     || ReplacedAlong(ResumeOne(s, listed[0], outcomes, now), listed[1..], outcomes, now, id))
  }

  lemma {:induction false} NeverBack(s: State, listed: seq<nat>, outcomes: map<nat, AddOutcome>, now: nat, h: nat)
    requires Sound(s) && h < s.next && !Held(s.rows, h)
    ensures !Held(ResumeAlong(s, listed, outcomes, now).rows, h)
    decreases |listed|
  {
    if listed != [] {
      var t := ResumeOne(s, listed[0], outcomes, now);
      if Held(t.rows, h) {
        ResumeOneHolds(s, listed[0], outcomes, now, h);
      }
      ResumeOneSound(s, listed[0], outcomes, now);
      ResumeOneNext(s, listed[0], outcomes, now);
      NeverBack(t, listed[1..], outcomes, now, h);
    }
  }

  lemma ResumeOneNext(s: State, i: nat, outcomes: map<nat, AddOutcome>, now: nat)
    ensures s.next <= ResumeOne(s, i, outcomes, now).next
  {
  }

  /** A job whose add has no result yet keeps it over the pass, wherever merges move the row, if and only if
      no finished add of the pass is merged into the job while it has failed. */
  lemma {:induction false} UnreadyStays(
    s: State, listed: seq<nat>, outcomes: map<nat, AddOutcome>, now: nat, id: string, h: nat)
    requires Sound(s) && HeldBy(s.rows, id, h) && h !in outcomes
    ensures HeldBy(ResumeAlong(s, listed, outcomes, now).rows, id, h)
       <==> !ReplacedAlong(s, listed, outcomes, now, id)
    ensures ReplacedAlong(s, listed, outcomes, now, id) ==> !Held(ResumeAlong(s, listed, outcomes, now).rows, h)
    decreases |listed|
  {
    if listed != [] {
      var t := ResumeOne(s, listed[0], outcomes, now);
      var k :| 0 <= k < |s.rows| && s.rows[k].job.jobId == id && s.rows[k].add == Some(h);
      UnreadyReplacedIff(s, listed[0], outcomes, now, k);
      ResumeOneSound(s, listed[0], outcomes, now);
      ReplacesJobIff(s, listed[0], outcomes, k);
      if Replaces(s, listed[0], outcomes, k) {
        MergeDrops(s, k, listed[0]);
        ResumeOneNext(s, listed[0], outcomes, now);
        NeverBack(t, listed[1..], outcomes, now, h);
        HeldByHeld(ResumeAlong(t, listed[1..], outcomes, now).rows, id, h);
      } else {
        UnreadyStays(t, listed[1..], outcomes, now, id, h);
      }
    }
  }

  lemma HeldByHeld(rows: seq<Runtime>, id: string, h: nat)
    ensures HeldBy(rows, id, h) ==> Held(rows, h)
  {
  }

  /** The request drops row `k`, or commits to it while its job has failed. */
  predicate EndsAdd(s: State, q: Request, k: nat)
    requires k < |s.rows|
  {
    if q.Drop? then DropTarget(s.rows, q) == Some(k)
    else q.Enqueue? && !s.rows[k].job.status.Active()
         && FindExisting(s.rows, LowerHash(q.infohash), Some(q.sourceKey)) == Some(k)
  }

  lemma RequestEndsAdd(s: State, q: Request, jobId: string, live: bool, now: nat, k: nat)
    requires Sound(s) && k < |s.rows| && s.rows[k].add.Some? && EndsAdd(s, q, k)
    ensures !Held(HandleRequest(s, q, jobId, live, now).rows, s.rows[k].add.value)
  {
    var t := HandleRequest(s, q, jobId, live, now).rows;
    if q.Drop? {
      forall m | 0 <= m < |t| ensures t[m].add != s.rows[k].add {
        assert t[m] == s.rows[if m < k then m else m + 1];
      }
    } else {
      CommitOk(s.rows[k], q.id, q.files, q.play, LowerHash(q.infohash), s.next);
      assert forall m :: 0 <= m < |t| && m != k ==> t[m] == s.rows[m];
    }
  }

  /** Over a request a job keeps its add in flight if and only if the request neither drops it nor commits
      to it after it has failed. */
  lemma RequestKeepsAddIff(s: State, q: Request, jobId: string, live: bool, now: nat, k: nat)
    requires Sound(s) && k < |s.rows| && s.rows[k].add.Some?
    ensures HeldBy(HandleRequest(s, q, jobId, live, now).rows, s.rows[k].job.jobId, s.rows[k].add.value)
       <==> !EndsAdd(s, q, k)
  {
    var t := HandleRequest(s, q, jobId, live, now).rows;
    if EndsAdd(s, q, k) {
      RequestEndsAdd(s, q, jobId, live, now, k);
      HeldByHeld(t, s.rows[k].job.jobId, s.rows[k].add.value);
    } else {
      var at := if q.Drop? && DropTarget(s.rows, q).Some? && DropTarget(s.rows, q).value < k then k - 1 else k;
      assert t[at].job.jobId == s.rows[k].job.jobId && t[at].add == s.rows[k].add;
    }
  }

  // ---- every pass with a finished add consumes one ----------------------------------------

  /** The handles whose outcome waits for a row. */
  ghost function ReadyHandles(rows: seq<Runtime>, outcomes: map<nat, AddOutcome>): set<nat> {
    set h | h in outcomes && Held(rows, h)
  }

  lemma HeldPut(rows: seq<Runtime>, i: nat, r: Runtime, h: nat)
    requires i < |rows| && (r.add == rows[i].add || r.add != Some(h)) && Held(rows[i := r], h)
    ensures Held(rows, h)
  {
  }

  lemma HeldWithout(rows: seq<Runtime>, i: nat, h: nat)
    requires i < |rows| && Held(Without(rows, i), h)
    ensures exists k :: 0 <= k < |rows| && k != i && rows[k].add == Some(h)
  {
  }

  /** An index of the pass brings no old handle back, and the handle it consumes is gone. */
  lemma ResumeOneHolds(s: State, i: nat, outcomes: map<nat, AddOutcome>, now: nat, h: nat)
    requires Sound(s) && h < s.next && Held(ResumeOne(s, i, outcomes, now).rows, h)
    ensures Held(s.rows, h)
    ensures i < |s.rows| && HasOutcome(s.rows[i], outcomes) ==> s.rows[i].add != Some(h)
  {
    if i < |s.rows| && HasOutcome(s.rows[i], outcomes) {
      var o := outcomes[s.rows[i].add.value];
      match o
      case Ready(_, _, _, _, _) =>
        var dup := Duplicate(s.rows, i, o.details);
        if dup.Some? {
          var row := Recommit(s.rows[dup.value], s.rows[i].job.kept, None, s.next);
          CommitOk(s.rows[dup.value], "", s.rows[i].job.kept, false, None, s.next);
          DeliverAllOk(row, s.rows[i].pending);
          var put := s.rows[dup.value := DeliverAll(row, s.rows[i].pending).row];
          HeldWithout(put, i, h);
          HeldPut(s.rows, dup.value, put[dup.value], h);
        } else {
          HeldPut(s.rows, i, AddSettles(s.rows[i], o, now).row, h);
        }
      case Cancelled => HeldWithout(s.rows, i, h);
      case AddError(text) => HeldPut(s.rows, i, AddFails(s.rows[i], text).row, h);
    }
  }

  lemma ResumeOneShrinks(s: State, i: nat, outcomes: map<nat, AddOutcome>, now: nat)
    requires Sound(s) && Started(outcomes, s.next)
    ensures Started(outcomes, ResumeOne(s, i, outcomes, now).next)
    ensures ReadyHandles(ResumeOne(s, i, outcomes, now).rows, outcomes) <= ReadyHandles(s.rows, outcomes)
    ensures i < |s.rows| && HasOutcome(s.rows[i], outcomes) ==>
      s.rows[i].add.value !in ReadyHandles(ResumeOne(s, i, outcomes, now).rows, outcomes)
  {
    var t := ResumeOne(s, i, outcomes, now);
    forall h | h in ReadyHandles(t.rows, outcomes)
      ensures h in ReadyHandles(s.rows, outcomes)
      ensures i < |s.rows| && HasOutcome(s.rows[i], outcomes) ==> s.rows[i].add != Some(h)
    {
      ResumeOneHolds(s, i, outcomes, now, h);
    }
  }

  ghost predicate ReadyAt(s: State, i: nat, outcomes: map<nat, AddOutcome>) {
    i < |s.rows| && HasOutcome(s.rows[i], outcomes)
  }

  lemma {:induction false} ResumeAlongShrinks(
    s: State, listed: seq<nat>, outcomes: map<nat, AddOutcome>, now: nat)
    requires Sound(s) && Started(outcomes, s.next)
    ensures var t := ResumeAlong(s, listed, outcomes, now);
      && Sound(t) && Started(outcomes, t.next)
      && ReadyHandles(t.rows, outcomes) <= ReadyHandles(s.rows, outcomes)
    ensures (exists i :: i in listed && ReadyAt(s, i, outcomes)) ==>
      ReadyHandles(ResumeAlong(s, listed, outcomes, now).rows, outcomes) != ReadyHandles(s.rows, outcomes)
    decreases |listed|
  {
    if listed != [] {
      ResumeOneShrinks(s, listed[0], outcomes, now);
      ResumeOneSound(s, listed[0], outcomes, now);
      ResumeAlongShrinks(ResumeOne(s, listed[0], outcomes, now), listed[1..], outcomes, now);
      if ReadyAt(s, listed[0], outcomes) {
        assert s.rows[listed[0]].add.value in ReadyHandles(s.rows, outcomes);
      } else if i :| i in listed && ReadyAt(s, i, outcomes) {
        assert i in listed[1..];
      }
    }
  }

  /** A pass that finds a finished add consumes at least one, wherever the merges move it. */
  lemma PassConsumes(s: State, outcomes: map<nat, AddOutcome>, now: nat)
    requires Sound(s) && Started(outcomes, s.next)
    ensures var t := ResumeAdds(s, outcomes, now);
      && Sound(t) && Started(outcomes, t.next)
      && (ReadyHandles(t.rows, outcomes) < ReadyHandles(s.rows, outcomes) || ReadyHandles(s.rows, outcomes) == {})
  {
    ResumeAlongShrinks(s, AddsInFlight(s.rows), outcomes, now);
    if h :| h in ReadyHandles(s.rows, outcomes) {
      var i :| 0 <= i < |s.rows| && s.rows[i].add == Some(h);
      InFlightExactly(s.rows, i);
      assert ReadyAt(s, i, outcomes);
    }
  }

  function Passes(s: State, n: nat, outcomes: map<nat, AddOutcome>, now: nat): State
    decreases n
  {
    if n == 0 then s else Passes(ResumeAdds(s, outcomes, now), n - 1, outcomes, now)
  }

  /** However merges shift the rows, as many passes as there are finished adds drain them all. */
  lemma {:induction false} PassesDrain(s: State, n: nat, outcomes: map<nat, AddOutcome>, now: nat)
    requires Sound(s) && Started(outcomes, s.next) && |ReadyHandles(s.rows, outcomes)| <= n
    ensures ReadyHandles(Passes(s, n, outcomes, now).rows, outcomes) == {}
    decreases n
  {
    if n > 0 {
      var before := ReadyHandles(s.rows, outcomes);
      var after := ReadyHandles(ResumeAdds(s, outcomes, now).rows, outcomes);
      PassConsumes(s, outcomes, now);
      ResumeAlongShrinks(s, AddsInFlight(s.rows), outcomes, now);
      if after < before {
        SmallerSet(after, before);
      }
      PassesDrain(ResumeAdds(s, outcomes, now), n - 1, outcomes, now);
    }
  }

  lemma SmallerSet(a: set<nat>, b: set<nat>)
    requires a < b
    ensures |a| < |b|
  {
    var x :| x in b && x !in a;
    assert |a| <= |b - {x}| by {
      SubsetSize(a, b - {x});
    }
  }

  lemma {:induction false} SubsetSize(a: set<nat>, b: set<nat>)
    requires a <= b
    ensures |a| <= |b|
  {
    if x :| x in a {
      SubsetSize(a - {x}, b - {x});
    }
  }
}
