/** What the result of an add comes to: the job settles, fails, disappears, or is merged into another. */
module DlMerges {
  import opened Common
  import opened DlJobs
  import opened DlRows
  import opened DlSteps
  import opened DlInvariants
  import opened DlFiles
  import opened DlReplies
  import opened DlTicks

  // ---- which job an add is merged into ----------------------------------------------------

  /** The hash a delivered torrent is known by: what its engine reports, or else what its job has. */
  function KnownHash(r: Runtime, d: Details): Option<string> {
    if d.infoHash.Some? then Some(Lower(d.infoHash.value)) else r.job.infohash
  }

  predicate Runs(r: Runtime, hash: Option<string>) { hash.Some? && r.engine.Some? && r.job.infohash == hash }

  /** Row `k` is another job, the first of those that run this torrent. */
  ghost predicate RunsFirst(rows: seq<Runtime>, i: nat, d: Details, k: nat)
    requires i < |rows|
  {
    var hash := KnownHash(rows[i], d);
    k < |rows| && k != i && Runs(rows[k], hash) && forall j :: 0 <= j < k ==> !Runs(rows[j], hash)
  }

  lemma DuplicateIff(rows: seq<Runtime>, i: nat, d: Details)
    requires i < |rows|
    ensures forall k: nat :: RunsFirst(rows, i, d, k) <==> Duplicate(rows, i, d) == Some(k)
  {
    var hash := KnownHash(rows[i], d);
    if hash.Some? {
      forall j | 0 <= j < |rows| ensures Matches(rows[j], ByLiveHash(hash.value)) <==> Runs(rows[j], hash) {
      }
    }
  }

  // ---- merging ----------------------------------------------------------------------------

  /** The other rows, in their order. */
  ghost predicate OthersStay(rows: seq<Runtime>, after: seq<Runtime>, i: nat, changed: nat)
    requires i < |rows|
  {
    && |after| == |rows| - 1
    && forall j :: 0 <= j < |rows| && j != i && j != changed ==> after[if j < i then j else j - 1] == rows[j]
  }

  /** The survivor keeps the files of the job that went, unless that had none, and starts an add if it had
      ended. If its engine can answer it answers the queue of the job that went; else it takes it over. */
  ghost predicate Survives(s: State, t: State, dup: nat, i: nat, u: Runtime)
    requires dup < |s.rows| && i < |s.rows|
  {
    var r, gone := s.rows[dup], s.rows[i];
    if r.engine.Some? && r.add.None? && !Ended(r) then
      && Commits(r, u, gone.job.kept, None, s.next) && u.details.Some?
      && |t.said| == |s.said| + |gone.pending| && t.said[..|s.said|] == s.said
      && forall k :: 0 <= k < |gone.pending| ==> Answers(u, gone.pending[k], t.said[|s.said| + k])
    else
      && u.pending == r.pending + gone.pending && t.said == s.said
      && Commits(r, u.(pending := r.pending), gone.job.kept, None, s.next)
  }

  ghost predicate Merged(s: State, t: State, dup: nat, i: nat)
    requires dup < |s.rows| && i < |s.rows| && dup != i
  {
    && OthersStay(s.rows, t.rows, i, dup) && t.dropped == s.dropped && t.cancelled == s.cancelled
    && Survives(s, t, dup, i, t.rows[if dup < i then dup else dup - 1])
  }

  lemma {:induction false} DeliveredAll(r: Runtime, ps: seq<Pending>)
    requires RowOk(r)
    ensures EngineReady(r) ==> DeliverAll(r, ps).row == r
    ensures EngineReady(r) ==> |DeliverAll(r, ps).said| == |ps|
    ensures EngineReady(r) ==> forall k :: 0 <= k < |ps| ==> Answers(r, ps[k], DeliverAll(r, ps).said[k])
    ensures !EngineReady(r) ==>
      DeliverAll(r, ps).row == r.(pending := r.pending + ps) && DeliverAll(r, ps).said == []
  {
    if ps == [] {
      assert r.pending + ps == r.pending;
    } else {
      var before, last := ps[..|ps| - 1], ps[|ps| - 1];
      DeliveredAll(r, before);
      if EngineReady(r) {
        RespondAnswers(r, last);
      } else {
        assert r.pending + before + [last] == r.pending + ps;
      }
    }
  }

  lemma SurvivorRow(r: Runtime, kept: seq<KeptFile>, handle: nat, ps: seq<Pending>)
    requires RowOk(r)
    ensures var c, o := Recommit(r, kept, None, handle), DeliverAll(Recommit(r, kept, None, handle), ps);
      && Commits(r, c, kept, None, handle) && RowOk(c)
      && if r.engine.Some? && r.add.None? && !Ended(r) then
           && o.row == c && c.details.Some? && |o.said| == |ps|
           && forall k :: 0 <= k < |ps| ==> Answers(c, ps[k], o.said[k])
         else o.row == c.(pending := r.pending + ps) && o.said == []
  {
    CommitOk(r, "", kept, false, None, handle);
    RecommitCommits(r, kept, None, handle);
    DeliveredAll(Recommit(r, kept, None, handle), ps);
  }

  lemma MergeDoes(s: State, dup: nat, i: nat)
    requires RowsOk(s.rows) && dup < |s.rows| && i < |s.rows| && dup != i
    ensures Merged(s, MergeInto(s, dup, i), dup, i)
  {
    var r, gone := s.rows[dup], s.rows[i];
    var o := DeliverAll(Recommit(r, gone.job.kept, None, s.next), gone.pending);
    var t := MergeInto(s, dup, i);
    SurvivorRow(r, gone.job.kept, s.next, gone.pending);
    SurvivorStays(s, t, dup, i, o.row, o.said);
    RowsAfterMerge(s, dup, i, o);
  }

  lemma RowsAfterMerge(s: State, dup: nat, i: nat, o: Outcome)
    requires dup < |s.rows| && i < |s.rows| && dup != i
    requires o == DeliverAll(Recommit(s.rows[dup], s.rows[i].job.kept, None, s.next), s.rows[i].pending)
    ensures var t := MergeInto(s, dup, i);
      && OthersStay(s.rows, t.rows, i, dup) && t.rows[if dup < i then dup else dup - 1] == o.row
      && t.said == s.said + o.said && t.dropped == s.dropped && t.cancelled == s.cancelled
  {
    var put := s.rows[dup := o.row];
    assert MergeInto(s, dup, i).rows == put[..i] + put[i + 1..];
  }

  lemma SurvivorStays(s: State, t: State, dup: nat, i: nat, u: Runtime, said: seq<Response>)
    requires dup < |s.rows| && i < |s.rows| && t.said == s.said + said
    requires var r, gone := s.rows[dup], s.rows[i];
      if r.engine.Some? && r.add.None? && !Ended(r) then
        && Commits(r, u, gone.job.kept, None, s.next) && u.details.Some? && |said| == |gone.pending|
        && forall k :: 0 <= k < |gone.pending| ==> Answers(u, gone.pending[k], said[k])
      else
        && said == [] && u.pending == r.pending + gone.pending
        && Commits(r, u.(pending := r.pending), gone.job.kept, None, s.next)
    ensures Survives(s, t, dup, i, u)
  {
    assert s.said + [] == s.said;
    assert forall k :: 0 <= k < |said| ==> t.said[|s.said| + k] == said[k];
  }

  // ---- settling ---------------------------------------------------------------------------

  /** What the job keeps of the delivered torrent: what it kept before, or else the best file. */
  ghost predicate Keeps(r: Runtime, d: Details, kept: seq<KeptFile>) {
    Picks(r.job.kept, Some(d), kept)
  }

  /** The engine was told to fetch less than the whole torrent, and did as it was told. */
  predicate Narrowed(kept: seq<KeptFile>, o: AddOutcome)
    requires o.Ready?
  {
    |kept| < |o.details.files| && o.restricted.Some?
  }

  predicate Selected(kept: seq<KeptFile>, selection: Option<seq<nat>>) {
    && selection.Some? && |selection.value| == |kept|
    && forall k :: 0 <= k < |kept| ==> selection.value[k] == kept[k].index
  }

  /** The row after its own torrent was delivered: it runs the new engine, whose torrent id is the one of the
      narrowed torrent if there is one; or, with nothing to play, it fails and refuses its queue. A hash the job
      has stays, one it lacks is adopted. What waits, waits since now if it had no anchor. */
  ghost predicate Settles(r: Runtime, t: Runtime, o: AddOutcome, now: nat, said: seq<Response>)
    requires o.Ready?
  {
    && Keeps(r, o.details, t.job.kept)
    && t.job.infohash == (if r.job.infohash.Some? then r.job.infohash else KnownHash(r, o.details))
    && t.job.torrentName == o.torrentName && t.add.None?
    && if t.job.kept == [] then
         && t.job.status == Failed && t.job.error == Some(NoPlayableMedia)
         && AllRefused(r.pending, NoPlayableMedia, said)
         && t.pending == [] && t.engine == r.engine && t.details == r.details && t.pendingSince == r.pendingSince
         && t.job.torrentId == Some(o.torrentId) && t.appliedSelection == r.appliedSelection
       else
         && t.job.status == Downloading && t.job.error.None? && said == []
         && t.engine == Some(o.engine) && t.details == Some(o.details)
         && t.job.torrentId == Some(if Narrowed(t.job.kept, o) then o.restricted.value else o.torrentId)
         && (if Narrowed(t.job.kept, o) then Selected(t.job.kept, t.appliedSelection)
             else t.appliedSelection == r.appliedSelection)
         && t.pending == r.pending
         && t.pendingSince == if r.pending != [] && r.pendingSince.None? then Some(now) else r.pendingSince
  }

  /** What settling leaves alone. */
  ghost predicate SameOtherwise(r: Runtime, t: Runtime) {
    && t.job.jobId == r.job.jobId && t.job.requestId == r.job.requestId && t.job.sourceKey == r.job.sourceKey
    && t.job.fileProgress == r.job.fileProgress && t.job.doneAt == r.job.doneAt && t.job.movedTo == r.job.movedTo
    && t.moveDeferSince == r.moveDeferSince
  }

  lemma SettleDoes(r: Runtime, o: AddOutcome, now: nat)
    requires o.Ready?
    ensures Settles(r, AddSettles(r, o, now).row, o, now, AddSettles(r, o, now).said)
    ensures SameOtherwise(r, AddSettles(r, o, now).row)
  {
    PicksArePicked(r.(details := Some(o.details)));
  }

  // ---- every result of an add -------------------------------------------------------------

  /** Only row `i` changes, and the responses are appended. */
  ghost predicate OnlyRow(s: State, t: State, i: nat, said: seq<Response>)
    requires i < |s.rows|
  {
    |t.rows| == |s.rows| && t.rows == s.rows[i := t.rows[i]] && t.said == s.said + said
    && t.dropped == s.dropped && t.cancelled == s.cancelled
  }

  /** One finished add: its torrent runs for another job already, and its own job is merged into that one; or
      it settles on its own job; or it was cancelled, and the job goes; or it failed, and the job with it. */
  lemma AddDoes(s: State, i: nat, outcomes: map<nat, AddOutcome>, now: nat)
    requires RowsOk(s.rows) && i < |s.rows| && HasOutcome(s.rows[i], outcomes)
    ensures var r, t, o := s.rows[i], ResumeOne(s, i, outcomes, now), outcomes[s.rows[i].add.value];
      match o
      case Ready(_, _, _, _, _) =>
        && (forall k: nat :: RunsFirst(s.rows, i, o.details, k) ==> Merged(s, t, k, i))
        && ((forall k: nat :: !RunsFirst(s.rows, i, o.details, k)) ==>
              exists said :: OnlyRow(s, t, i, said) && Settles(r, t.rows[i], o, now, said)
                             && SameOtherwise(r, t.rows[i]))
      case Cancelled =>
        && OthersStay(s.rows, t.rows, i, i) && t.said == s.said && |t.dropped| == |s.dropped| + |r.pending|
        && forall k :: 0 <= k < |r.pending| ==> t.dropped[|s.dropped| + k] == r.pending[k].requestId
      case AddError(text) =>
        exists said :: OnlyRow(s, t, i, said) && AllRefused(r.pending, AddFailed(text), said)
          && t.rows[i].job == r.job.(status := Failed, error := Some(AddFailed(text)))
          && t.rows[i] == r.(job := t.rows[i].job, pending := [], add := None)
  {
    var r, t, o := s.rows[i], ResumeOne(s, i, outcomes, now), outcomes[s.rows[i].add.value];
    match o
    case Ready(_, _, _, _, _) =>
      DuplicateIff(s.rows, i, o.details);
      var dup := Duplicate(s.rows, i, o.details);
      if dup.Some? {
        assert RunsFirst(s.rows, i, o.details, dup.value);
        MergeDoes(s, dup.value, i);
      } else {
        SettleDoes(r, o, now);
        assert OnlyRow(s, t, i, AddSettles(r, o, now).said);
      }
    case Cancelled =>
    case AddError(text) =>
      assert OnlyRow(s, t, i, RefuseAll(r.pending, AddFailed(text)));
  }

  // ---- the files a job keeps over a whole pass --------------------------------------------

  ghost predicate KeepsFiles(rows: seq<Runtime>, id: string, kept: seq<KeptFile>) {
    exists k :: 0 <= k < |rows| && rows[k].job.jobId == id && rows[k].job.kept == kept
  }

  /** The finished add of row `i` is of a torrent that job `id` runs: row `i` is merged into it. */
  ghost predicate MergesInto(s: State, i: nat, outcomes: map<nat, AddOutcome>, id: string) {
    && i < |s.rows| && HasOutcome(s.rows[i], outcomes) && outcomes[s.rows[i].add.value].Ready?
    && exists k: nat :: RunsFirst(s.rows, i, outcomes[s.rows[i].add.value].details, k) && s.rows[k].job.jobId == id
  }

  /** Job `id`'s own torrent was delivered, and the job keeps nothing yet. */
  ghost predicate PicksOwn(s: State, i: nat, outcomes: map<nat, AddOutcome>, id: string) {
    && i < |s.rows| && s.rows[i].job.jobId == id && s.rows[i].job.kept == []
    && HasOutcome(s.rows[i], outcomes) && outcomes[s.rows[i].add.value].Ready?
  }

  /** Over the pass job `id` keeps the files of the last job with files that was merged into it, or its own; it
      comes to a pick only when it had none. `kept` are its files before. */
  ghost predicate LastFiles(s: State, listed: seq<nat>, outcomes: map<nat, AddOutcome>, now: nat, id: string,
                            kept: seq<KeptFile>, after: seq<KeptFile>)
    decreases |listed|
  {
    if listed == [] then after == kept
    else
      var t := ResumeOne(s, listed[0], outcomes, now);
      if MergesInto(s, listed[0], outcomes, id) && s.rows[listed[0]].job.kept != [] then
        LastFiles(t, listed[1..], outcomes, now, id, s.rows[listed[0]].job.kept, after)
      else if PicksOwn(s, listed[0], outcomes, id) then
        exists own :: Keeps(s.rows[listed[0]], outcomes[s.rows[listed[0]].add.value].details, own)
                      && LastFiles(t, listed[1..], outcomes, now, id, own, after)
      else LastFiles(t, listed[1..], outcomes, now, id, kept, after)
  }

  lemma DuplicateRuns(s: State, i: nat, outcomes: map<nat, AddOutcome>, now: nat)
    requires i < |s.rows| && HasOutcome(s.rows[i], outcomes)
    ensures var o := outcomes[s.rows[i].add.value];
      o.Ready? ==>
        var dup := Duplicate(s.rows, i, o.details);
        if dup.Some? then RunsFirst(s.rows, i, o.details, dup.value)
        else forall k: nat :: !RunsFirst(s.rows, i, o.details, k)
  {
    if outcomes[s.rows[i].add.value].Ready? {
      DuplicateIff(s.rows, i, outcomes[s.rows[i].add.value].details);
    }
  }

  /** The row of `s` that is at `m` after row `i` may have been taken out. */
  function CameFrom(s: State, t: State, i: nat, m: nat): nat { if |t.rows| < |s.rows| && m >= i then m + 1 else m }

  lemma MergedIds(s: State, t: State, dup: nat, i: nat, m: nat)
    requires dup < |s.rows| && i < |s.rows| && dup != i && Merged(s, t, dup, i) && m < |t.rows|
    ensures t.rows[m].job.jobId == s.rows[if m < i then m else m + 1].job.jobId
  {
    var at := if m < i then m else m + 1;
    assert m == if at < i then at else at - 1;
  }

  lemma OthersIds(s: State, t: State, i: nat, m: nat)
    requires i < |s.rows| && OthersStay(s.rows, t.rows, i, i) && m < |t.rows|
    ensures t.rows[m].job.jobId == s.rows[if m < i then m else m + 1].job.jobId
  {
    var at := if m < i then m else m + 1;
    assert m == if at < i then at else at - 1;
  }

  /** No finished add makes a job or changes the order of the jobs. */
  lemma JobsStay(s: State, i: nat, outcomes: map<nat, AddOutcome>, now: nat, m: nat)
    requires RowsOk(s.rows) && m < |ResumeOne(s, i, outcomes, now).rows|
    ensures var t := ResumeOne(s, i, outcomes, now);
      CameFrom(s, t, i, m) < |s.rows| && t.rows[m].job.jobId == s.rows[CameFrom(s, t, i, m)].job.jobId
  {
    var t := ResumeOne(s, i, outcomes, now);
    if i < |s.rows| && HasOutcome(s.rows[i], outcomes) {
      var o := outcomes[s.rows[i].add.value];
      AddDoes(s, i, outcomes, now);
      DuplicateRuns(s, i, outcomes, now);
      if o.Ready? && Duplicate(s.rows, i, o.details).Some? {
        MergedIds(s, t, Duplicate(s.rows, i, o.details).value, i, m);
      } else if o.Cancelled? {
        OthersIds(s, t, i, m);
      }
    }
  }

  ghost predicate HasJob(rows: seq<Runtime>, id: string) {
    exists k :: 0 <= k < |rows| && rows[k].job.jobId == id
  }

  /** The files job `id` keeps after one finished add. */
  ghost predicate FilesAfter(s: State, i: nat, outcomes: map<nat, AddOutcome>, id: string,
                             kept: seq<KeptFile>, after: seq<KeptFile>)
  {
    if MergesInto(s, i, outcomes, id) && s.rows[i].job.kept != [] then after == s.rows[i].job.kept
    else if PicksOwn(s, i, outcomes, id) then
      Keeps(s.rows[i], outcomes[s.rows[i].add.value].details, after)
    else after == kept
  }

  lemma RowKeeps(s: State, i: nat, outcomes: map<nat, AddOutcome>, now: nat, k: nat)
    requires Sound(s) && k < |s.rows|
    ensures var r, t := s.rows[k], ResumeOne(s, i, outcomes, now);
      if |t.rows| < |s.rows| && k == i then !HasJob(t.rows, r.job.jobId)
      else
        var at := if |t.rows| < |s.rows| && k > i then k - 1 else k;
        && at < |t.rows| && t.rows[at].job.jobId == r.job.jobId
        && FilesAfter(s, i, outcomes, r.job.jobId, r.job.kept, t.rows[at].job.kept)
  {
    if i < |s.rows| && HasOutcome(s.rows[i], outcomes) {
      forall j | 0 <= j < |s.rows| && s.rows[j].job.jobId == s.rows[k].job.jobId ensures j == k {
        assert Jobs(s.rows)[j].jobId == Jobs(s.rows)[k].jobId;
      }
      var t, o := ResumeOne(s, i, outcomes, now), outcomes[s.rows[i].add.value];
      RowMoves(s, i, outcomes, now, k);
      if o.Ready? && Duplicate(s.rows, i, o.details).Some? {
        var dup := Duplicate(s.rows, i, o.details).value;
        MergeDoes(s, dup, i);
        DuplicateRuns(s, i, outcomes, now);
        if k != i {
          MergeKeeps(s, t, i, outcomes, dup, k);
        }
      } else {
        OthersKeep(s, i, outcomes, now, k);
      }
    }
  }

  lemma OthersKeep(s: State, i: nat, outcomes: map<nat, AddOutcome>, now: nat, k: nat)
    requires Sound(s) && k < |s.rows| && i < |s.rows| && HasOutcome(s.rows[i], outcomes)
    requires forall j :: 0 <= j < |s.rows| && s.rows[j].job.jobId == s.rows[k].job.jobId ==> j == k
    requires var o := outcomes[s.rows[i].add.value]; o.Ready? ==> Duplicate(s.rows, i, o.details).None?
    ensures var r, t := s.rows[k], ResumeOne(s, i, outcomes, now);
      (|t.rows| < |s.rows| && k == i)
      || var at := if |t.rows| < |s.rows| && k > i then k - 1 else k;
         && at < |t.rows| && t.rows[at].job.jobId == r.job.jobId
         && FilesAfter(s, i, outcomes, r.job.jobId, r.job.kept, t.rows[at].job.kept)
  {
    AddDoes(s, i, outcomes, now);
    DuplicateRuns(s, i, outcomes, now);
    assert !MergesInto(s, i, outcomes, s.rows[k].job.jobId);
  }

  lemma MergeKeeps(s: State, t: State, i: nat, outcomes: map<nat, AddOutcome>, dup: nat, k: nat)
    requires UniqueIds(Jobs(s.rows)) && i < |s.rows| && k < |s.rows| && k != i
    requires HasOutcome(s.rows[i], outcomes) && outcomes[s.rows[i].add.value].Ready?
    requires RunsFirst(s.rows, i, outcomes[s.rows[i].add.value].details, dup) && Merged(s, t, dup, i)
    ensures var at := if k > i then k - 1 else k;
      && at < |t.rows| && t.rows[at].job.jobId == s.rows[k].job.jobId
      && FilesAfter(s, i, outcomes, s.rows[k].job.jobId, s.rows[k].job.kept, t.rows[at].job.kept)
  {
    assert Jobs(s.rows)[k].jobId == s.rows[k].job.jobId && Jobs(s.rows)[i].jobId == s.rows[i].job.jobId;
    if k != dup {
      assert Jobs(s.rows)[dup].jobId == s.rows[dup].job.jobId;
      assert !MergesInto(s, i, outcomes, s.rows[k].job.jobId);
    }
  }

  lemma RowMoves(s: State, i: nat, outcomes: map<nat, AddOutcome>, now: nat, k: nat)
    requires Sound(s) && k < |s.rows| && i < |s.rows| && HasOutcome(s.rows[i], outcomes)
    requires forall j :: 0 <= j < |s.rows| && s.rows[j].job.jobId == s.rows[k].job.jobId ==> j == k
    ensures var t := ResumeOne(s, i, outcomes, now);
      |t.rows| < |s.rows| && k == i ==> !HasJob(t.rows, s.rows[k].job.jobId)
  {
    var t := ResumeOne(s, i, outcomes, now);
    if |t.rows| < |s.rows| && k == i {
      forall m | 0 <= m < |t.rows| ensures t.rows[m].job.jobId != s.rows[k].job.jobId {
        JobsStay(s, i, outcomes, now, m);
      }
    }
  }

  lemma {:induction false} NeverBackAgain(
    s: State, listed: seq<nat>, outcomes: map<nat, AddOutcome>, now: nat, id: string)
    requires Sound(s) && !HasJob(s.rows, id)
    ensures !HasJob(ResumeAlong(s, listed, outcomes, now).rows, id)
    decreases |listed|
  {
    if listed != [] {
      var t := ResumeOne(s, listed[0], outcomes, now);
      forall m | 0 <= m < |t.rows| ensures t.rows[m].job.jobId != id {
        JobsStay(s, listed[0], outcomes, now, m);
      }
      ResumeOneSound(s, listed[0], outcomes, now);
      NeverBackAgain(t, listed[1..], outcomes, now, id);
    }
  }

  lemma OneRow(s: State, id: string, kept: seq<KeptFile>, k: nat)
    requires Sound(s) && KeepsFiles(s.rows, id, kept) && k < |s.rows| && s.rows[k].job.jobId == id
    ensures s.rows[k].job.kept == kept
  {
    var j :| 0 <= j < |s.rows| && s.rows[j].job.jobId == id && s.rows[j].job.kept == kept;
    assert Jobs(s.rows)[j].jobId == Jobs(s.rows)[k].jobId;
  }

  /** After a pass every job that is left keeps the files of the last job with files that was merged into it, or
      else its own, or else the pick of its own torrent. */
  lemma {:induction false} PassKeepsFiles(s: State, listed: seq<nat>, outcomes: map<nat, AddOutcome>, now: nat,
                                          id: string, kept: seq<KeptFile>, after: seq<KeptFile>)
    requires Sound(s) && KeepsFiles(s.rows, id, kept)
    requires KeepsFiles(ResumeAlong(s, listed, outcomes, now).rows, id, after)
    ensures LastFiles(s, listed, outcomes, now, id, kept, after)
    decreases |listed|
  {
    var k :| 0 <= k < |s.rows| && s.rows[k].job.jobId == id && s.rows[k].job.kept == kept;
    if listed == [] {
      var m :| 0 <= m < |s.rows| && s.rows[m].job.jobId == id && s.rows[m].job.kept == after;
      OneRow(s, id, kept, m);
    } else {
      var t := ResumeOne(s, listed[0], outcomes, now);
      RowKeeps(s, listed[0], outcomes, now, k);
      ResumeOneSound(s, listed[0], outcomes, now);
      if |t.rows| < |s.rows| && k == listed[0] {
        NeverBackAgain(t, listed[1..], outcomes, now, id);
      } else {
        var at := if |t.rows| < |s.rows| && k > listed[0] then k - 1 else k;
        var next := t.rows[at].job.kept;
        assert KeepsFiles(t.rows, id, next);
        PassKeepsFiles(t, listed[1..], outcomes, now, id, next, after);
      }
    }
  }
}
