/** What requests come to, said of the request, the row it means and what is written: the functions that answer,
    queue and commit are named in no statement. */
module DlReplies {
  import opened Common
  import opened DlJobs
  import opened DlRows
  import opened DlFiles
  import opened DlSteps
  import opened DlInvariants

  // ---- hashes -----------------------------------------------------------------------------

  /** The same letter, whatever its case. */
  predicate SameLetter(c: char, d: char) {
    || c == d
    || ('A' <= c <= 'Z' && d as int == c as int + 32)
    || ('A' <= d <= 'Z' && c as int == d as int + 32)
  }

  predicate SameText(a: string, b: string) {
    |a| == |b| && forall i :: 0 <= i < |a| ==> SameLetter(a[i], b[i])
  }

  /** Two hashes are one to the daemon if and only if they differ in case alone. */
  lemma LowerIff(a: string, b: string)
    ensures Lower(a) == Lower(b) <==> SameText(a, b)
  {
    if Lower(a) == Lower(b) {
      forall i | 0 <= i < |a| ensures SameLetter(a[i], b[i]) {
        assert Lower(a)[i] == Lower(b)[i];
      }
    }
  }

  /** The same request, but for the case its hash is written in. */
  ghost predicate SameButCase(p: Request, q: Request) {
    && p.infohash.Some? == q.infohash.Some?
    && (p.infohash.Some? ==> SameText(p.infohash.value, q.infohash.value))
    && match p
       case Enqueue(id, _, key, name, files, play) => q == Enqueue(id, q.infohash, key, name, files, play)
       case StreamFiles(id, _, key, indices) => q == StreamFiles(id, q.infohash, key, indices)
       case Drop(_, _, _) => false
  }

  /** A commit or stream request does the same in whatever case its hash is written. */
  lemma CaseDoesNotMatter(s: State, p: Request, q: Request, jobId: string, live: bool, now: nat)
    requires SameButCase(p, q)
    ensures HandleRequest(s, p, jobId, live, now) == HandleRequest(s, q, jobId, live, now)
  {
    if p.infohash.Some? {
      LowerIff(p.infohash.value, q.infohash.value);
    }
  }

  // ---- stream requests --------------------------------------------------------------------

  /** The row a request goes by: the first of its hash, or, if there is none, the first of its source. */
  ghost predicate IsMeant(rows: seq<Runtime>, q: Request, k: nat)
    requires !q.Drop?
  {
    var hash := LowerHash(q.infohash);
    && k < |rows| && Means(rows, hash, q.sourceKey, rows[k])
    && forall j :: 0 <= j < k ==> !Means(rows, hash, q.sourceKey, rows[j])
  }

  lemma MeantIsFound(rows: seq<Runtime>, q: Request, k: nat)
    requires !q.Drop? && IsMeant(rows, q, k)
    ensures FindExisting(rows, LowerHash(q.infohash), Some(q.sourceKey)) == Some(k)
  {
  }

  /** Nobody works on the job any more. */
  predicate Ended(r: Runtime) { r.job.status in {Failed, Stopped, Completed} }

  /** `r` with a request more in its queue. */
  ghost predicate Queues(r: Runtime, t: Runtime, p: Pending, since: Option<nat>) {
    t == r.(pending := r.pending + [p], pendingSince := since)
  }

  /** A stream of a job whose engine runs, is not being replaced and serves the torrent is answered at once
      and changes no row; else it waits in the job's queue, which notes since when, if the job is worked on;
      else it is refused. */
  lemma StreamDoes(s: State, q: Request, jobId: string, live: bool, now: nat, k: nat)
    requires RowsOk(s.rows) && q.StreamFiles? && IsMeant(s.rows, q, k)
    ensures var r, t := s.rows[k], HandleRequest(s, q, jobId, live, now);
      var p := Pending(q.id, Stream(q.indices), []);
      if r.engine.Some? && r.add.None? && live then
        t.rows == s.rows && |t.said| == |s.said| + 1 && t.said[..|s.said|] == s.said
        && Answers(r, p, t.said[|s.said|])
      else if !Ended(r) || r.add.Some? then
        && t.said == s.said && |t.rows| == |s.rows| && t.rows == s.rows[k := t.rows[k]]
        && Queues(r, t.rows[k], p, if r.pendingSince.Some? then r.pendingSince else Some(now))
      else t.rows == s.rows && t.said == s.said + [Refusal(q.id, NotActive)]
  {
    MeantIsFound(s.rows, q, k);
    var r, p := s.rows[k], Pending(q.id, Stream(q.indices), []);
    if r.engine.Some? && r.add.None? && live {
      RespondAnswers(r, p);
    }
    assert s.said + [] == s.said;
  }

  /** A stream of a torrent no job has is refused. */
  lemma StreamOfNone(s: State, q: Request, jobId: string, live: bool, now: nat)
    requires q.StreamFiles? && forall k :: 0 <= k < |s.rows| ==> !IsMeant(s.rows, q, k)
    ensures var t := HandleRequest(s, q, jobId, live, now);
      t.rows == s.rows && t.said == s.said + [Refusal(q.id, NoActiveJob)]
  {
    NoneMeant(s.rows, q);
  }

  lemma NoneMeant(rows: seq<Runtime>, q: Request)
    requires !q.Drop? && forall k :: 0 <= k < |rows| ==> !IsMeant(rows, q, k)
    ensures FindExisting(rows, LowerHash(q.infohash), Some(q.sourceKey)).None?
  {
    var at := FindExisting(rows, LowerHash(q.infohash), Some(q.sourceKey));
    if at.Some? {
      assert IsMeant(rows, q, at.value);
    }
  }

  // ---- commits ----------------------------------------------------------------------------

  /** What a play is to open, noted when it comes: the files the job keeps, or the torrent's best one if it is
      known by then. */
  ghost predicate Picks(kept: seq<KeptFile>, details: Option<Details>, fs: seq<KeptFile>) {
    if kept != [] then fs == kept
    else if details.None? || forall i: nat :: !Best(details.value.files, i) then fs == []
    else exists i: nat :: Best(details.value.files, i) && FilesAt(details.value.files, [i], fs)
  }

  lemma PicksArePicked(r: Runtime)
    ensures Picks(r.job.kept, r.details, PlayPicks(r))
  {
    if r.details.Some? {
      var files := r.details.value.files;
      BestIsPicked(files);
      if PickPlayable(files).Some? {
        assert Best(files, PickPlayable(files).value);
        assert FilesAt(files, [PickPlayable(files).value], PickedFile(r.details));
      }
    }
  }

  /** `c` is `r` after a commit that names `files`: they replace the job's, unless there are none; the hash is
      adopted; an ended job starts an add. All else stays. */
  ghost predicate Commits(r: Runtime, c: Runtime, files: seq<KeptFile>, hash: Option<string>, handle: nat) {
    && c.job.kept == (if files == [] then r.job.kept else files)
    && c.job.infohash == (if hash.None? then r.job.infohash else hash)
    && (if Ended(r) then c.job.status == Adding && c.job.error.None? && c.add == Some(handle)
        else c.job.status == r.job.status && c.job.error == r.job.error && c.add == r.add)
    && c.job == r.job.(kept := c.job.kept, infohash := c.job.infohash, status := c.job.status, error := c.job.error)
    && c == r.(job := c.job, add := c.add)
  }

  lemma RecommitCommits(r: Runtime, files: seq<KeptFile>, hash: Option<string>, handle: nat)
    ensures Commits(r, Recommit(r, files, hash, handle), files, hash, handle)
  {
  }

  /** A commit to a known torrent that is not to play says nothing; one that is to play is answered at once
      with the files the job keeps then if an engine runs that is not being replaced, and else waits. */
  lemma CommitDoes(s: State, q: Request, jobId: string, live: bool, now: nat, k: nat)
    requires RowsOk(s.rows) && q.Enqueue? && IsMeant(s.rows, q, k)
    ensures var r, t := s.rows[k], HandleRequest(s, q, jobId, live, now);
      && |t.rows| == |s.rows| && t.rows == s.rows[k := t.rows[k]] && t.next == s.next + 1
      && (!q.play ==> t.said == s.said && Commits(r, t.rows[k], q.files, LowerHash(q.infohash), s.next))
      && (q.play && r.engine.Some? && r.add.None? && !Ended(r) ==>
            && Commits(r, t.rows[k], q.files, LowerHash(q.infohash), s.next)
            && |t.said| == |s.said| + 1 && t.said[..|s.said|] == s.said
            && Answers(t.rows[k], Pending(q.id, EnqueuePlay, []), t.said[|s.said|]))
      && (q.play && !(r.engine.Some? && r.add.None? && !Ended(r)) ==>
            && t.said == s.said && |t.rows[k].pending| == |r.pending| + 1
            && var p := t.rows[k].pending[|r.pending|];
               && p.requestId == q.id && p.kind == EnqueuePlay && Picks(t.rows[k].job.kept, r.details, p.picked)
               && t.rows[k].pending == r.pending + [p]
               && Commits(r, t.rows[k].(pending := r.pending), q.files, LowerHash(q.infohash), s.next))
  {
    MeantIsFound(s.rows, q, k);
    CommitRow(s.rows[k], q, s.next);
    assert s.said + [] == s.said;
  }

  lemma CommitRow(r: Runtime, q: Request, handle: nat)
    requires RowOk(r) && q.Enqueue?
    ensures var hash := LowerHash(q.infohash);
      var c, o := Recommit(r, q.files, hash, handle), MergeEnqueue(r, q.id, q.files, q.play, hash, handle);
      var p := Pending(q.id, EnqueuePlay, PlayPicks(c));
      && Commits(r, c, q.files, hash, handle) && Picks(c.job.kept, r.details, p.picked)
      && (!q.play ==> o.row == c && o.said == [])
      && (q.play && r.engine.Some? && r.add.None? && !Ended(r) ==>
            o.row == c && |o.said| == 1 && Answers(c, Pending(q.id, EnqueuePlay, []), o.said[0]))
      && (q.play && !(r.engine.Some? && r.add.None? && !Ended(r)) ==>
            o.row == c.(pending := c.pending + [p]) && o.said == [])
  {
    var hash := LowerHash(q.infohash);
    var c := Recommit(r, q.files, hash, handle);
    RecommitCommits(r, q.files, hash, handle);
    PicksArePicked(c);
    if q.play && r.engine.Some? && r.add.None? && !Ended(r) {
      PlayAnswers(c, Pending(q.id, EnqueuePlay, PlayPicks(c)));
    }
  }

  /** The answer to a play does not depend on what was noted when it came. */
  lemma PlayAnswers(r: Runtime, p: Pending)
    requires r.engine.Some? && r.job.torrentId.Some? && r.details.Some? && p.kind.EnqueuePlay?
    requires p.picked == PlayPicks(r)
    ensures Answers(r, p.(picked := []), Respond(r, p))
  {
    RespondAnswers(r, p);
    OpensIsGate(r, p);
    OpensIsGate(r, p.(picked := []));
    assert GateFile(r, p) == GateFile(r, p.(picked := []));
    var fs :| FilesOf(r, p, fs) && ResponseFiles(r, p) == Ok(fs);
    assert FilesOf(r, p.(picked := []), fs);
  }

  /** A commit of a torrent no job has makes a job that waits for an add, behind all others. */
  lemma NewJobDoes(s: State, q: Request, jobId: string, live: bool, now: nat)
    requires q.Enqueue? && forall k :: 0 <= k < |s.rows| ==> !IsMeant(s.rows, q, k)
    ensures var t := HandleRequest(s, q, jobId, live, now);
      && |t.rows| == |s.rows| + 1 && t.rows[..|s.rows|] == s.rows && t.said == s.said && t.next == s.next + 1
      && var r := t.rows[|s.rows|];
         && r.job.jobId == jobId && r.job.requestId == q.id && r.job.infohash == LowerHash(q.infohash)
         && r.job.sourceKey == q.sourceKey && r.job.torrentName == q.name && r.job.kept == q.files
         && r.job.status == Adding && r.job.error.None? && r.job.torrentId.None?
         && r.job.fileProgress == [] && r.job.doneAt.None? && r.job.movedTo.None?
         && r.add == Some(s.next) && r.engine.None? && r.details.None?
         && r.pendingSince.None? && r.moveDeferSince.None? && r.appliedSelection.None?
         && r.pending == if q.play then [Pending(q.id, EnqueuePlay, q.files)] else []
  {
    NoneMeant(s.rows, q);
  }

  // ---- stops and removes ------------------------------------------------------------------

  /** A job that is stopped or removed goes with its queue, and its add is told to stop; nothing is written. */
  lemma DropDoes(s: State, q: Request, jobId: string, live: bool, now: nat, k: nat)
    requires q.Drop? && k < |s.rows| && Names(s.rows, q, s.rows[k])
    requires forall j :: 0 <= j < k ==> !Names(s.rows, q, s.rows[j])
    ensures var r, t := s.rows[k], HandleRequest(s, q, jobId, live, now);
      && |t.rows| == |s.rows| - 1 && t.said == s.said && |t.dropped| == |s.dropped| + |r.pending|
      && (forall j :: 0 <= j < |s.rows| && j != k ==> t.rows[if j < k then j else j - 1] == s.rows[j])
      && (forall i :: 0 <= i < |r.pending| ==> t.dropped[|s.dropped| + i] == r.pending[i].requestId)
      && (forall h :: h in t.cancelled <==> h in s.cancelled || r.add == Some(h))
  {
    DropRemovesFirst(s, q, jobId, live, now, k);
    assert DropTarget(s.rows, q) == Some(k);
  }
}
