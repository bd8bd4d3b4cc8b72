/** What the daemon does to one job: the row-local half of every step (src/core/dlctl.rs). */
module DlRows {
  import opened Common
  import opened DlJobs

  /** The row after a step, the responses written by it in order, and whether it set `dirty`. */
  datatype Outcome = Outcome(row: Runtime, said: seq<Response>, dirty: bool)

  // ---- picks and gates --------------------------------------------------------------------

  /** The longest file of one medium; the first of equals. */
  function Longest(files: seq<TorrentFile>, media: Media): (best: Option<nat>)
    ensures best.Some? ==> best.value < |files| && files[best.value].media == media
  {
    if files == [] then None
    else
      var n := |files| - 1;
      var best := Longest(files[..n], media);
      if files[n].media == media && (best.None? || files[n].length > files[best.value].length)
      then Some(n) else best
  }

  /** No file of the medium is longer, and none as long comes before. */
  lemma {:induction false} LongestIs(files: seq<TorrentFile>, media: Media, i: nat)
    requires i < |files| && files[i].media == media
    ensures var best := Longest(files, media);
      && best.Some? && files[i].length <= files[best.value].length
      && (files[i].length == files[best.value].length ==> best.value <= i)
  {
    var n := |files| - 1;
    if i < n {
      LongestIs(files[..n], media, i);
    }
  }

  function PickPlayable(files: seq<TorrentFile>): (best: Option<nat>)
    ensures best.Some? ==> best.value < |files|
  {
    if Longest(files, Video).Some? then Longest(files, Video) else Longest(files, Audio)
  }

  function Keep(files: seq<TorrentFile>, i: nat): KeptFile
    requires i < |files|
  {
    KeptFile(i, files[i].name, files[i].length)
  }

  function PickedFile(d: Option<Details>): seq<KeptFile> {
    if d.Some? && PickPlayable(d.value.files).Some?
    then [Keep(d.value.files, PickPlayable(d.value.files).value)] else []
  }

  function PlayPicks(r: Runtime): seq<KeptFile> {
    if r.job.kept != [] then r.job.kept else PickedFile(r.details)
  }

  function FirstIndex(files: seq<KeptFile>): Option<nat> {
    if files == [] then None else Some(files[0].index)
  }

  /** The one file a queued response waits for. */
  function GateFile(r: Runtime, p: Pending): Option<nat> {
    match p.kind
    case Stream(indices) => if indices != [] then Some(indices[0]) else FirstIndex(PickedFile(r.details))
    case EnqueuePlay => if p.picked != [] then Some(p.picked[0].index) else FirstIndex(PlayPicks(r))
  }

  function Progress(st: Stats, index: nat): nat {
    if index < |st.fileProgress| then st.fileProgress[index] else 0
  }

  predicate PendingReady(r: Runtime, p: Pending, st: Stats) {
    st.live &&
    (st.finished || st.fileProgress == [] || GateFile(r, p).None? || Progress(st, GateFile(r, p).value) > 0)
  }

  predicate AllReady(r: Runtime, st: Stats) {
    forall i :: 0 <= i < |r.pending| ==> PendingReady(r, r.pending[i], st)
  }

  datatype Gate = Answer | Wait | Timeout

  function PendingGate(ready: bool, since: Option<nat>, now: nat): Gate {
    if ready then Answer
    else if since.Some? && Elapsed(now, since.value) >= STREAM_READY_TIMEOUT then Timeout
    else Wait
  }

  /** An engine that is not being replaced. */
  predicate EngineReady(r: Runtime) {
    r.engine.Some? && r.add.None?
  }

  predicate MoveHeld(deferred: bool, since: Option<nat>, now: nat) {
    deferred && (since.Some? ==> Elapsed(now, since.value) < MOVE_DEFER_BACKSTOP)
  }

  predicate FilesDownloaded(st: Stats, kept: seq<KeptFile>) {
    st.finished && forall i :: 0 <= i < |kept| ==> Progress(st, kept[i].index) >= kept[i].length
  }

  /** The progress recorded by the last tick with stats. */
  function Recorded(r: Runtime, index: nat): nat {
    if index < |r.job.fileProgress| then r.job.fileProgress[index] else 0
  }

  predicate Has(r: Runtime, f: KeptFile) { Recorded(r, f.index) >= f.length }

  /** Every kept file is complete in the recorded progress. */
  predicate Checked(r: Runtime) { forall i :: 0 <= i < |r.job.kept| ==> Has(r, r.job.kept[i]) }

  // ---- responses --------------------------------------------------------------------------

  /** The requested stream indices the torrent really has. */
  function Known(files: seq<TorrentFile>, indices: seq<nat>): seq<KeptFile> {
    if indices == [] then []
    else (if indices[0] < |files| then [Keep(files, indices[0])] else []) + Known(files, indices[1..])
  }

  /** The files answered to a stream request are exactly those asked for that the torrent has. */
  lemma {:induction false} KnownIs(files: seq<TorrentFile>, indices: seq<nat>, f: KeptFile)
    ensures f in Known(files, indices) <==> f.index < |files| && f.index in indices && f == Keep(files, f.index)
    decreases |indices|
  {
    if indices != [] {
      KnownIs(files, indices[1..], f);
    }
  }

  function ResponseFiles(r: Runtime, p: Pending): Result<seq<KeptFile>, Reason> {
    if r.engine.None? then Err(EngineNotReady)
    else if r.job.torrentId.None? then Err(NoTorrentId)
    else match p.kind
      case EnqueuePlay => Ok(r.job.kept)
      case Stream(indices) =>
        if r.details.None? then Err(NoFileList)
        else if indices == [] then Ok(PickedFile(r.details))
        else Ok(Known(r.details.value.files, indices))
  }

  function Respond(r: Runtime, p: Pending): (resp: Response)
    ensures resp.requestId == p.requestId
    ensures resp.Play? ==> r.engine == Some(resp.engine) && resp.files != []
  {
    match ResponseFiles(r, p)
    case Ok(files) =>
      if files == [] then Refusal(p.requestId, NoPlayableMedia)
      else Play(p.requestId, r.job.jobId, r.job.torrentId.value, r.job.torrentName, r.engine.value, files,
                if GateFile(r, p).Some? then 1 else 0)
    case Err(e) => Refusal(p.requestId, e)
  }

  function AnswerAll(r: Runtime, ps: seq<Pending>): (said: seq<Response>)
    ensures |said| == |ps| && forall i :: 0 <= i < |ps| ==> said[i] == Respond(r, ps[i])
  {
    if ps == [] then [] else AnswerAll(r, ps[..|ps| - 1]) + [Respond(r, ps[|ps| - 1])]
  }

  function RefuseAll(ps: seq<Pending>, why: Reason): (said: seq<Response>)
    ensures |said| == |ps| && forall i :: 0 <= i < |ps| ==> said[i] == Refusal(ps[i].requestId, why)
  {
    if ps == [] then [] else RefuseAll(ps[..|ps| - 1], why) + [Refusal(ps[|ps| - 1].requestId, why)]
  }

  // ---- adds -------------------------------------------------------------------------------

  function NewRow(job: Job): Runtime {
    Runtime(job, None, None, None, [], None, None, None)
  }

  function StartAdd(r: Runtime, handle: nat): Runtime {
    r.(add := Some(handle), job := r.job.(status := Adding))
  }

  function FailJob(r: Runtime, why: Reason): Runtime {
    r.(job := r.job.(status := Failed, error := Some(why)))
  }

  /** An add thread failed: every queued request is refused. */
  function AddFails(r: Runtime, text: string): Outcome {
    Outcome(FailJob(r, AddFailed(text)).(pending := [], add := None),
            RefuseAll(r.pending, AddFailed(text)), true)
  }

  /** An add thread delivered an engine and no other job owns the torrent. */
  function AddSettles(r: Runtime, o: AddOutcome, now: nat): Outcome
    requires o.Ready?
  {
    var hash := if r.job.infohash.None? then LowerHash(o.details.infoHash) else r.job.infohash;
    var kept := if r.job.kept == [] then PickedFile(Some(o.details)) else r.job.kept;
    var job := r.job.(infohash := hash, torrentId := Some(o.torrentId), torrentName := o.torrentName,
                      error := None, kept := kept);
    if kept == [] then
      Outcome(r.(job := job.(status := Failed, error := Some(NoPlayableMedia)), pending := [], add := None),
              RefuseAll(r.pending, NoPlayableMedia), true)
    else Outcome(Install(r.(job := job), o, now), [], true)
  }

  /** The delivered engine, narrowed to the kept files if that worked, runs the job from here on. */
  function Install(r: Runtime, o: AddOutcome, now: nat): Runtime
    requires o.Ready?
  {
    var narrowed := |r.job.kept| < |o.details.files| && o.restricted.Some?;
    r.(job := r.job.(status := Downloading, torrentId := if narrowed then o.restricted else r.job.torrentId),
       engine := Some(o.engine), details := Some(o.details), add := None,
       appliedSelection := if narrowed then Some(Indices(r.job.kept)) else r.appliedSelection,
       pendingSince := if r.pending != [] && r.pendingSince.None? then Some(now) else r.pendingSince)
  }

  function Indices(kept: seq<KeptFile>): seq<nat> {
    seq(|kept|, i requires 0 <= i < |kept| => kept[i].index)
  }

  // ---- commits ----------------------------------------------------------------------------

  /** A commit without its playback half: new file set, and a finished job is revived. */
  function Recommit(r: Runtime, files: seq<KeptFile>, hash: Option<string>, handle: nat): Runtime {
    var job := r.job.(infohash := if hash.Some? then hash else r.job.infohash,
                      kept := if files != [] then files else r.job.kept);
    if r.job.status.Active() then r.(job := job)
    else StartAdd(r.(job := job.(error := None)), handle)
  }

  /** `merge_enqueue`. */
  function MergeEnqueue(r: Runtime, id: string, files: seq<KeptFile>, play: bool, hash: Option<string>,
                        handle: nat): Outcome
  {
    var row := Recommit(r, files, hash, handle);
    if !play then Outcome(row, [], true) else Deliver(row, Pending(id, EnqueuePlay, PlayPicks(row)))
  }

  /** Answer from a settled engine, else queue. */
  function Deliver(r: Runtime, p: Pending): Outcome {
    if EngineReady(r) then Outcome(r, [Respond(r, p)], true)
    else Outcome(r.(pending := r.pending + [p]), [], true)
  }

  function DeliverAll(r: Runtime, ps: seq<Pending>): Outcome {
    if ps == [] then Outcome(r, [], true)
    else
      var before := DeliverAll(r, ps[..|ps| - 1]);
      var last := Deliver(before.row, ps[|ps| - 1]);
      Outcome(last.row, before.said + last.said, true)
  }

  /** A re-stream of a known job. */
  function StreamRow(r: Runtime, p: Pending, live: bool, now: nat): Outcome {
    if EngineReady(r) && r.job.torrentId.Some? && live then Outcome(r, [Respond(r, p)], true)
    else if r.job.status.Active() || r.add.Some? then
      Outcome(r.(pending := r.pending + [p],
                 pendingSince := if r.pendingSince.None? then Some(now) else r.pendingSince), [], true)
    else Outcome(r, [Refusal(p.requestId, NotActive)], true)
  }

  // ---- the stats tick ---------------------------------------------------------------------

  /** The playback half of a successful stats answer. */
  function AnswerQueued(r: Runtime, st: Stats, now: nat): Outcome {
    if r.pending == [] then Outcome(r, [], true)
    else match PendingGate(AllReady(r, st), r.pendingSince, now)
      case Answer => Outcome(r.(pending := [], pendingSince := None), AnswerAll(r, r.pending), true)
      case Wait => Outcome(r, [], true)
      case Timeout => Outcome(r.(pending := [], pendingSince := None), RefuseAll(r.pending, NotReadyInTime), true)
  }

  /** The download half: progress, selection, and the `Moving` status with its anchor. */
  function TakeStats(r: Runtime, st: Stats, now: nat): Runtime {
    var wanted := Indices(r.job.kept);
    var row := r.(job := r.job.(fileProgress := st.fileProgress),
                  appliedSelection := if wanted != [] then Some(wanted) else r.appliedSelection);
    if FilesDownloaded(st, r.job.kept) then
      row.(job := row.job.(status := Moving),
           moveDeferSince := if r.moveDeferSince.None? then Some(now) else r.moveDeferSince)
    else if r.job.status == Moving then row.(job := row.job.(status := Downloading), moveDeferSince := None)
    else row
  }

  function TryMove(r: Runtime, p: Probe, now: nat): Outcome {
    if MoveHeld(p.deferred, r.moveDeferSince, now) then Outcome(r, [], false)
    else if p.downloadsDir.None? then Outcome(FailJob(r, NoDownloadsDir), [], true)
    else if r.engine.None? || !p.cacheDirKnown then Outcome(FailJob(r, EngineGoneBeforeMove), [], true)
    else if p.moveError.Some? then Outcome(FailJob(r, MoveFailed(p.moveError.value)), [], true)
    else
      Outcome(r.(job := r.job.(status := Completed, doneAt := Some(p.wallClock), movedTo := p.downloadsDir),
                 engine := None, details := None, add := None), [], true)
  }

  /** The stats half of a tick on a running engine. */
  function TakeTick(r: Runtime, p: Probe, now: nat): Outcome {
    if p.stats.None? then Outcome(r, [], false)
    else
      var answered := AnswerQueued(r, p.stats.value, now);
      Outcome(TakeStats(answered.row, p.stats.value, now), answered.said, true)
  }

  /** One job's pass of `poll_jobs`; jobs without an engine are not visited. */
  function PollRow(r: Runtime, p: Probe, now: nat): Outcome {
    if r.engine.None? then Outcome(r, [], false)
    else if !p.alive then
      Outcome(FailJob(r, EngineExited).(pending := [], engine := None), RefuseAll(r.pending, EngineExited), true)
    else
      var told := TakeTick(r, p, now);
      if told.row.job.status == Moving then
        var moved := TryMove(told.row, p, now);
        Outcome(moved.row, told.said, told.dirty || moved.dirty)
      else told
  }
}
