/** The daemon as a state machine: every step as a function of the state (src/core/dlctl.rs). */
module DlSteps {
  import opened Common
  import opened DlJobs
  import opened DlRows

  /** The daemon's runtimes, what it has written (`said`, `disk`), and the books over the requests
      that want an answer: `asked` when consumed, `dropped` with a stopped job, `lost` with the
      process. `next` is the next unused add handle, `cancelled` the handles sent a cancel. */
  datatype State = State(
    rows: seq<Runtime>, said: seq<Response>, asked: seq<string>, dropped: seq<string>,
    lost: seq<string>, next: nat, cancelled: set<nat>, dirty: bool, disk: seq<Job>)

  // ---- lookup -----------------------------------------------------------------------------

  datatype Query = ByJob(jobId: string) | ByRequest(requestId: string) | ByHash(hash: string)
                 | ByLiveHash(liveHash: string) | ByKey(key: string)

  predicate Matches(r: Runtime, q: Query) {
    match q
    case ByJob(id) => r.job.jobId == id
    case ByRequest(id) => r.job.requestId == id
    case ByHash(h) => r.job.infohash == Some(h)
    case ByLiveHash(h) => r.job.infohash == Some(h) && r.engine.Some?
    case ByKey(k) => r.job.infohash.None? && r.job.sourceKey == k
  }

  /** The first matching row. */
  function Find(rows: seq<Runtime>, q: Query): (at: Option<nat>)
    ensures at.Some? ==> at.value < |rows| && Matches(rows[at.value], q)
    ensures at.Some? ==> forall j :: 0 <= j < at.value ==> !Matches(rows[j], q)
    ensures at.None? ==> forall j :: 0 <= j < |rows| ==> !Matches(rows[j], q)
  {
    if rows == [] then None
    else
      var n := |rows| - 1;
      var at := Find(rows[..n], q);
      if at.Some? then at else if Matches(rows[n], q) then Some(n) else None
  }

  function FindExisting(rows: seq<Runtime>, hash: Option<string>, key: Option<string>): (at: Option<nat>)
    ensures at.Some? ==> at.value < |rows|
  {
    if hash.Some? && hash.value != "" && Find(rows, ByHash(hash.value)).Some? then Find(rows, ByHash(hash.value))
    else if key.Some? then Find(rows, ByKey(key.value))
    else None
  }

  /** The row a stop or remove request names: by job, else by creating request, else by hash. */
  function DropTarget(rows: seq<Runtime>, q: Request): (at: Option<nat>)
    requires q.Drop?
    ensures at.Some? ==> at.value < |rows|
  {
    if q.jobId.Some? && Find(rows, ByJob(q.jobId.value)).Some? then Find(rows, ByJob(q.jobId.value))
    else if q.requestId.Some? && Find(rows, ByRequest(q.requestId.value)).Some?
    then Find(rows, ByRequest(q.requestId.value))
    else FindExisting(rows, q.infohash, None)
  }

  /** Some row waits for add `h`. */
  ghost predicate Held(rows: seq<Runtime>, h: nat) {
    exists i :: 0 <= i < |rows| && rows[i].add == Some(h)
  }

  /** Job `id` does. */
  ghost predicate HeldBy(rows: seq<Runtime>, id: string, h: nat) {
    exists k :: 0 <= k < |rows| && rows[k].job.jobId == id && rows[k].add == Some(h)
  }

  // ---- building blocks --------------------------------------------------------------------

  function Put(s: State, i: nat, o: Outcome): State
    requires i < |s.rows|
  {
    s.(rows := s.rows[i := o.row], said := s.said + o.said, dirty := s.dirty || o.dirty)
  }

  function Without(rows: seq<Runtime>, i: nat): seq<Runtime>
    requires i < |rows|
  {
    rows[..i] + rows[i + 1..]
  }

  function Ids(ps: seq<Pending>): seq<string> {
    seq(|ps|, i requires 0 <= i < |ps| => ps[i].requestId)
  }

  function Jobs(rows: seq<Runtime>): seq<Job> {
    seq(|rows|, i requires 0 <= i < |rows| => rows[i].job)
  }

  // ---- spool requests ---------------------------------------------------------------------

  function Fresh(q: Request, jobId: string, handle: nat): Runtime
    requires q.Enqueue?
  {
    var row := StartAdd(NewRow(Job(jobId, q.id, LowerHash(q.infohash), q.sourceKey, q.name, q.files, [],
                                   Queued, None, None, None, None)), handle);
    if q.play then row.(pending := [Pending(q.id, EnqueuePlay, PlayPicks(row))]) else row
  }

  function StopJob(s: State, i: nat): State
    requires i < |s.rows|
  {
    s.(rows := Without(s.rows, i), dropped := s.dropped + Ids(s.rows[i].pending), dirty := true,
       cancelled := s.cancelled + (if s.rows[i].add.Some? then {s.rows[i].add.value} else {}))
  }

  /** A `Drop` has no answer; a download-only enqueue gets none. */
  predicate WantsAnswer(q: Request)
    ensures WantsAnswer(q) ==> !q.Drop?
  {
    q.StreamFiles? || (q.Enqueue? && q.play)
  }

  function Ask(s: State, q: Request): State {
    s.(dirty := true,
       asked := s.asked + if WantsAnswer(q) then [q.id] else [])
  }

  /** `handle_request` and the `dirty` that `process_spool` sets after it. `jobId` is the random id
      a new job gets, `live` the answer of the torrent's stats call. */
  function HandleRequest(s: State, q: Request, jobId: string, live: bool, now: nat): State {
    var s := Ask(s, q);
    match q
    case Enqueue(id, infohash, key, name, files, play) =>
      var hash := LowerHash(infohash);
      var at := FindExisting(s.rows, hash, Some(key));
      if at.Some? then
        Put(s, at.value, MergeEnqueue(s.rows[at.value], id, files, play, hash, s.next)).(next := s.next + 1)
      else s.(rows := s.rows + [Fresh(q, jobId, s.next)], next := s.next + 1)
    case StreamFiles(id, infohash, key, indices) =>
      var at := FindExisting(s.rows, LowerHash(infohash), Some(key));
      if at.Some? then
        Put(s, at.value, StreamRow(s.rows[at.value], Pending(id, Stream(indices), []), live, now))
      else s.(said := s.said + [Refusal(id, NoActiveJob)])
    case Drop(_, _, _) =>
      var at := DropTarget(s.rows, q);
      if at.Some? then StopJob(s, at.value) else s
  }

  ghost predicate AnyHash(rows: seq<Runtime>, hash: Option<string>) {
    hash.Some? && hash.value != "" && exists i :: 0 <= i < |rows| && rows[i].job.infohash == hash
  }

  /** A job of this source that has no hash yet. */
  predicate OfSource(r: Runtime, key: string) { r.job.infohash.None? && r.job.sourceKey == key }

  /** Some row is a job of this hash, or one of this source that has no hash yet. */
  ghost predicate HasTorrent(rows: seq<Runtime>, hash: Option<string>, key: string) {
    AnyHash(rows, hash) || exists i :: 0 <= i < |rows| && OfSource(rows[i], key)
  }

  /** What a commit goes by: the hash if any row has it, else the source key. */
  ghost predicate Means(rows: seq<Runtime>, hash: Option<string>, key: string, r: Runtime) {
    if AnyHash(rows, hash) then r.job.infohash == hash else OfSource(r, key)
  }

  /** An enqueue makes a new job if and only if its torrent is not there yet; the rows before stay. */
  lemma EnqueueAddsRowIff(s: State, q: Request, jobId: string, live: bool, now: nat)
    requires q.Enqueue?
    ensures var t := HandleRequest(s, q, jobId, live, now).rows;
      if HasTorrent(s.rows, LowerHash(q.infohash), q.sourceKey) then |t| == |s.rows|
      else |t| == |s.rows| + 1 && t[..|s.rows|] == s.rows && t[|s.rows|].job.jobId == jobId
  {
    var at := FindExisting(s.rows, LowerHash(q.infohash), Some(q.sourceKey));
    assert at.Some? ==> Means(s.rows, LowerHash(q.infohash), q.sourceKey, s.rows[at.value]);
  }

  /** A commit to a known torrent changes the first row it means, and no other. */
  lemma EnqueueChangesFirst(s: State, q: Request, jobId: string, live: bool, now: nat, i: nat)
    requires q.Enqueue? && i < |s.rows| && HandleRequest(s, q, jobId, live, now).rows[i] != s.rows[i]
    ensures Means(s.rows, LowerHash(q.infohash), q.sourceKey, s.rows[i])
    ensures forall j :: 0 <= j < i ==> !Means(s.rows, LowerHash(q.infohash), q.sourceKey, s.rows[j])
  {
    assert FindExisting(s.rows, LowerHash(q.infohash), Some(q.sourceKey)) == Some(i);
  }

  /** What a stop or remove goes by: the job it names if there is one, else the job its request created, else
      a job of its hash. */
  ghost predicate Names(rows: seq<Runtime>, q: Request, r: Runtime)
    requires q.Drop?
  {
    if q.jobId.Some? && exists i :: 0 <= i < |rows| && rows[i].job.jobId == q.jobId.value
    then r.job.jobId == q.jobId.value
    else if q.requestId.Some? && exists i :: 0 <= i < |rows| && rows[i].job.requestId == q.requestId.value
    then r.job.requestId == q.requestId.value
    else q.infohash.Some? && q.infohash.value != "" && r.job.infohash == q.infohash
  }

  /** A stop or remove takes out the first row it names... */
  lemma DropRemovesFirst(s: State, q: Request, jobId: string, live: bool, now: nat, k: nat)
    requires q.Drop? && k < |s.rows| && Names(s.rows, q, s.rows[k])
    requires forall j :: 0 <= j < k ==> !Names(s.rows, q, s.rows[j])
    ensures HandleRequest(s, q, jobId, live, now).rows == Without(s.rows, k)
  {
    assert DropTarget(s.rows, q) == Some(k);
  }

  /** ...and nothing if and only if there is none. */
  lemma DropRemovesNoneIff(s: State, q: Request, jobId: string, live: bool, now: nat)
    requires q.Drop?
    ensures HandleRequest(s, q, jobId, live, now).rows == s.rows
       <==> forall k :: 0 <= k < |s.rows| ==> !Names(s.rows, q, s.rows[k])
  {
    var at := DropTarget(s.rows, q);
    if at.Some? {
      assert Names(s.rows, q, s.rows[at.value]);
      assert |Without(s.rows, at.value)| < |s.rows|;
    }
  }

  // ---- finished adds ----------------------------------------------------------------------

  /** Row `i` turns out to be the torrent of row `dup`: its files and requests move there. */
  function MergeInto(s: State, dup: nat, i: nat): State
    requires dup < |s.rows| && i < |s.rows| && dup != i
  {
    var o := DeliverAll(Recommit(s.rows[dup], s.rows[i].job.kept, None, s.next), s.rows[i].pending);
    var put := Put(s, dup, o);
    put.(rows := Without(put.rows, i), next := s.next + 1, dirty := true)
  }

  /** The hash `on_add_ready` deduplicates by: the engine's report, else the job's own. */
  function DedupHash(r: Runtime, d: Details): Option<string> {
    if d.infoHash.Some? then LowerHash(d.infoHash) else r.job.infohash
  }

  function Duplicate(rows: seq<Runtime>, i: nat, d: Details): (dup: Option<nat>)
    requires i < |rows|
    ensures dup.Some? ==> dup.value < |rows| && dup.value != i
  {
    var hash := DedupHash(rows[i], d);
    if hash.None? then None
    else
      var dup := Find(rows, ByLiveHash(hash.value));
      if dup == Some(i) then None else dup
  }

  function AddReady(s: State, i: nat, o: AddOutcome, now: nat): State
    requires i < |s.rows| && o.Ready?
  {
    var dup := Duplicate(s.rows, i, o.details);
    if dup.Some? then MergeInto(s, dup.value, i) else Put(s, i, AddSettles(s.rows[i], o, now))
  }

  predicate HasOutcome(r: Runtime, outcomes: map<nat, AddOutcome>) {
    r.add.Some? && r.add.value in outcomes
  }

  /** One index of `resume_adds`; the row now at `i` need not be the one the pass listed. */
  function ResumeOne(s: State, i: nat, outcomes: map<nat, AddOutcome>, now: nat): State {
    if i < |s.rows| && HasOutcome(s.rows[i], outcomes) then
      match outcomes[s.rows[i].add.value]
      case Ready(_, _, _, _, _) => AddReady(s, i, outcomes[s.rows[i].add.value], now)
      case Cancelled =>
        s.(rows := Without(s.rows, i), dropped := s.dropped + Ids(s.rows[i].pending), dirty := true)
      case AddError(text) => Put(s, i, AddFails(s.rows[i], text))
    else s
  }

  function AddsInFlight(rows: seq<Runtime>): seq<nat> {
    if rows == [] then []
    else
      var n := |rows| - 1;
      AddsInFlight(rows[..n]) + if rows[n].add.Some? then [n] else []
  }

  function ResumeAlong(s: State, listed: seq<nat>, outcomes: map<nat, AddOutcome>, now: nat): State
    decreases |listed|
  {
    if listed == [] then s
    else ResumeAlong(ResumeOne(s, listed[0], outcomes, now), listed[1..], outcomes, now)
  }

  /** `resume_adds`: `outcomes` are the add threads whose result is there when polled. */
  function ResumeAdds(s: State, outcomes: map<nat, AddOutcome>, now: nat): State {
    ResumeAlong(s, AddsInFlight(s.rows), outcomes, now)
  }

  // ---- the stats tick ---------------------------------------------------------------------

  function PollOne(s: State, i: nat, p: Probe, now: nat): (t: State)
    requires i < |s.rows|
    ensures |t.rows| == |s.rows|
    ensures forall j :: 0 <= j < |s.rows| && j != i ==> t.rows[j] == s.rows[j]
  {
    Put(s, i, PollRow(s.rows[i], p, now))
  }

  /** `poll_jobs` after its first `k` rows. `probes` answers for each job id. */
  function PollUpTo(s: State, k: nat, probes: string -> Probe, now: nat): (t: State)
    requires k <= |s.rows|
    ensures |t.rows| == |s.rows|
    ensures forall i :: k <= i < |s.rows| ==> t.rows[i] == s.rows[i]
  {
    if k == 0 then s
    else
      PollOne(PollUpTo(s, k - 1, probes, now), k - 1, probes(s.rows[k - 1].job.jobId), now)
  }

  lemma NextPoll(s: State, k: nat, probes: string -> Probe, now: nat)
    requires k < |s.rows|
    ensures PollUpTo(s, k + 1, probes, now)
         == PollOne(PollUpTo(s, k, probes, now), k, probes(s.rows[k].job.jobId), now)
  {
  }

  lemma {:induction false} PolledRow(s: State, k: nat, probes: string -> Probe, now: nat, i: nat)
    requires i < k <= |s.rows|
    ensures PollUpTo(s, k, probes, now).rows[i] == PollRow(s.rows[i], probes(s.rows[i].job.jobId), now).row
  {
    if i < k - 1 {
      PolledRow(s, k - 1, probes, now, i);
    }
  }

  function PollJobs(s: State, probes: string -> Probe, now: nat): State {
    PollUpTo(s, |s.rows|, probes, now)
  }

  // ---- persistence ------------------------------------------------------------------------

  function Save(s: State): State {
    if s.dirty then s.(disk := Jobs(s.rows), dirty := false) else s
  }

  function AdoptJob(job: Job, handle: nat): Runtime {
    if job.status.Active() then StartAdd(NewRow(job.(status := Queued, error := None)), handle) else NewRow(job)
  }

  /** A killed daemon and the next one's `adopt_existing_jobs`. */
  function Restart(s: State): State {
    s.(rows := seq(|s.disk|, i requires 0 <= i < |s.disk| => AdoptJob(s.disk[i], s.next + i)),
       next := s.next + |s.disk|, lost := s.lost + Waiting(s.rows), dirty := true)
  }

  /** The ids of every queued request, row by row. */
  function Waiting(rows: seq<Runtime>): seq<string> {
    if rows == [] then [] else Waiting(rows[..|rows| - 1]) + Ids(rows[|rows| - 1].pending)
  }

  // ---- runs -------------------------------------------------------------------------------

  datatype Event =
    | Spool(q: Request, jobId: string, live: bool, now: nat)
    | Adds(outcomes: map<nat, AddOutcome>, now: nat)
    | Tick(probes: string -> Probe, now: nat)
    | SaveState
    | Crash

  function Step(s: State, e: Event): State {
    match e
    case Spool(q, jobId, live, now) => HandleRequest(s, q, jobId, live, now)
    case Adds(outcomes, now) => ResumeAdds(s, outcomes, now)
    case Tick(probes, now) => PollJobs(s, probes, now)
    case SaveState => Save(s)
    case Crash => Restart(s)
  }

  function Run(s: State, es: seq<Event>): State
    decreases |es|
  {
    if es == [] then s else Run(Step(s, es[0]), es[1..])
  }

  const START := State([], [], [], [], [], 0, {}, false, [])

  predicate HasWork(rows: seq<Runtime>) {
    exists i :: 0 <= i < |rows| && (rows[i].job.status.Active() || rows[i].add.Some? || rows[i].pending != [])
  }

  /** Nothing is left to do for the job. */
  predicate Over(r: Runtime) {
    r.job.status in {Failed, Stopped, Completed} && r.add.None? && r.pending == []
  }

  /** There is work as long as one job is not over. */
  lemma WorkIff(rows: seq<Runtime>)
    ensures HasWork(rows) <==> exists i :: 0 <= i < |rows| && !Over(rows[i])
  {
    forall i | 0 <= i < |rows|
      ensures !Over(rows[i])
           <==> rows[i].job.status.Active() || rows[i].add.Some? || rows[i].pending != []
    {
    }
  }
}
