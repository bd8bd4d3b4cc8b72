/** The downloader daemon's data (src/core/dlctl.rs): jobs, runtimes, requests, responses. */
module DlJobs {
  import opened Common

  /** `DlStatus`. `Stopped` is only ever read back from an old state file. */
  datatype Status = Queued | Adding | Downloading | Moving | Failed | Stopped | Completed {
    predicate Active() { Queued? || Adding? || Downloading? || Moving? }
  }

  /** Why a request was refused or a job failed (the source's error texts). */
  datatype Reason =
    | NoActiveJob | NotActive | EngineNotReady | NoTorrentId | NoFileList | NoPlayableMedia
    | EngineExited | NotReadyInTime | NoDownloadsDir | EngineGoneBeforeMove
    | MoveFailed(moveText: string) | AddFailed(addText: string)

  datatype KeptFile = KeptFile(index: nat, name: string, length: nat)

  /** A torrent's file; `media` is the verdict of the source's extension tests on its name. */
  datatype Media = Video | Audio | OtherMedia
  datatype TorrentFile = TorrentFile(name: string, length: nat, media: Media)
  datatype Details = Details(files: seq<TorrentFile>, infoHash: Option<string>)

  /** A running rqbit engine: what a stream URL embeds is its port and token. */
  datatype Engine = Engine(port: nat, token: nat)

  /** One stats answer; `live` is the verdict of `torrent_state_is_live`. */
  datatype Stats = Stats(live: bool, finished: bool, fileProgress: seq<nat>)

  datatype Kind = EnqueuePlay | Stream(indices: seq<nat>)
  datatype Pending = Pending(requestId: string, kind: Kind, picked: seq<KeptFile>)

  datatype Job = Job(
    jobId: string, requestId: string, infohash: Option<string>, sourceKey: string,
    torrentName: string, kept: seq<KeptFile>, fileProgress: seq<nat>, status: Status,
    torrentId: Option<string>, error: Option<Reason>, doneAt: Option<nat>, movedTo: Option<string>)

  /** `JobRuntime`. `add` is the handle of the add thread whose result and cancel channels the
      source keeps in `add_result` and `add_cancel` (always set and cleared together). */
  datatype Runtime = Runtime(
    job: Job, engine: Option<Engine>, details: Option<Details>, add: Option<nat>,
    pending: seq<Pending>, moveDeferSince: Option<nat>, pendingSince: Option<nat>,
    appliedSelection: Option<seq<nat>>)

  datatype Response =
    | Play(requestId: string, jobId: string, torrentId: string, torrentName: string,
           engine: Engine, files: seq<KeptFile>, readyFiles: nat)
    | Refusal(requestId: string, reason: Reason)

  /** A parsed spool file. `name` is the torrent name or, without one, the item's label. */
  datatype Request =
    | Enqueue(id: string, infohash: Option<string>, sourceKey: string, name: string,
              files: seq<KeptFile>, play: bool)
    | StreamFiles(id: string, infohash: Option<string>, sourceKey: string, indices: seq<nat>)
    | Drop(jobId: Option<string>, requestId: Option<string>, infohash: Option<string>)

  /** The result of an add thread. `restricted` is the answer of the forget-and-re-add that
      narrows the torrent to the kept files: the new torrent id, or `None` when it failed. */
  datatype AddOutcome =
    | Ready(engine: Engine, torrentId: string, torrentName: string, details: Details,
            restricted: Option<string>)
    | Cancelled
    | AddError(text: string)

  /** What the outside answers during one job's stats tick. `deferred` is the streaming marker
      or /proc probe, `moveError` the first failed file move. */
  datatype Probe = Probe(
    alive: bool, stats: Option<Stats>, deferred: bool, downloadsDir: Option<string>,
    cacheDirKnown: bool, moveError: Option<string>, wallClock: nat)

  const STREAM_READY_TIMEOUT: nat := 60_000
  const MOVE_DEFER_BACKSTOP: nat := 6 * 60 * 60 * 1000

  /** `Instant::elapsed`: saturating. Times are in milliseconds. */
  function Elapsed(now: nat, since: nat): nat {
    if since <= now then now - since else 0
  }

  function LowerChar(c: char): char {
    if 'A' <= c <= 'Z' then c - 'A' + 'a' else c
  }

  function Lower(s: string): string {
    seq(|s|, i requires 0 <= i < |s| => LowerChar(s[i]))
  }

  function LowerHash(h: Option<string>): Option<string> {
    if h.Some? then Some(Lower(h.value)) else None
  }
}
