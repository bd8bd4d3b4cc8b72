/** Which files an answer has, which one a request opens first, and when the engine serves it. */
module DlFiles {
  import opened Common
  import opened DlJobs
  import opened DlRows

  // ---- the files of an answer -------------------------------------------------------------

  /** The file a torrent is played by when none is named: a video, or else an audio file, the longest of its
      kind, the first of equals. */
  ghost predicate Best(files: seq<TorrentFile>, i: nat) {
    && i < |files| && files[i].media != OtherMedia
    && (files[i].media == Audio ==> forall j :: 0 <= j < |files| ==> files[j].media != Video)
    && forall j :: 0 <= j < |files| && files[j].media == files[i].media ==>
         files[j].length < files[i].length || (files[j].length == files[i].length && i <= j)
  }

  lemma {:induction false} LongestNone(files: seq<TorrentFile>, media: Media)
    requires Longest(files, media).None?
    ensures forall j :: 0 <= j < |files| ==> files[j].media != media
  {
    forall j | 0 <= j < |files| ensures files[j].media != media {
      if files[j].media == media {
        LongestIs(files, media, j);
      }
    }
  }

  lemma BestIsPicked(files: seq<TorrentFile>)
    ensures forall i: nat :: Best(files, i) <==> PickPlayable(files) == Some(i)
  {
    var video, audio := Longest(files, Video), Longest(files, Audio);
    if video.None? {
      LongestNone(files, Video);
      if audio.None? {
        LongestNone(files, Audio);
      }
    }
    forall i: nat ensures Best(files, i) <==> PickPlayable(files) == Some(i) {
      if PickPlayable(files).Some? {
        var p := PickPlayable(files).value;
        forall j | 0 <= j < |files| && files[j].media == files[p].media
          ensures files[j].length < files[p].length || (files[j].length == files[p].length && p <= j)
        {
          LongestIs(files, files[p].media, j);
        }
        assert Best(files, p);
      }
    }
  }

  function Existing(indices: seq<nat>, n: nat): seq<nat> {
    if indices == [] then []
    else (if indices[0] < n then [indices[0]] else []) + Existing(indices[1..], n)
  }

  /** `fs` are the files of the torrent at these positions, in that order. */
  ghost predicate FilesAt(files: seq<TorrentFile>, at: seq<nat>, fs: seq<KeptFile>) {
    && |fs| == |at|
    && forall k :: 0 <= k < |at| ==>
         at[k] < |files| && fs[k] == KeptFile(at[k], files[at[k]].name, files[at[k]].length)
  }

  /** What a request is answered with: a play with the files the job keeps; a stream with those it asks for that
      the torrent has, in the order asked, or with the best one if it asks for none. */
  ghost predicate FilesOf(r: Runtime, p: Pending, fs: seq<KeptFile>)
    requires r.details.Some?
  {
    var files := r.details.value.files;
    match p.kind
    case EnqueuePlay => fs == r.job.kept
    case Stream(indices) =>
      if indices != [] then FilesAt(files, Existing(indices, |files|), fs)
      else if exists i: nat :: Best(files, i) then exists i: nat :: Best(files, i) && FilesAt(files, [i], fs)
      else fs == []
  }

  /** The file a request opens first. */
  ghost predicate Opens(r: Runtime, p: Pending, i: nat)
    requires r.details.Some?
  {
    match p.kind
    case Stream(indices) => if indices != [] then i == indices[0] else Best(r.details.value.files, i)
    case EnqueuePlay =>
      if p.picked != [] then i == p.picked[0].index
      else if r.job.kept != [] then i == r.job.kept[0].index
      else Best(r.details.value.files, i)
  }

  /** `x` is the answer to `p` from the engine of the row: its files, or that there are none to play. */
  ghost predicate Answers(r: Runtime, p: Pending, x: Response)
    requires r.details.Some?
  {
    exists fs :: FilesOf(r, p, fs) &&
      if fs == [] then x == Refusal(p.requestId, NoPlayableMedia)
      else && x.Play? && x.requestId == p.requestId && x.jobId == r.job.jobId && x.files == fs
           && r.engine == Some(x.engine) && r.job.torrentId == Some(x.torrentId)
           && x.torrentName == r.job.torrentName
           && x.readyFiles == if exists i: nat :: Opens(r, p, i) then 1 else 0
  }

  lemma {:induction false} KnownAt(files: seq<TorrentFile>, indices: seq<nat>)
    ensures FilesAt(files, Existing(indices, |files|), Known(files, indices))
    decreases |indices|
  {
    if indices != [] {
      KnownAt(files, indices[1..]);
    }
  }

  lemma OpensIsGate(r: Runtime, p: Pending)
    requires r.details.Some?
    ensures forall i: nat :: Opens(r, p, i) <==> GateFile(r, p) == Some(i)
  {
    BestIsPicked(r.details.value.files);
  }

  lemma RespondAnswers(r: Runtime, p: Pending)
    requires r.engine.Some? && r.job.torrentId.Some? && r.details.Some?
    ensures Answers(r, p, Respond(r, p))
  {
    var files := r.details.value.files;
    BestIsPicked(files);
    OpensIsGate(r, p);
    if p.kind.Stream? {
      KnownAt(files, p.kind.indices);
      if p.kind.indices == [] && PickPlayable(files).Some? {
        assert Best(files, PickPlayable(files).value);
        assert FilesAt(files, [PickPlayable(files).value], PickedFile(r.details));
      }
    }
    assert FilesOf(r, p, ResponseFiles(r, p).value);
  }

  // ---- readiness --------------------------------------------------------------------------

  /** The engine serves what the request opens: the torrent is live and complete, or reports no progress of its
      files, or has a byte of the first file the request opens, if it opens one. */
  ghost predicate Serves(r: Runtime, p: Pending, st: Stats)
    requires r.details.Some?
  {
    st.live && (st.finished || st.fileProgress == []
                || forall i: nat :: Opens(r, p, i) ==> i < |st.fileProgress| && st.fileProgress[i] > 0)
  }

  ghost predicate ServesAll(r: Runtime, st: Stats)
    requires r.details.Some?
  {
    forall k :: 0 <= k < |r.pending| ==> Serves(r, r.pending[k], st)
  }

  lemma ReadyIff(r: Runtime, st: Stats)
    requires r.details.Some?
    ensures AllReady(r, st) <==> ServesAll(r, st)
  {
    forall k | 0 <= k < |r.pending| ensures PendingReady(r, r.pending[k], st) <==> Serves(r, r.pending[k], st) {
      OpensIsGate(r, r.pending[k]);
      if GateFile(r, r.pending[k]).Some? {
        assert Opens(r, r.pending[k], GateFile(r, r.pending[k]).value);
      }
    }
  }
}
