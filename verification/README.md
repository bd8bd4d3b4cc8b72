# Verification of the downloader daemon, the MPD client hand-over and six smaller cores

A Dafny model of the parts of s2udio (an rmpc derivative) whose correctness is not settled by reading one
function, with proofs about it. `dafny verify dfyconfig.toml` checks everything.

| Files | What they model |
|---|---|
| `DlJobs`, `DlRows`, `DlSteps` | the downloader daemon: data, what a step does to one job, the state machine over the vector of jobs |
| `DlDaemon` | the daemon as a class whose methods change the vector, the responses and the state file in place, each proved equal to its step |
| `DlFiles`, `DlReplies`, `DlMerges`, `DlTickRules` | what each step comes to, said of the request or result, the row and what is written, and not by the functions that do it |
| `DlConservation`, `DlInvariants`, `DlOneEngine`, `DlTicks`, `DlResume`, `DlAdds`, `DlAnswers`, `DlRuns`, `DlRunTicks`, `DlChecked` | what holds over every run of that machine, and exactly when what its comments promise holds |
| `DlWitness`, `DlRevivals`, `DlTwoJobs` | runs from the start that reach states its comments rule out |
| `HandOver`, `HandOverRuns`, `HandOverProgress`, `HandOverRequests` | the protocol by which the main, idle and request threads pass one MPD client around, every failure and timeout included |
| `RequestBuffer` | the request thread's buffer and its rule for dropping superseded queries |
| `TorrentProxy`, `TorrentProxyBody` | the proxy that adds credentials to requests for the torrent engine |
| `CommandLine` | the shell-like tokenizer |
| `QueueRepair` | the in-place repair of MPD's queue |
| `VideoPlaylist` | the video list and the player's mirror of it |
| `ResumeSeek` | the two seek retries |
| `PaneIter` | the explicit-stack iterator over a layout |

The daemon's outside is nondeterministic: the spool is a sequence of requests, finished adds a map from add
handles to outcomes, a tick's engine answers, stream probes and clock one `Probe` per job. A run is any sequence
of events, crashes and restarts included. The requests that want an answer are kept in books (`asked`, `dropped`,
`lost`) beside the written responses, so that conservation can be stated.

The hand-over is a state machine with a program counter per thread. A step that can fail has a failing action
beside the succeeding one; reading the flag `HEALTHY` and blocking on a channel are separate steps.

## What was found

Properties that the code's comments state, or that its design is for, and the code does not have, each with a run or
state that shows it and the exact condition under which it holds:

- Deduplication "on both" the reported and the job's own infohash (src/core/dlctl.rs:1424-1437) looks for one of them.
  A second engine for a torrent appears exactly when the other one is taken (`DlOneEngine.SecondEngineIff`, reached by
  `DlTwoJobs.DisagreementMakesTwoEngines`).
- A response may be built from an engine that is being replaced, against src/core/dlctl.rs:96-104: the tick answers
  without asking (`DlTicks.OldEngineAnswersIff`, reached by `DlWitness.OldEngineIsReachable`). Nothing but a tick does
  (`DlAnswers.OnlyTicksAnswerFromOldEngines`).
- A job can complete with requests still queued. No tick or add answers them, and the daemon does not exit until the
  job is committed again or dropped (`DlTicks.StrandedIff`, `DlTicks.StrandedWaitsForever`, reached by
  `DlWitness.StrandedIsReachable`).
- A tick whose stats call fails moves a job's files unchecked. They are complete if they were not replaced since the
  last tick with stats (`DlChecked.MovingIsChecked`, `DlChecked.FailedStatsMovesChecked`); after a commit to a
  `Moving` job exactly if what it named is (`DlChecked.FailedStatsMovesUnfetchedIff`, reached by
  `DlRevivals.UnfetchedFileMoved`).
- The 60 s wait and the six-hour hold may count from an earlier life of the job. A request younger than 60 s is refused
  exactly when an older anchor was left on the row: behind a settled engine (`DlTicks.SettledRefusedIff`, reached by
  `DlRevivals.YoungRequestRefused`) as well as behind one that an add is to replace (`DlTicks.StreamRefusedIff`,
  `DlTicks.PlayRefusedIff`, reached by `DlRevivals.YoungPlayRefused`). A complete file is moved from under a live
  stream exactly when a six-hour-old anchor was left (`DlTicks.MovesUnderStreamIff`, reached by
  `DlRevivals.StreamedFileMoved`).
- An add without a result is to stay in flight (src/core/dlctl.rs:1382-1387). It is lost in a crash, or when a request
  drops its job, and in three more ways: a request commits to the job after it failed, a finished add is merged into it
  after it failed (reached by `DlTwoJobs.UnreadyAddReplaced`), or a tick completes it by the engine the add was to
  replace (reached by `DlRevivals.AddDiscardedByTick`). These are all (`DlResume.RequestKeepsAddIff`,
  `DlResume.UnreadyStays`, `DlAdds.TickKeepsAddIff`, over every run `DlAdds.AddStaysIff`).
- The comment of `merge_enqueue` speaks of a union of the kept files (src/core/dlctl.rs:1254-1256); the code replaces
  them, as its inner comment says. The model follows the code.
- Main waits for the first confirmation without a timeout (src/core/client.rs:168). One failed step of a fresh idle
  thread strands it for good (`HandOverRuns.MainCanBeStranded`, `HandOverRuns.MainStrandedForever`). Without a read
  timeout, which is the default, that and a failed socket shutdown are the only ways to get stuck
  (`HandOverRuns.StuckIff`). With `mpd_idle_read_timeout_ms` set, src/core/client.rs:138-143 frees the reader, and
  main's wait is the only one (`HandOverRuns.StuckWithTimeoutIff`).
- Quoting keeps every word but the empty one: `''` yields no token (`CommandLine.RoundTripIff`).
- A queue row MPD fails to delete stays in the queue with its rewritten copy, pushes later rows back and changes their
  order, and the repair still reports success; a row MPD refuses to add is lost (`QueueRepair.RepairWithFailures`,
  `QueueRepair.RepairKeepsOrder`, `QueueRepair.RepairedIff`, one queue in `QueueRepair.StuckRowReorders`).
- `complete_video_playlist` reports entries as appended that are dropped for want of a URL
  (`VideoPlaylist.AppendedIff`, one batch in `VideoPlaylist.ReportedNotAdded`).
- The start-offset retry is called attempt-bounded (src/core/mpv.rs:995-997). The counter is set back when the offset
  is reached, when it lies past the end, and when the budget is spent, and the video may be short of the offset again
  after each. The attempts count the seeks if and only if it never was (`ResumeSeek.AttemptsCountIff`), every setting
  back allows for 20 more (`ResumeSeek.SeeksPerSetBack`), and no number bounds them all
  (`ResumeSeek.SeeksWithoutBound`). A spent budget holds exactly if no later poll of a playing video is followed by
  one short of the offset (`ResumeSeek.BudgetHoldsIff`, one run in `ResumeSeek.TwentyFirstSeek`). The resume retry is
  bounded (`ResumeSeek.RunIsRestrained`).

## Model

| member | source | states |
|---|---|---|
| `DlRows.Respond` | src/core/dlctl.rs:2002-2115 | a response carries the id of its request, and a playable one the port and token of the row's own engine and at least one file |
| `DlFiles.RespondAnswers` | src/core/dlctl.rs:2002-2115 | an answer has the job's id, torrent id and engine and the files that belong to the request: for a play those the job keeps, for a stream those asked for that the torrent has, in that order, or its best one; with no file it says so; it counts a first file if there is one |
| `DlFiles.BestIsPicked` | src/core/torrent.rs:669-687 | the file picked when none is named is a video, or else an audio file, the longest of its kind and the first of equals |
| `DlFiles.ReadyIff` | src/core/dlctl.rs:1614-1662 | queued requests are ready if and only if the torrent is live and, for each, it is complete, or reports no progress of files, or has a byte of the first file the request opens, if there is one |
| `DlRows.LongestIs` | src/core/torrent.rs:669-687 | no file of the medium is longer, and none as long comes before |
| `DlRows.KnownIs` | src/core/dlctl.rs:2055-2115 | a stream request is answered with exactly those of its files that the torrent has |
| `DlSteps.Find` | src/core/dlctl.rs:1046-1073 | the lookup finds the first match, or there is none |
| `DlSteps.EnqueueAddsRowIff` | src/core/dlctl.rs:1116-1170 | an enqueue makes a new job if and only if no row has its hash and no row without a hash has its source key; the rows before stay |
| `DlSteps.EnqueueChangesFirst` | src/core/dlctl.rs:1050-1067 | a commit changes no row but the first of its hash, or, if no row has that, the first of its source key without a hash |
| `DlReplies.StreamDoes` | src/core/dlctl.rs:1171-1205 | a stream of a job whose engine runs, is not being replaced and is live is answered at once with its files and changes no row; else it waits with an anchor if the job is worked on or has an add; else it is refused |
| `DlReplies.StreamOfNone` | src/core/dlctl.rs:1180-1186 | a stream of a torrent no job has is refused |
| `DlReplies.CommitDoes` | src/core/dlctl.rs:1257-1298 | a commit to a known torrent replaces its files unless it names none, and starts an add if the job had ended; a play is answered at once from a settled engine with the files kept then, and else waits with its picks |
| `DlReplies.NewJobDoes` | src/core/dlctl.rs:1116-1170 | a commit of a torrent no job has makes a job, field by field, that waits for its add |
| `DlReplies.DropDoes` | src/core/dlctl.rs:1718-1744 | a stop or remove tells the job's add to stop, takes its row and queue, and leaves the others in order |
| `DlReplies.LowerIff` | src/core/dlctl.rs:1125 | two hashes are one if and only if they differ in the case of letters alone |
| `DlReplies.CaseDoesNotMatter` | src/core/dlctl.rs:1125-1179 | a request does the same in whatever case its hash is written |
| `DlSteps.DropRemovesFirst` | src/core/dlctl.rs:1212-1235 | a stop or remove takes out the job it names if there is one, else the one its request created, else the first of its hash, and no other |
| `DlSteps.DropRemovesNoneIff` | src/core/dlctl.rs:1212-1235 | it takes out nothing if and only if there is none of these |
| `DlSteps.PolledRow` | src/core/dlctl.rs:1749-1885 | a tick does to each row what its own probe says, independently of the other rows |
| `DlTickRules.TickEnds` | src/core/dlctl.rs:1826-1987 | every way a tick leaves a download: incomplete, held, failed for the first thing the move lacks, or moved with its engine given up; status, error, progress, anchor, engine, add and completion facts of each |
| `DlTickRules.HoldStartsAnew` | src/core/dlctl.rs:1866-1871 | a download that turns out incomplete again is held anew at its next completion |
| `DlTickRules.TickSelects` | src/core/dlctl.rs:1835-1856 | a tick with stats tells the engine to fetch the files the job keeps |
| `DlTickRules.DeadEngineFails` | src/core/dlctl.rs:1757-1781 | a dead engine fails its job and refuses its queue; a job without an engine is not visited |
| `DlDaemon.Daemon.constructor` | src/core/dlctl.rs:908-963 | a new daemon is the restart of the one whose state file it reads |
| `DlDaemon.Daemon.StartAdd` | src/core/dlctl.rs:1302-1370 | the row waits for the new add with status `Adding`; nothing else changes |
| `DlDaemon.Daemon.RefuseQueued` | src/core/dlctl.rs:1396-1404 | every queued request of the row is refused in order and none stays queued |
| `DlDaemon.Daemon.AnswerPending` | src/core/dlctl.rs:1667-1673 | every queued request is answered once, in order, and the wait anchor forgotten |
| `DlDaemon.Daemon.MergeEnqueue` | src/core/dlctl.rs:1257-1298 | a commit to a known torrent is the row's merge step and touches no other row |
| `DlDaemon.Daemon.StopJob` | src/core/dlctl.rs:1718-1744 | a stopped job disappears with its requests, and its add is told to cancel |
| `DlDaemon.Daemon.HandleEnqueue` | src/core/dlctl.rs:1116-1170 | an enqueue is the step of the state machine |
| `DlDaemon.Daemon.HandleStream` | src/core/dlctl.rs:1171-1205 | a stream request is the step of the state machine |
| `DlDaemon.Daemon.HandleRequest` | src/core/dlctl.rs:1114-1238 | every request is the step of the state machine |
| `DlDaemon.Daemon.MergeInto` | src/core/dlctl.rs:1678-1701 | the survivor, found again by its id after the removal, gets the files and the requests of the duplicate |
| `DlDaemon.Daemon.OnAddReady` | src/core/dlctl.rs:1415-1562 | a delivered engine is merged away or settled as in the step |
| `DlDaemon.Daemon.Settle` | src/core/dlctl.rs:1444-1561 | a delivered torrent without a duplicate settles on its row, or fails the job when nothing in it plays |
| `DlDaemon.Daemon.ResumeAdds` | src/core/dlctl.rs:1373-1413 | a pass along the indices listed before it, with rows merged and removed meanwhile, is never out of bounds and equals the step |
| `DlDaemon.Daemon.PollJobs` | src/core/dlctl.rs:1749-1885 | visiting the engine-backed jobs by id visits exactly the rows the step visits, in order |
| `DlDaemon.Daemon.PollJob` | src/core/dlctl.rs:1757-1884 | one job's pass: dead engine, queued requests, progress, move |
| `DlDaemon.Daemon.TryMove` | src/core/dlctl.rs:1893-1987 | the move step with its hold and its four ways to end |
| `DlDaemon.Daemon.WriteState` | src/core/dlctl.rs:1016-1030 | the state file is the list of jobs in order |
| `DlDaemon.Daemon.Turn` | src/core/dlctl.rs:975-993 | one turn of the daemon's loop takes the machine along exactly its events, and the daemon stays if and only if some job has not ended, has an add or queues a request |
| `DlConservation.MergeConserves` | src/core/dlctl.rs:1678-1701 | merging two jobs neither loses nor duplicates a request |
| `DlConservation.ResumeAlongConserves` | src/core/dlctl.rs:1373-1413 | a whole pass over finished adds keeps every request in its place or moves it to another |
| `DlConservation.PollConserves` | src/core/dlctl.rs:1749-1885 | a tick moves requests from queues to responses, one for one |
| `DlConservation.StepConserves` | src/core/dlctl.rs:1114-1885 | every step keeps the count of each request over queues, responses and drops equal to how often it was asked |
| `DlConservation.RunConserves` | src/core/dlctl.rs:965-993 | so does every run, crashes included |
| `DlConservation.RunAsks` | src/core/dlctl.rs:1107-1110 | the requests a run asks are those of its spool, in order |
| `DlConservation.RequestInOnePlace` | src/core/dlctl.rs:1114-1298 | after every run a request with a unique id is in exactly one place: queued once, answered once, dropped with its job, or lost in a crash |
| `DlConservation.NoUnaskedResponse` | src/core/dlctl.rs:2002-2130 | no response is ever written for an id nobody asked about |
| `DlInvariants.PollRowOk` | src/core/dlctl.rs:1757-1884 | a tick keeps the row invariant, starts no engine and no add, and leaves a completed job as it is |
| `DlInvariants.AddOk` | src/core/dlctl.rs:1395-1562 | so does an add result |
| `DlMerges.MergeDoes` | src/core/dlctl.rs:1678-1701 | after a merge the survivor keeps the files of the job that went, unless it had none; it answers that job's queue if its engine can and else takes it over; every other row stays, in order |
| `DlMerges.DuplicateIff` | src/core/dlctl.rs:1423-1442 | a delivered torrent is merged into the first other row that runs an engine for the hash reported, or else for the job's own |
| `DlMerges.SettleDoes` | src/core/dlctl.rs:1444-1561 | what a delivered torrent makes of its row, field by field: the narrowed torrent's id if narrowing worked, the hash it lacked, the files it keeps or the pick, the anchor of what waits |
| `DlMerges.AddDoes` | src/core/dlctl.rs:1392-1413 | every result of an add: merged, settled, gone or failed, and nothing else changes |
| `DlMerges.PassKeepsFiles` | src/core/dlctl.rs:1373-1413 | after a pass every job left keeps the files of the last job with files that was merged into it, or else its own, or its pick |
| `DlInvariants.MergeSound` | src/core/dlctl.rs:1678-1713 | merging keeps job ids and add handles unique while indices shift |
| `DlInvariants.StepSound` | src/core/dlctl.rs:1114-1987 | every step keeps rows backed, ids unique, handles unique and the state file current unless dirty |
| `DlOneEngine.SettleOneEngine` | src/core/dlctl.rs:1423-1451 | an engine settles only where no other row runs its torrent |
| `DlOneEngine.MergeOneEngine` | src/core/dlctl.rs:1678-1701 | merging leaves one engine for the torrent |
| `DlOneEngine.StepOneEngine` | src/core/dlctl.rs:1052-1067 | no step puts two engines on one known infohash, given non-empty hashes and an engine report that agrees with the job's own |
| `DlOneEngine.SecondEngineIff` | src/core/dlctl.rs:1424-1437 | without that agreement a second engine appears if and only if the row's own hash runs elsewhere and the torrent has something to play, picked by the commit or by the daemon |
| `DlTwoJobs.DisagreementMakesTwoEngines` | src/core/dlctl.rs:1424-1437 | a run from the start that does so: a magnet, the `.torrent` file of the same torrent, and both adds |
| `DlTicks.TickDecides` | src/core/dlctl.rs:1796-1825 | a tick with stats answers all requests queued behind an engine, also one that is being replaced, each with its files, if the engine serves every one of them; else refuses them all if the row's anchor is 60 s old; else keeps them all |
| `DlTicks.NothingWaitsPastDeadline` | src/core/dlctl.rs:851-859 | no settled row keeps a request queued past the deadline over a tick with stats |
| `DlTicks.RefusesIff` | src/core/dlctl.rs:1796-1825 | it refuses them exactly when the torrent does not serve them and an anchor 60 s old is on the row |
| `DlTicks.SettledRefusedIff` | src/core/dlctl.rs:1553-1560 | inside 60 s of the add that settles a row its requests are refused if and only if the torrent does not serve them and the row had an anchor, 60 s old, before |
| `DlTicks.StreamRefusedIff` | src/core/dlctl.rs:1186-1196 | the same of a stream request inside 60 s of its arrival, whether it waits for the torrent or for the add that replaces the engine |
| `DlTicks.PlayRefusedIff` | src/core/dlctl.rs:1280-1296 | and of a play that waits for the add that replaces the engine, which sets no anchor of its own |
| `DlRevivals.YoungPlayRefused` | src/core/dlctl.rs:1796-1825 | a run from the start in which the old engine's tick refuses such a play in the moment it comes |
| `DlTicks.StaleAnchorRefusesAtOnce` | src/core/dlctl.rs:1757-1825 | after an engine died under waiting requests, the play that revives the job is refused by its first tick if and only if those began to wait 60 s ago |
| `DlRevivals.YoungRequestRefused` | src/core/dlctl.rs:1553-1560 | a run from the start in which that happens |
| `DlTicks.CompletesIff` | src/core/dlctl.rs:1861-1986 | exactly when a tick completes a job |
| `DlTicks.MoveSafety` | src/core/dlctl.rs:1857-1907 | a tick with stats completes a job only with every kept file complete in those very stats, and under a live stream only six hours after the recorded completion |
| `DlChecked.MovingIsChecked` | src/core/dlctl.rs:1833-1883 | in every reachable state a `Moving` job whose files were not replaced since its last tick with stats has each complete in what that tick recorded |
| `DlChecked.FailedStatsMovesChecked` | src/core/dlctl.rs:1872-1883 | so a tick without stats that completes such a job moves complete files only, after every run |
| `DlChecked.FailedStatsMovesUnfetchedIff` | src/core/dlctl.rs:1872-1883 | after a commit to a `Moving` job a tick without stats moves all complete files if and only if the record shows those the commit named complete |
| `DlRevivals.UnfetchedFileMoved` | src/core/dlctl.rs:1872-1883 | a run from the start that moves a file of which nothing was fetched |
| `DlTicks.MovesUnderStreamIff` | src/core/dlctl.rs:1863-1907 | under a live stream a complete download is moved if and only if an anchor six hours old was on the row before the tick |
| `DlTicks.StaleAnchorMovesUnderStream` | src/core/dlctl.rs:1863-1865 | a completed job that is committed and fetched again is moved from under a live stream by the first tick that finds it complete if and only if its earlier completion is six hours old |
| `DlRevivals.StreamedFileMoved` | src/core/dlctl.rs:1863-1865 | a run from the start in which that happens |
| `DlTicks.StrandedIff` | src/core/dlctl.rs:1796-1883 | exactly when a tick completes a job with requests still queued |
| `DlTicks.StrandedWaitsForever` | src/core/dlctl.rs:1750-1755 | no tick ever answers them |
| `DlTicks.OldEngineAnswersIff` | src/core/dlctl.rs:1796-1807 | a tick answers from an engine that is being replaced exactly when the torrent serves every queued request and has a file for one of them |
| `DlAnswers.OnlyTicksAnswerFromOldEngines` | src/core/dlctl.rs:96-104 | no request, finished add, save or restart answers from an engine that is being replaced; along a pass, each add by the rows as they are then |
| `DlWitness.StrandedIsReachable` | src/core/dlctl.rs:1171-1205 | commit, add, stream request, one tick: a completed job with a stranded request |
| `DlWitness.OldEngineIsReachable` | src/core/dlctl.rs:1280-1296 | commit, add, failed move, play, one tick: an answer from the engine being replaced |
| `DlResume.OutcomesReachTheirOwnRow` | src/core/dlctl.rs:1373-1413 | after a pass every row has its own former engine, status, error and names, or those its own add brought; an outcome that was taken is what its row shows; and a job is gone only if its own add was cancelled or delivered |
| `DlResume.UnreadyReplacedIff` | src/core/dlctl.rs:1382-1387 | over one finished add a row keeps its own unfinished one if and only if that add is not merged into the row after its job failed |
| `DlResume.UnreadyStays` | src/core/dlctl.rs:1373-1413 | a row whose add has no result yet keeps it through a pass, wherever merges move the row, if and only if no finished add of the pass is merged into it so |
| `DlResume.RequestKeepsAddIff` | src/core/dlctl.rs:1280-1284 | over a request a job keeps its add in flight if and only if the request neither drops it nor commits to it after it failed |
| `DlTwoJobs.UnreadyAddReplaced` | src/core/dlctl.rs:1678-1701 | a run from the start in which a merge replaces an unfinished add |
| `DlAdds.TickKeepsAddIff` | src/core/dlctl.rs:1975-1986 | a tick takes an add in flight from a row if and only if it completes the job by the engine the add was to replace |
| `DlAdds.StepKeepsAddIff` | src/core/dlctl.rs:965-993 | over any event a job keeps an add without a result if and only if the event is none of these, nor a drop or a crash |
| `DlAdds.AddStaysIff` | src/core/dlctl.rs:965-993 | and over any run in which no result comes, if and only if none of its events is |
| `DlRevivals.AddDiscardedByTick` | src/core/dlctl.rs:1975-1986 | a run from the start in which a tick does so |
| `DlResume.PassConsumes` | src/core/dlctl.rs:1373-1413 | a pass with a finished add consumes at least one |
| `DlResume.PassesDrain` | src/core/dlctl.rs:981-993 | as many passes as finished adds consume them all, however merges shift the vector |
| `DlRuns.RunSound` | src/core/dlctl.rs:965-993 | the invariants hold over every run with fresh job ids |
| `DlRuns.ReachableRowsOk` | src/core/dlctl.rs:153-158 | in every reachable state active jobs are backed, completed ones have neither engine nor add, and requests behind a settled engine have their anchor |
| `DlRuns.RunOneEngine` | src/core/dlctl.rs:1415-1451 | no reachable state runs two engines for one known torrent, given non-empty hashes and engine reports that agree with the jobs' own |
| `DlRuns.RunDropsNothing` | src/core/dlctl.rs:1392-1394 | without stop, remove or crash no request is ever dropped, given that an add reports `Cancelled` only after it was told to stop |
| `DlRuns.RequestQueuedOrAnswered` | src/core/dlctl.rs:1114-1298 | so each is queued once or answered once |
| `DlRuns.CompletedStays` | src/core/dlctl.rs:1114-1238 | a completed row stays as it is over any run without a crash until a request commits to it or drops it |
| `DlRuns.OnlyCommitOrDropEndsCompleted` | src/core/dlctl.rs:1114-1238 | a request changes a completed row only by committing to it again or dropping it |
| `DlRuns.RestartAdopts` | src/core/dlctl.rs:927-963 | a restart keeps ids, order and terminal rows and re-adds the active ones |
| `DlRuns.CompletedSurvives` | src/core/dlctl.rs:924-926 | the job of a saved completed row survives any number of crashes, with any events between, until a request commits to it or drops it |
| `DlRuns.IdleExit` | src/core/dlctl.rs:1038-1044 | the daemon leaves its loop only with every job ended, every request answered, dropped or lost and no add in flight |
| `DlRuns.LeavesNoJobBehind` | src/core/dlctl.rs:1038-1044 | in every reachable state in which it leaves, an engine it drops is one of a job that failed or was stopped |
| `DlRunTicks.TickSays` | src/core/dlctl.rs:1749-1885 | a tick writes the responses of its rows in row order and nothing else |
| `DlRunTicks.EveryRequestHasADeadline` | src/core/dlctl.rs:1796-1825 | after any run, a tick with stats answers or refuses all requests queued behind an engine if the torrent serves them or 60 s have passed since an anchor, and else keeps all; behind a settled engine the anchor is set |
| `DlRunTicks.EveryMoveOfEveryRun` | src/core/dlctl.rs:1857-1986 | after any run, exactly when a tick completes a job and when it strands its requests; with stats every kept file is complete in them, and under a live stream the recorded completion is six hours old |
| `HandOver.StepInv` | src/core/client.rs:90-280 | every step of every thread, failing or not, keeps the token, session, flag, turn and waiting invariants |
| `HandOver.RunInv` | src/core/client.rs:90-280 | they hold in every reachable state |
| `HandOverRuns.OneHolder` | src/core/client.rs:84-107 | in every reachable state exactly one of main, idle guard, request guard and return slot has the client |
| `HandOverRuns.SendNeverBlocks` | src/core/client.rs:303-312 | whoever has the client finds the slot empty, so giving it back never blocks |
| `HandOverRuns.ClientIsBackAfterASession` | src/core/client.rs:98-104 | once both threads have ended the slot is full, so main's next receive succeeds |
| `HandOverRuns.StrictAlternation` | src/core/client.rs:118-161 | in every run the takers of a session are idle, request, idle, request and so on |
| `HandOverRuns.FailedIff` | src/core/client.rs:45-63 | the run's record of failure is exact |
| `HandOverRuns.NoCircularWait` | src/core/client.rs:116-259 | without a failed step no thread can move if and only if idle holds the client in `read_response` and the request thread selects on an empty queue; MPD is then in idle, so an event or a request wakes it |
| `HandOverRuns.StuckIff` | src/core/client.rs:116-268 | with failures exactly two more states are stuck unless a read times out: main waiting for an idle thread that ended, and idle reading after a failed shutdown |
| `HandOverRuns.StuckWithTimeoutIff` | src/core/client.rs:136-145 | a configured read timeout frees that reader, and leaves main's wait as the only other one |
| `HandOverRuns.MainCanBeStranded` | src/core/client.rs:168 | one failed step of a fresh idle thread gets there |
| `HandOverRuns.MainStrandedForever` | src/core/client.rs:168 | and no continuation leaves it |
| `HandOverProgress.StepFalls` | src/core/client.rs:116-259 | without a failed step every step of a thread brings the threads nearer to rest, and only a request or an event of MPD adds work |
| `HandOverProgress.BoundedProgress` | src/core/client.rs:116-259 | so from any state the threads take no more steps than are left there and the outside brings: between two outside events a bounded number |
| `HandOverProgress.StepsOfARun` | src/core/client.rs:84-259 | a whole run takes at most 11 steps to start, 30 for each request and 19 for each event of MPD |
| `HandOverProgress.ComesToRest` | src/core/client.rs:116-259 | and left alone the threads reach the rest state, with every request taken and every answer read |
| `HandOverRequests.RequestsAccounted` | src/core/client.rs:176-253 | in every run without a failed step each request is in the queue, in the request thread's hands, or processed, and it has some in hand exactly while it is on its way to MPD with them |
| `HandOverRequests.ReturnsWithAllDone` | src/core/client.rs:219-256 | when the request thread gives the client back, every request it took is processed |
| `HandOverRequests.WorksIffInHand` | src/core/client.rs:190-217 | with the client it goes to work if and only if it has a request in hand, and else gives it back |
| `HandOverRequests.AtRestAllIsDone` | src/core/client.rs:116-259 | when the threads rest, the requests processed are all that came in, and the events passed on all that MPD answered |
| `HandOverRequests.EveryRequestIsProcessed` | src/core/client.rs:116-259 | every run without a failed step goes on, by the threads alone, to a state in which all requests so far are processed |
| `RequestBuffer.ShouldSkipRequest` | src/core/client.rs:65-73 | the scan finds a superseding query if there is one |
| `RequestBuffer.Drain` | src/core/client.rs:219-253 | the loop executes what the specification says, for every interleaving of arrivals |
| `RequestBuffer.ReceivedInOrder` | src/core/client.rs:219-223 | requests are taken in the order they came, and the buffer is emptied |
| `RequestBuffer.ReceivedExactly` | src/core/client.rs:219-223 | and all that came before the last check are taken |
| `RequestBuffer.ExecutedAreChosen` | src/core/client.rs:219-253 | the executed requests are a subsequence of the received ones |
| `RequestBuffer.UnreplaceableExecutedOnce` | src/core/client.rs:225-231 | commands, synchronous queries and queries without a replace id are executed exactly once, in order |
| `RequestBuffer.NewestIsExecutedLast` | src/shared/mpd_query.rs:49-61 | of the queries that can stand in for each other the newest is executed, and last: each skipped one gets a younger answer |
| `RequestBuffer.SkippedIff` | src/core/client.rs:225-228 | a request is skipped if and only if a query with the same id, replace id and target had come in when it was checked |
| `TorrentProxy.FindHeadEnd` | src/core/torrent_proxy.rs:195-197 | the first blank line's end, or there is none |
| `TorrentProxy.FindInLonger` | src/core/torrent_proxy.rs:183-187 | what is found in the buffer is what is found in the whole stream |
| `TorrentProxy.ReadHead` | src/core/torrent_proxy.rs:175-192 | for every chunking: head, surplus and the unread rest are the stream, and the outcome is that of the stream |
| `TorrentProxy.OutcomeByLength` | src/core/torrent_proxy.rs:179-191 | a head up to 1 MiB + 1 is always read, one beyond 1 MiB + 4096 never, and without a blank line the error follows from the length |
| `TorrentProxy.FindsAuth` | src/core/torrent_proxy.rs:215-228 | the loop finds credentials if any field has them |
| `TorrentProxy.RewriteHead` | src/core/torrent_proxy.rs:200-250 | the loops print the rewritten head |
| `TorrentProxy.Relay` | src/core/torrent_proxy.rs:137-146 | everything the client still sends reaches the engine, in order |
| `TorrentProxy.HandleConnection` | src/core/torrent_proxy.rs:113-150 | the engine receives the rewritten head and then all the client sent behind its head |
| `TorrentProxyBody.EngineSeesTheLines` | src/core/torrent_proxy.rs:211-249 | the engine reads the client's lines in order, `Connection` closed, one `Authorization` after the request line if there was none |
| `TorrentProxyBody.EngineReads` | src/core/torrent_proxy.rs:211-249 | line by line: the request line, `Authorization: ` with our credentials if no field of the client has any, each field of the client with `Connection` closed in whatever case it is written, a blank line |
| `TorrentProxyBody.ClientLines` | src/core/torrent_proxy.rs:211-214 | the client's lines are all of its head but the blank ones at its end |
| `TorrentProxyBody.LinesOfJoin` | src/core/torrent_proxy.rs:211 | reading lines back is the inverse of writing them |
| `TorrentProxyBody.LinesOfLf` | src/core/torrent_proxy.rs:211 | lines that end in LF alone read back as well |
| `TorrentProxyBody.BodyNotShiftedIff` | src/core/torrent_proxy.rs:202-214 | the engine's body begins where the client's did if and only if no blank line is inside the head |
| `TorrentProxyBody.NoBlankInside` | src/core/torrent_proxy.rs:195-214 | a head as it is cut from the stream, with CRLF line ends, has none |
| `TorrentProxyBody.BodyNeverShifted` | src/core/torrent_proxy.rs:113-123 | end to end: the first blank line sent ends the rewritten head and exactly the client's body follows |
| `TorrentProxyBody.HandleAndDeliver` | src/core/torrent_proxy.rs:113-150 | one connection end to end: up to the first blank line the engine receives the rewritten head, behind it all the client sent behind its own |
| `CommandLine.SplitCommandLine` | src/config/cli.rs:584-618 | the loop computes the tokenizer of the specification |
| `CommandLine.SplitOfJoined` | src/config/cli.rs:571-618 | words written in any mixture of bare text, backslashes, single and double quotes and joined by blanks split into the words that are not empty, the last one taken at the end of the text |
| `CommandLine.RoundTripIff` | src/config/cli.rs:596-611 | the words come back if and only if none is empty |
| `CommandLine.SplitPlus` | src/config/cli.rs:591-618 | a complete line, any white space and any other line: the tokens of both, or the other's error |
| `CommandLine.DanglingBackslashFails` | src/config/cli.rs:608-610 | a backslash behind complete words is an error |
| `CommandLine.UnclosedQuoteFails` | src/config/cli.rs:611-613 | a quote that is opened behind them and not closed is the other one |
| `CommandLine.EatenTokens` | src/config/cli.rs:603-607 | no token is ever empty |
| `CommandLine.SplitAgain` | src/config/cli.rs:584-618 | writing the tokens with escapes, joined by blanks, and splitting again gives the same tokens |
| `QueueRepair.ValueOfDecimal` | src/core/stream_cache.rs:469-472 | a port reads back as printed |
| `QueueRepair.RewrittenIff` | src/core/stream_cache.rs:460-473 | exactly the buffered URLs whose port is a 16-bit number other than ours are rewritten, and only the port changes |
| `QueueRepair.PlaceValue` | src/core/stream_cache.rs:469 | the digits of a port count by their place, leading zeros included |
| `QueueRepair.DigitValue` | src/core/stream_cache.rs:469 | and each for itself |
| `QueueRepair.RewrittenOnce` | src/core/stream_cache.rs:463-473 | a rewritten URL is never rewritten again |
| `QueueRepair.RepairBufferedQueuePorts` | src/ctx.rs:600-624 | the loop over the snapshot changes MPD's queue and reports as the specification says |
| `QueueRepair.RepairRefinesMap` | src/ctx.rs:597-624 | deleting and inserting row by row is the pointwise rewrite: same length and order, unchanged rows keep their ids, changed ones get new ones |
| `QueueRepair.RepairIsIdempotent` | src/ctx.rs:608-618 | a second repair finds nothing to do |
| `QueueRepair.RepairWithFailures` | src/ctx.rs:600-624 | whichever deletions and additions fail: success is reported if and only if none was refused; the repair ends at the first refused row; exactly the rows it did not delete are still there, and every earlier one is there rewritten; the length is the old one, one more for each stuck row, one less for a lost one |
| `QueueRepair.RepairKeepsOrder` | src/ctx.rs:600-624 | whichever fail: every copy stands where its row stood, and around the copies, in their old order, stand the rows not to be rewritten, those not deleted and those behind the refused one |
| `QueueRepair.StuckRowReorders` | src/ctx.rs:612 | a queue in which a failed deletion changes the order of two later rows |
| `QueueRepair.RefusedRowIsLost` | src/ctx.rs:612-613 | when only additions fail, the order too: the rows before the first refused one rewritten in place, that one gone, the rest kept |
| `QueueRepair.RepairedIff` | src/ctx.rs:612-624 | success is reported if and only if no addition was refused, and the queue is the rewrite with success reported if and only if no deletion failed either |
| `QueueRepair.ChangedIff` | src/ctx.rs:612-624 | a change is reported if and only if a rewritten row was put in |
| `VideoPlaylist.Videos.AddToVideoPlaylist` | src/core/mpv.rs:1242-1280 | the insertions are one splice behind the current row, or an append, and the running player gets the same entries |
| `VideoPlaylist.Videos.FillRows` | src/core/mpv.rs:1299-1326 | the loops fill both lists and part the batch as the specification says |
| `VideoPlaylist.Videos.CompleteVideoPlaylist` | src/core/mpv.rs:1294-1338 | filling, then adding what found no placeholder; the two numbers reported add up to the batch |
| `VideoPlaylist.FillPendingIn` | src/core/mpv.rs:1375-1390 | the in-place loop over the rows names what the specification names and counts it |
| `VideoPlaylist.FillDoes` | src/core/mpv.rs:1301-1320 | an entry takes the place of the first row that waits for its link, the one it was resolved from or else its own URL, and waits no more; with no such row it changes nothing |
| `VideoPlaylist.FillingKeepsTheList` | src/core/mpv.rs:1281-1288 | filling moves no row, touches no resolved row, keeps every lookup URL, and fills a placeholder once |
| `VideoPlaylist.FilledFrontToBack` | src/core/mpv.rs:1306-1312 | placeholders of one link are filled from the front |
| `VideoPlaylist.PlaceholdersLeft` | src/core/mpv.rs:1301-1326 | each entry of a link takes one placeholder of that link while there are any |
| `VideoPlaylist.UnmatchedCount` | src/core/mpv.rs:1321-1325 | the entries left over are those beyond the placeholders of either list |
| `VideoPlaylist.ResolvedPlusAppended` | src/core/mpv.rs:1291-1293 | the two reported numbers add up to the batch |
| `VideoPlaylist.AppendedIff` | src/core/mpv.rs:1294-1338 | the number reported as appended is the growth of the list if and only if every entry without a placeholder has a URL, and is larger otherwise |
| `VideoPlaylist.ReportedNotAdded` | src/core/mpv.rs:1247-1253 | one entry without a URL: one reported, none added |
| `VideoPlaylist.CurrentIff` | src/core/mpv.rs:1255-1264 | the current row is the first one with the URL of the entry the player is at |
| `VideoPlaylist.SplicedAt` | src/core/mpv.rs:1262-1272 | added entries stand in order right behind the current row, or at the end |
| `VideoPlaylist.WithUrlPlus` | src/core/mpv.rs:1247-1253 | entry by entry, those without a URL are dropped and no other |
| `VideoPlaylist.WithUrlOfOne` | src/core/mpv.rs:1247-1253 | an entry goes if and only if its URL is empty |
| `VideoPlaylist.PickPlus` | src/core/mpv.rs:1316-1325 | a batch is parted entry by entry, in order |
| `VideoPlaylist.PickOfOne` | src/core/mpv.rs:1316-1325 | an entry goes where it was matched to, and waits no more |
| `VideoPlaylist.CurrentStays` | src/core/mpv.rs:1255-1267 | the current row keeps its index |
| `VideoPlaylist.NameDoes` | src/core/mpv.rs:1375-1390 | a title goes to the first row that waits for its link without a name |
| `VideoPlaylist.OnlyBlankNamesChange` | src/core/mpv.rs:1345-1348 | early names go only to placeholders without a name and change nothing else |
| `VideoPlaylist.NamedRows` | src/core/mpv.rs:1350-1390 | the number reported is the number of rows that got a name |
| `ResumeSeek.Player.ApplyPendingResumeSeek` | src/core/mpv.rs:1073-1102 | the poll changes the armed target and seeks as the specification says |
| `ResumeSeek.RunIsRestrained` | src/core/mpv.rs:976-980 | from one arming any sequence of polls sends at most 20 seeks, half a second apart, each while playback is on and more than 5 s short of the target |
| `ResumeSeek.NoSeekOnceDisarmed` | src/core/mpv.rs:1077-1095 | none after it has disarmed |
| `ResumeSeek.SeeksIff` | src/core/mpv.rs:1081-1101 | exactly when a poll seeks, and that a spent budget disarms |
| `ResumeSeek.DisarmsIff` | src/core/mpv.rs:1077-1095 | exactly when a poll gives the retry up; while the player opens the entry it stays armed |
| `ResumeSeek.EntryPlayer.ApplyEntryStartSeek` | src/core/mpv.rs:1000-1056 | the poll for a link's start offset |
| `ResumeSeek.EntrySeeksIff` | src/core/mpv.rs:1019-1056 | exactly when a poll for a start offset seeks, and what it notes |
| `ResumeSeek.SetBackIff` | src/core/mpv.rs:1019-1049 | exactly when it sets the counter back |
| `ResumeSeek.AttemptsCountIff` | src/core/mpv.rs:1019-1056 | the counter is the number of seeks if and only if no poll set it back, and never more |
| `ResumeSeek.SeeksPerSetBack` | src/core/mpv.rs:1019-1056 | at most 20 seeks for each setting back and those since |
| `ResumeSeek.SeeksWithoutBound` | src/core/mpv.rs:1019-1024 | for every number a run with ten times as many seeks whose budget is never spent |
| `ResumeSeek.BudgetHoldsIff` | src/core/mpv.rs:1019-1049 | once the budget is spent, whatever polls follow, no seek is added if and only if after none that finds playback under way another finds it short of the offset |
| `ResumeSeek.TwentyFirstSeek` | src/core/mpv.rs:1019-1049 | twenty seeks, the offset reached, the viewer goes back, one more seek |
| `PaneIter.Panes.constructor` | src/config/tabs.rs:976-986 | a fresh iterator is to yield the panes from right to left |
| `PaneIter.Panes.Next` | src/config/tabs.rs:965-974 | the call terminates and yields the next pane, or nothing for good |
| `PaneIter.PanesOf` | src/config/tabs.rs:960-987 | the whole iteration is the reverse of the left-to-right leaves, and yields each pane as often as it is in the layout |
| `PaneIter.CountLeaves` | src/config/tabs.rs:960-987 | the left-to-right leaves have each pane as often as the layout |

## Left out

- Files, sockets, processes, signals, JSON, the state file's header and atomic renames: the state file is a list of jobs, a response an entry of a list.
- The shutdown signal of the daemon: a run may end, or crash, after any event.
- A failed spawn of an add thread (src/core/dlctl.rs:1363-1369): spawning is taken to succeed.
- The add and cancel channels of a job are one handle, because the source sets and clears them together; the handle's number is an artefact of the model.
- `to_lowercase` of a hash changes ASCII letters only: hashes are hexadecimal or base 32.
- Progress percentages, `updated_at`, the proxy URL and cache directory of an engine, token sidecars and log lines.
- Error texts are values of `Reason`; the verdicts on a file's extension and on a torrent's state are inputs.
- The bodies of `torrent_stats`, `forget_torrent`, `restrict_to_picked_files` and the file moves: their answers are inputs.
- A daemon killed between handling a request and removing its spool file (src/core/dlctl.rs:1108-1109) consumes the request again when it restarts. That is the run of the request, a crash and the request once more, but then its id is asked twice, of which `DlConservation.RequestInOnePlace` does not speak.
- The branch of `poll_jobs` for a job id that is gone: the tick removes no row, so it does not occur.
- HandOver.StepInv: a thread that leaves its loop sets `HEALTHY` and gives the client back in one step, and spawning threads and cloning the stream succeed, as the source expects.
- RequestBuffer.Drain: does not model a failed step inside the drain, which ends the thread and drops what is still buffered.
- TorrentProxy.RewriteHead: models a head as characters; the lossy decoding of a head that is not UTF-8 is not modelled.
- TorrentProxy.HandleConnection: models the client-to-engine direction until the client closes; the engine's answer and an engine that closes early are not modelled.
- QueueRepair.RepairBufferedQueuePorts: ids are unbounded, and no other client changes the queue meanwhile.
- VideoPlaylist.Videos.AddToVideoPlaylist: saving the list and switching the tab are left out.
- ResumeSeek.RunIsRestrained: positions and times are real numbers; NaN is not modelled.
- The tray, window scripts, watchers, sockets, the instance lock, video resume files, configuration parsing and everything drawn on screen: plumbing, or settled by reading one branch.
