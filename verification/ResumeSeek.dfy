/** Seeking to the place where a video was left, until the player takes it (src/core/mpv.rs). */
module ResumeSeek {
  import opened Common

  const MAX_ATTEMPTS := 20
  /** In seconds. */
  const RETRY_INTERVAL := 0.5
  const NEAR := 5.0

  /** What the poll finds: the player's position, the known duration (0 for none), the time. */
  datatype Poll = Poll(position: real, duration: real, now: real)

  datatype Target = Target(secs: real, attempts: nat, last: Option<real>)

  // ---- one poll ---------------------------------------------------------------------------

  predicate TooSoon(last: Option<real>, now: real) { last.Some? && now - last.value < RETRY_INTERVAL }

  function AfterPoll(armed: Option<Target>, p: Poll): Option<Target> {
    if armed.None? then None
    else
      var t := armed.value;
      if p.position > 0.0 && p.position >= t.secs - NEAR then None
      else if p.position <= 0.0 then armed
      else if p.duration > 0.0 && t.secs >= p.duration - NEAR then None
      else if t.attempts >= MAX_ATTEMPTS then None
      else if TooSoon(t.last, p.now) then armed
      else Some(Target(t.secs, t.attempts + 1, Some(p.now)))
  }

  /** The poll seeks exactly when it counts an attempt. */
  predicate Seeks(armed: Option<Target>, p: Poll) {
    armed.Some? && AfterPoll(armed, p).Some? && AfterPoll(armed, p).value.attempts > armed.value.attempts
  }

  datatype Seek = Seek(at: real, secs: real, position: real)

  class Player {
    var resumeSeek: Option<Target>
    var sent: seq<Seek>

    constructor ()
      ensures resumeSeek == None && sent == []
    {
      resumeSeek, sent := None, [];
    }

    method ApplyPendingResumeSeek(p: Poll)
      modifies this
      ensures resumeSeek == AfterPoll(old(resumeSeek), p)
      ensures sent == old(sent)
        + if Seeks(old(resumeSeek), p) then [Seek(p.now, old(resumeSeek).value.secs, p.position)] else []
    {
      if resumeSeek.None? {
        return;
      }
      var Target(secs, attempts, last) := resumeSeek.value;
      if p.position > 0.0 && p.position >= secs - NEAR {
        resumeSeek := None;
        return;
      }
      if p.position <= 0.0 {
        return;
      }
      if p.duration > 0.0 && secs >= p.duration - NEAR {
        resumeSeek := None;
        return;
      }
      if attempts >= MAX_ATTEMPTS {
        resumeSeek := None;
        return;
      }
      if TooSoon(last, p.now) {
        return;
      }
      resumeSeek := Some(Target(secs, attempts + 1, Some(p.now)));
      sent := sent + [Seek(p.now, secs, p.position)];
    }
  }

  // ---- whole runs -------------------------------------------------------------------------

  function Armed(secs: real): Option<Target> { Some(Target(secs, 0, None)) }

  function AfterPolls(armed: Option<Target>, polls: seq<Poll>): Option<Target> {
    if polls == [] then armed else AfterPoll(AfterPolls(armed, polls[..|polls| - 1]), polls[|polls| - 1])
  }

  /** The seeks of a run, in order. */
  function Sent(armed: Option<Target>, polls: seq<Poll>): seq<Seek> {
    if polls == [] then []
    else
      var before, p := AfterPolls(armed, polls[..|polls| - 1]), polls[|polls| - 1];
      Sent(armed, polls[..|polls| - 1])
      + if Seeks(before, p) then [Seek(p.now, before.value.secs, p.position)] else []
  }

  /** The target stays, the attempts count the seeks, and `last` is the time of the last one. */
  ghost predicate Books(secs: real, now: Option<Target>, sent: seq<Seek>) {
    now.Some? ==>
      && now.value.secs == secs && now.value.attempts == |sent|
      && now.value.last == if sent == [] then None else Some(sent[|sent| - 1].at)
  }

  /** At most 20 seeks, all to the target, each while playback is on and more than 5 s short of it, and
      any two in a row at least half a second apart. */
  ghost predicate Restrained(secs: real, sent: seq<Seek>) {
    && |sent| <= 20
    && (forall i :: 0 <= i < |sent| ==> sent[i].secs == secs && 0.0 < sent[i].position < secs - 5.0)
    && forall i :: 0 < i < |sent| ==> sent[i].at - sent[i - 1].at >= 0.5
  }

  lemma PollIsRestrained(secs: real, armed: Option<Target>, sent: seq<Seek>, p: Poll)
    requires Restrained(secs, sent) && Books(secs, armed, sent)
    ensures var now := sent + if Seeks(armed, p) then [Seek(p.now, armed.value.secs, p.position)] else [];
      Restrained(secs, now) && Books(secs, AfterPoll(armed, p), now)
  {
    if Seeks(armed, p) {
      var now := sent + [Seek(p.now, armed.value.secs, p.position)];
      assert forall i :: 0 <= i < |sent| ==> now[i] == sent[i];
    } else {
      assert sent + [] == sent;
    }
  }

  /** From one arming, whatever the polls find and however they are spaced. */
  lemma {:induction false} RunIsRestrained(secs: real, polls: seq<Poll>)
    ensures Restrained(secs, Sent(Armed(secs), polls))
    ensures Books(secs, AfterPolls(Armed(secs), polls), Sent(Armed(secs), polls))
  {
    if polls != [] {
      var before := polls[..|polls| - 1];
      RunIsRestrained(secs, before);
      PollIsRestrained(secs, AfterPolls(Armed(secs), before), Sent(Armed(secs), before), polls[|polls| - 1]);
    }
  }

  lemma {:induction false} NothingAfterDisarming(polls: seq<Poll>)
    ensures AfterPolls(None, polls) == None && Sent(None, polls) == []
  {
    if polls != [] {
      NothingAfterDisarming(polls[..|polls| - 1]);
    }
  }

  lemma {:induction false} RunInParts(armed: Option<Target>, a: seq<Poll>, b: seq<Poll>)
    ensures AfterPolls(armed, a + b) == AfterPolls(AfterPolls(armed, a), b)
    ensures Sent(armed, a + b) == Sent(armed, a) + Sent(AfterPolls(armed, a), b)
    decreases |b|
  {
    if b == [] {
      assert a + b == a;
    } else {
      assert (a + b)[..|a + b| - 1] == a + b[..|b| - 1];
      RunInParts(armed, a, b[..|b| - 1]);
    }
  }

  /** Once a run has disarmed, it never seeks again. */
  lemma NoSeekOnceDisarmed(secs: real, a: seq<Poll>, b: seq<Poll>)
    requires AfterPolls(Armed(secs), a) == None
    ensures Sent(Armed(secs), a + b) == Sent(Armed(secs), a)
  {
    RunInParts(Armed(secs), a, b);
    NothingAfterDisarming(b);
    assert Sent(Armed(secs), a) + [] == Sent(Armed(secs), a);
  }

  /** A place within reach: playback is on, more than 5 s short of it, and it is not at the end. */
  predicate WithinReach(secs: real, p: Poll) {
    0.0 < p.position < secs - 5.0 && !(p.duration > 0.0 && secs >= p.duration - 5.0)
  }

  /** A poll seeks if and only if the place is within reach, the budget is not spent, and half a second has
      passed; with the budget spent it disarms. */
  lemma SeeksIff(secs: real, polls: seq<Poll>, p: Poll)
    ensures var armed, sent := AfterPolls(Armed(secs), polls), Sent(Armed(secs), polls);
      && (Seeks(armed, p) <==>
            armed.Some? && WithinReach(secs, p) && |sent| < 20
            && (sent == [] || p.now - sent[|sent| - 1].at >= 0.5))
      && (WithinReach(secs, p) && |sent| >= 20 ==> AfterPoll(armed, p) == None)
  {
    RunIsRestrained(secs, polls);
  }

  /** An armed retry is given up if and only if playback is on and has come within 5 s of the place or gone past
      it, or the place is at the end of the video, or 20 seeks were sent. While the player still opens the entry
      it stays as it is. */
  lemma DisarmsIff(secs: real, polls: seq<Poll>, p: Poll)
    requires AfterPolls(Armed(secs), polls).Some?
    ensures var armed, sent := AfterPolls(Armed(secs), polls), Sent(Armed(secs), polls);
      && (AfterPoll(armed, p).None? <==>
            p.position > 0.0
            && (p.position >= secs - 5.0 || (p.duration > 0.0 && secs >= p.duration - 5.0) || |sent| >= 20))
      && (p.position <= 0.0 ==> AfterPoll(armed, p) == armed)
  {
    RunIsRestrained(secs, polls);
  }

  // ---- the start offset of a pasted link --------------------------------------------------

  /** The retry for an offset a link carried; `pos` is the entry the attempts were made for. */
  datatype Start = Start(pos: nat, attempts: nat, last: Option<real>)

  function Attempts(start: Option<Start>, pos: nat): nat {
    if start.Some? && start.value.pos == pos then start.value.attempts else 0
  }

  function LastAttempt(start: Option<Start>, pos: nat): Option<real> {
    if start.Some? && start.value.pos == pos then start.value.last else None
  }

  /** One poll while the player is on entry `pos`, which wants to start at `secs`. */
  function AfterEntryPoll(start: Option<Start>, pos: nat, secs: real, p: Poll): Option<Start> {
    if secs <= 0.0 then start
    else if p.position >= secs then None
    else if p.position <= 0.0 then start
    else if p.duration > 0.0 && secs >= p.duration then None
    else if Attempts(start, pos) >= MAX_ATTEMPTS then None
    else if TooSoon(LastAttempt(start, pos), p.now) then start
    else Some(Start(pos, Attempts(start, pos) + 1, Some(p.now)))
  }

  predicate EntrySeeks(start: Option<Start>, pos: nat, secs: real, p: Poll) {
    var after := AfterEntryPoll(start, pos, secs, p);
    after.Some? && after != start
  }

  class EntryPlayer {
    var startSeek: Option<Start>
    var sent: seq<real>

    constructor ()
      ensures startSeek == None && sent == []
    {
      startSeek, sent := None, [];
    }

    method ApplyEntryStartSeek(p: Poll, playlistPos: Option<nat>, startSecs: Option<real>)
      modifies this
      ensures playlistPos.None? || startSecs.None? ==> startSeek == old(startSeek) && sent == old(sent)
      ensures playlistPos.Some? && startSecs.Some? ==>
        && startSeek == AfterEntryPoll(old(startSeek), playlistPos.value, startSecs.value, p)
        && sent == old(sent)
          + if EntrySeeks(old(startSeek), playlistPos.value, startSecs.value, p) then [startSecs.value] else []
    {
      if playlistPos.None? || startSecs.None? || startSecs.value <= 0.0 {
        return;
      }
      var pos, secs := playlistPos.value, startSecs.value;
      if p.position >= secs {
        startSeek := None;
        return;
      }
      if p.position <= 0.0 {
        return;
      }
      if p.duration > 0.0 && secs >= p.duration {
        startSeek := None;
        return;
      }
      var attempts, last := Attempts(startSeek, pos), LastAttempt(startSeek, pos);
      if attempts >= MAX_ATTEMPTS {
        startSeek := None;
        return;
      }
      if TooSoon(last, p.now) {
        return;
      }
      startSeek := Some(Start(pos, attempts + 1, Some(p.now)));
      sent := sent + [secs];
    }
  }

  function AfterEntryPolls(start: Option<Start>, pos: nat, secs: real, polls: seq<Poll>): Option<Start> {
    if polls == [] then start
    else AfterEntryPoll(AfterEntryPolls(start, pos, secs, polls[..|polls| - 1]), pos, secs, polls[|polls| - 1])
  }

  /** How many seeks a run of polls on one entry sends. */
  function EntrySent(start: Option<Start>, pos: nat, secs: real, polls: seq<Poll>): nat {
    if polls == [] then 0
    else
      EntrySent(start, pos, secs, polls[..|polls| - 1])
      + if EntrySeeks(AfterEntryPolls(start, pos, secs, polls[..|polls| - 1]), pos, secs, polls[|polls| - 1])
        then 1 else 0
  }

  /** The poll sets the counter of entry `pos` back: the offset was reached, or lies past the end, or the
      budget is spent. */
  predicate SetBack(start: Option<Start>, pos: nat, secs: real, p: Poll) {
    Attempts(start, pos) > 0 && AfterEntryPoll(start, pos, secs, p).None?
  }

  /** Exactly when a poll sets the counter back: playback is on, and the offset was reached, lies past the end of
      the video, or was tried 20 times. */
  lemma SetBackIff(start: Option<Start>, pos: nat, secs: real, p: Poll)
    ensures SetBack(start, pos, secs, p) <==>
      Attempts(start, pos) > 0 && secs > 0.0 && p.position > 0.0
      && (p.position >= secs || (p.duration > 0.0 && secs >= p.duration) || Attempts(start, pos) >= 20)
  {
  }

  /** Exactly when a poll seeks: playback is short of an offset inside the video, it was tried less than 20
      times, and half a second ago at the latest. Then the counter goes up by one and notes the time. */
  lemma EntrySeeksIff(start: Option<Start>, pos: nat, secs: real, p: Poll)
    ensures EntrySeeks(start, pos, secs, p) <==>
      && Short(secs, p) && Attempts(start, pos) < 20
      && (LastAttempt(start, pos).Some? ==> p.now - LastAttempt(start, pos).value >= 0.5)
    ensures var t := AfterEntryPoll(start, pos, secs, p);
      if EntrySeeks(start, pos, secs, p) then t == Some(Start(pos, Attempts(start, pos) + 1, Some(p.now)))
      else t.None? || t == start
  {
  }

  function SetBacks(start: Option<Start>, pos: nat, secs: real, polls: seq<Poll>): nat {
    if polls == [] then 0
    else
      SetBacks(start, pos, secs, polls[..|polls| - 1])
      + if SetBack(AfterEntryPolls(start, pos, secs, polls[..|polls| - 1]), pos, secs, polls[|polls| - 1])
        then 1 else 0
  }

  /** The attempts count the seeks if and only if they were never set back... */
  lemma {:induction false} AttemptsCountIff(start: Option<Start>, pos: nat, secs: real, polls: seq<Poll>)
    ensures var counted := Attempts(AfterEntryPolls(start, pos, secs, polls), pos);
      && counted <= Attempts(start, pos) + EntrySent(start, pos, secs, polls)
      && (counted == Attempts(start, pos) + EntrySent(start, pos, secs, polls)
          <==> SetBacks(start, pos, secs, polls) == 0)
  {
    if polls != [] {
      AttemptsCountIff(start, pos, secs, polls[..|polls| - 1]);
    }
  }

  /** ...and each setting back allows for no more than one budget. So 20 seeks bound a run that never sets the
      counter back, and a run of more has set it back. */
  lemma {:induction false} SeeksPerSetBack(start: Option<Start>, pos: nat, secs: real, polls: seq<Poll>)
    requires Attempts(start, pos) <= 20
    ensures var counted := Attempts(AfterEntryPolls(start, pos, secs, polls), pos);
      && counted <= 20
      && Attempts(start, pos) + EntrySent(start, pos, secs, polls)
         <= 20 * SetBacks(start, pos, secs, polls) + counted
  {
    if polls != [] {
      SeeksPerSetBack(start, pos, secs, polls[..|polls| - 1]);
    }
  }

  /** Playback is on, short of the offset, and the offset is inside the video. */
  predicate Short(secs: real, p: Poll) {
    0.0 < p.position < secs && !(p.duration > 0.0 && secs >= p.duration)
  }

  lemma {:induction false} EntryRunInParts(start: Option<Start>, pos: nat, secs: real, a: seq<Poll>, b: seq<Poll>)
    ensures AfterEntryPolls(start, pos, secs, a + b)
         == AfterEntryPolls(AfterEntryPolls(start, pos, secs, a), pos, secs, b)
    ensures EntrySent(start, pos, secs, a + b)
         == EntrySent(start, pos, secs, a) + EntrySent(AfterEntryPolls(start, pos, secs, a), pos, secs, b)
    decreases |b|
  {
    if b == [] {
      assert a + b == a;
    } else {
      assert (a + b)[..|a + b| - 1] == a + b[..|b| - 1];
      EntryRunInParts(start, pos, secs, a, b[..|b| - 1]);
    }
  }

  /** Some poll finds playback under way, and a later one finds it short of the offset. */
  ghost predicate ComesBack(secs: real, polls: seq<Poll>) {
    exists i, j :: 0 <= i < j < |polls| && polls[i].position > 0.0 && Short(secs, polls[j])
  }

  ghost predicate Started(polls: seq<Poll>) { exists i :: 0 <= i < |polls| && polls[i].position > 0.0 }

  /** With the budget spent, the first poll of a playing entry sets it back, whatever the poll finds. */
  lemma {:induction false} SpentRun(start: Option<Start>, pos: nat, secs: real, polls: seq<Poll>)
    requires Attempts(start, pos) == MAX_ATTEMPTS
    ensures EntrySent(start, pos, secs, polls) == 0 <==> !ComesBack(secs, polls)
    ensures !ComesBack(secs, polls) ==>
      AfterEntryPolls(start, pos, secs, polls) == if secs > 0.0 && Started(polls) then None else start
  {
    if polls != [] {
      var before, last := polls[..|polls| - 1], polls[|polls| - 1];
      SpentRun(start, pos, secs, before);
      assert forall i :: 0 <= i < |before| ==> polls[i] == before[i];
      if i, j :| 0 <= i < j < |before| && before[i].position > 0.0 && Short(secs, before[j]) {
        assert polls[i].position > 0.0 && Short(secs, polls[j]);
      } else if i :| 0 <= i < |before| && before[i].position > 0.0 {
        assert polls[i].position > 0.0;
      }
      assert last == polls[|polls| - 1];
    }
  }

  /** The spent budget is no bound. It is set back by the next poll that finds playback under way, and then
      any poll short of the offset seeks again, however soon; so the seeks made so far remain all if and only
      if no such two polls follow. */
  lemma BudgetHoldsIff(start: Option<Start>, pos: nat, secs: real, polls: seq<Poll>, more: seq<Poll>)
    requires Attempts(AfterEntryPolls(start, pos, secs, polls), pos) == 20
    ensures EntrySent(start, pos, secs, polls + more) == EntrySent(start, pos, secs, polls) <==> !ComesBack(secs, more)
  {
    EntryRunInParts(start, pos, secs, polls, more);
    SpentRun(AfterEntryPolls(start, pos, secs, polls), pos, secs, more);
  }

  lemma AppendPoll(start: Option<Start>, pos: nat, secs: real, polls: seq<Poll>, p: Poll)
    ensures var before := AfterEntryPolls(start, pos, secs, polls);
      && AfterEntryPolls(start, pos, secs, polls + [p]) == AfterEntryPoll(before, pos, secs, p)
      && EntrySent(start, pos, secs, polls + [p])
         == EntrySent(start, pos, secs, polls) + if EntrySeeks(before, pos, secs, p) then 1 else 0
  {
    assert (polls + [p])[..|polls|] == polls;
  }

  const OFFSET := 90.0

  function Clock(from: real, n: nat): real { if n == 0 then from else Clock(from, n - 1) + RETRY_INTERVAL }

  /** Polls half a second apart from a time on, the player one second into the video. */
  function Steady(from: real, n: nat): seq<Poll> {
    if n == 0 then [] else Steady(from, n - 1) + [Poll(1.0, 0.0, Clock(from, n))]
  }

  lemma {:induction false} SteadySeeks(from: real, n: nat)
    requires n <= MAX_ATTEMPTS
    ensures |Steady(from, n)| == n && EntrySent(None, 0, OFFSET, Steady(from, n)) == n
    ensures SetBacks(None, 0, OFFSET, Steady(from, n)) == 0
    ensures AfterEntryPolls(None, 0, OFFSET, Steady(from, n))
         == if n == 0 then None else Some(Start(0, n, Some(Clock(from, n))))
  {
    if n > 0 {
      SteadySeeks(from, n - 1);
      AppendPoll(None, 0, OFFSET, Steady(from, n - 1), Poll(1.0, 0.0, Clock(from, n)));
    }
    AttemptsCountIff(None, 0, OFFSET, Steady(from, n));
  }

  /** Twenty polls spend the budget; the offset is reached, the viewer goes back, and a seek is sent again. */
  lemma TwentyFirstSeek()
    ensures EntrySent(None, 0, OFFSET, Steady(0.0, 20) + [Poll(OFFSET, 0.0, 11.0), Poll(1.0, 0.0, 12.0)]) > 20
  {
    var more := [Poll(OFFSET, 0.0, 11.0), Poll(1.0, 0.0, 12.0)];
    SteadySeeks(0.0, 20);
    BudgetHoldsIff(None, 0, OFFSET, Steady(0.0, 20), more);
    assert more[0].position > 0.0 && Short(OFFSET, more[1]);
    EntryRunInParts(None, 0, OFFSET, Steady(0.0, 20), more);
  }

  /** Rounds of ten polls short of the offset, after each of which the viewer reaches it and goes back. */
  function Rounds(n: nat): seq<Poll> {
    if n == 0 then []
    else Rounds(n - 1) + (Steady((10 * n) as real, 10) + [Poll(OFFSET, 0.0, (10 * n + 6) as real)])
  }

  lemma RoundSeeks(from: real, landed: real)
    ensures var round := Steady(from, 10) + [Poll(OFFSET, 0.0, landed)];
      EntrySent(None, 0, OFFSET, round) == 10 && AfterEntryPolls(None, 0, OFFSET, round) == None
  {
    SteadySeeks(from, 10);
    AppendPoll(None, 0, OFFSET, Steady(from, 10), Poll(OFFSET, 0.0, landed));
  }

  /** No number bounds the seeks, though the budget is never spent: it is set back half way each time. */
  lemma {:induction false} SeeksWithoutBound(n: nat)
    ensures EntrySent(None, 0, OFFSET, Rounds(n)) == 10 * n
    ensures AfterEntryPolls(None, 0, OFFSET, Rounds(n)) == None
  {
    if n > 0 {
      var round := Steady((10 * n) as real, 10) + [Poll(OFFSET, 0.0, (10 * n + 6) as real)];
      SeeksWithoutBound(n - 1);
      RoundSeeks((10 * n) as real, (10 * n + 6) as real);
      EntryRunInParts(None, 0, OFFSET, Rounds(n - 1), round);
    }
  }
}
