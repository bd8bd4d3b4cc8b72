/** What the hand-over of the MPD client guarantees over every run, with and without failed steps. */
module HandOverRuns {
  import opened HandOver

  // ---- one client -------------------------------------------------------------------------

  function One(here: bool): nat { if here then 1 else 0 }

  /** How many of main, idle thread, request thread and return channel have the client. */
  function Holders(s: State): nat {
    One(MainOwns(s)) + One(s.idle.Owns()) + One(s.work.Owns()) + One(s.slot)
  }

  lemma OneHolder(run: seq<Action>)
    requires Run(START, run).To?
    ensures Holders(Run(START, run).state) == 1
  {
    RunInv(run);
  }

  /** Whoever has the client finds the return channel empty, so no send of it ever blocks. */
  lemma SendNeverBlocks(run: seq<Action>)
    requires Run(START, run).To?
    ensures var s := Run(START, run).state;
      MainOwns(s) || s.idle.Owns() || s.work.Owns() ==> !s.slot
  {
    RunInv(run);
  }

  /** When both threads have ended, the client is back in the channel: main's next receive succeeds. */
  lemma ClientIsBackAfterASession(run: seq<Action>)
    requires Run(START, run).To?
    ensures var s := Run(START, run).state;
      (s.main.MJoinWork? && s.work.WEnd?) || s.main.MLost? || s.main.MRecv? ==> s.slot
  {
    RunInv(run);
  }

  // ---- strict alternation -----------------------------------------------------------------

  /** The threads that took the client from the channel in the current session, in order. */
  function Takers(run: seq<Action>): seq<Taker>
    decreases |run|
  {
    if run == [] then []
    else
      var before := Takers(run[..|run| - 1]);
      AddTaker(before, run[|run| - 1])
  }

  function AddTaker(before: seq<Taker>, a: Action): seq<Taker> {
    if a.MainChecks? && a.ok then []
    else if a.IdleTakes? then before + [Idle]
    else if a.WorkTakesClient? then before + [Work]
    else before
  }

  function Last(ts: seq<Taker>): Taker { if ts == [] then Nobody else ts[|ts| - 1] }

  predicate Alternates(ts: seq<Taker>) {
    forall i :: 0 <= i < |ts| ==> ts[i] == if i % 2 == 0 then Idle else Work
  }

  lemma {:induction false} LastTaker(run: seq<Action>)
    requires Run(START, run).To?
    ensures Run(START, run).state.last == Last(Takers(run))
  {
    if run != [] {
      LastTaker(run[..|run| - 1]);
    }
  }

  lemma TakersDiffer(s: State, a: Action)
    requires Inv(s) && Apply(s, a).To?
    ensures a.IdleTakes? ==> s.last != Idle
    ensures a.WorkTakesClient? ==> s.last == Idle
  {
  }

  lemma AddTakerAlternates(ts: seq<Taker>, a: Action)
    requires Alternates(ts)
    requires a.IdleTakes? ==> Last(ts) != Idle
    requires a.WorkTakesClient? ==> Last(ts) == Idle
    ensures Alternates(AddTaker(ts, a))
  {
  }

  /** Idle first, and from then on the two threads in turns: a thread that gave the client back
      never takes it again before the other had it. */
  lemma {:induction false} StrictAlternation(run: seq<Action>)
    requires Run(START, run).To?
    ensures Alternates(Takers(run))
  {
    if run != [] {
      var before := run[..|run| - 1];
      StrictAlternation(before);
      LastTaker(before);
      RunInv(before);
      TakersDiffer(Run(START, before).state, run[|run| - 1]);
      AddTakerAlternates(Takers(before), run[|run| - 1]);
    }
  }

  // ---- no circular wait -------------------------------------------------------------------

  lemma {:induction false} FailedIff(run: seq<Action>)
    requires Run(START, run).To?
    ensures Run(START, run).state.failed <==> exists i :: 0 <= i < |run| && Failure(run[i])
  {
    if run != [] {
      var before := run[..|run| - 1];
      FailedIff(before);
      assert forall i :: 0 <= i < |before| ==> before[i] == run[i];
    }
  }

  /** No thread can take a step that succeeds; only the outside can move. */
  ghost predicate Still(s: State) {
    forall a :: Apply(s, a).To? ==> Outside(a) || Failure(a)
  }

  /** Idle waits for MPD with the client, the request thread waits for a request, and there is none. */
  predicate Quiescent(s: State) {
    s.main.MJoinIdle? && s.idle.IRead? && !s.response && s.work.WSelect? && s.queue == 0
  }

  /** A step some thread can take while nothing has failed. */
  function Enabled(s: State): Action {
    if s.main.MRecv? then MainTakes
    else if s.main.MCheck? then MainChecks(true)
    else if s.main.MSend? then MainSends
    else if s.main.MReturn? then MainReturns
    else if s.main.MLost? then MainLoops
    else if s.main.MSpawn? then MainSpawns
    else EnabledInSession(s)
  }

  function EnabledInSession(s: State): Action {
    if s.idle.Channel() && !s.idle.checked then IdleChecks
    else if s.idle.ISeek? then if s.slot then IdleTakes else EnabledAtWork(s)
    else if s.idle.Enters() || s.idle.IEvents? then IdleOk
    else if s.idle.IDrop? then IdleDrops
    else if s.idle.IRead? then if s.response then IdleReads else EnabledAtWork(s)
    else if s.idle.IOffer? && s.main.MConfirm? then ConfirmMain
    else if s.idle.IOffer? && s.work.WAwait? && s.work.checked then ConfirmWork
    else if s.idle.IAwait? && s.work.WOffer? && s.work.checked then ConfirmIdle
    else EnabledAtWork(s)
  }

  function EnabledAtWork(s: State): Action {
    if s.work.WSelect? then if s.slot then WorkTakesClient else WorkTakesRequest
    else if s.work.Channel() && !s.work.checked then WorkChecks
    else if s.work.WRecv? then WorkTakesClient
    else if s.work.WDrop? then WorkDrops
    else WorkOk
  }

  lemma CleanMoves(s: State)
    requires Inv(s) && Clean(s) && !Quiescent(s)
    ensures Apply(s, Enabled(s)).To? && !Outside(Enabled(s)) && !Failure(Enabled(s))
  {
  }

  /** In a run without a failed step everything comes to rest only there; and MPD is then in idle with
      no answer owed, so an event of its own or the next request's `noidle` wakes the idle thread. */
  lemma NoCircularWait(run: seq<Action>)
    requires Run(START, run).To? && forall i :: 0 <= i < |run| ==> !Failure(run[i])
    ensures var s := Run(START, run).state;
      (Still(s) <==> Quiescent(s)) && (Quiescent(s) ==> s.serverIdle && s.idle.Owns())
  {
    var s := Run(START, run).state;
    FailedIff(run);
    RunInv(run);
    if !Quiescent(s) {
      CleanMoves(s);
      assert Apply(s, Enabled(s)).To?;
    }
  }

  // ---- with failed steps ------------------------------------------------------------------

  /** A failure that is bound to happen: a timed wait on the confirmation channel runs out, or the
      read finds the socket shut down. */
  predicate Certain(s: State, a: Action) {
    a.IdleAwaitTimeout? || a.WorkAwaitTimeout? || (a.IdleFail? && s.idle.IOffer?)
    || (a.WorkFail? && s.work.WOffer?) || (a.IdleReadError? && s.down)
  }

  /** Nothing moves any more unless MPD, the user or a failure of the system interferes. */
  ghost predicate Stuck(s: State) {
    forall a :: Apply(s, a).To? ==> Outside(a) || (Failure(a) && !Certain(s, a))
  }

  /** The idle thread ended before it confirmed: main waits for that confirmation without a timeout. */
  predicate MainStranded(s: State) { s.main.MConfirm? && s.idle.IEnd? }

  /** The request thread ended and could not shut the socket down: idle goes on reading. */
  predicate ReaderStranded(s: State) { s.work.WEnd? && s.idle.IRead? && !s.response && !s.down }

  function Remedy(s: State): Action {
    if s.main.MJoinIdle? && s.idle.IEnd? then MainJoinsIdle
    else if s.main.MJoinWork? && s.work.WEnd? then MainJoinsWork
    else if s.work.WStop? then WorkStops(true)
    else if s.idle == IOffer(true) && !s.main.MConfirm? && !(s.work.WAwait? && s.work.checked) then IdleFail
    else if s.idle == IAwait(true) && !(s.work.WOffer? && s.work.checked) then IdleAwaitTimeout
    else if s.idle.IRead? && s.work.WEnd? && s.down && !s.response then IdleReadError
    else if s.idle.Gone() || s.idle.IRead? then RemedyAtWork(s)
    else Enabled(s)
  }

  function RemedyAtWork(s: State): Action {
    if s.main.MJoinIdle? || s.main.MJoinWork? then
      if s.idle.IRead? && s.response then IdleReads
      else if s.work.WOffer? && s.work.checked then WorkFail
      else if s.work.WAwait? && s.work.checked then WorkAwaitTimeout
      else EnabledAtWork(s)
    else Enabled(s)
  }

  lemma SessionMoves(s: State)
    requires Inv(s) && !Quiescent(s) && !MainStranded(s) && !ReaderStranded(s)
    requires s.main.MJoinIdle? || s.main.MJoinWork?
    ensures Apply(s, Remedy(s)).To? && !Outside(Remedy(s))
    ensures Failure(Remedy(s)) ==> Certain(s, Remedy(s))
  {
  }

  lemma OthersMove(s: State)
    requires Inv(s) && !Quiescent(s) && !MainStranded(s) && !ReaderStranded(s)
    ensures Apply(s, Remedy(s)).To? && !Outside(Remedy(s))
    ensures Failure(Remedy(s)) ==> Certain(s, Remedy(s))
  {
    if s.main.MJoinIdle? || s.main.MJoinWork? {
      SessionMoves(s);
    }
  }

  lemma QuiescentStops(s: State, a: Action)
    requires Quiescent(s) && !s.slot && !s.down && Apply(s, a).To?
    ensures Outside(a) || (Failure(a) && !Certain(s, a))
  {
  }

  /** Main stranded: no thread has a step left... */
  lemma MainStrandedRests(s: State, a: Action)
    requires MainStranded(s) && s.work.WNone? && !Outside(a)
    ensures Apply(s, a).Never?
  {
  }

  /** ...and the outside does not change that. */
  lemma MainStrandedStops(s: State, a: Action)
    requires MainStranded(s) && s.work.WNone? && Apply(s, a).To?
    ensures Outside(a) && MainStranded(Apply(s, a).state)
  {
    if !Outside(a) {
      MainStrandedRests(s, a);
    }
  }

  lemma ReaderStrandedStops(s: State, a: Action)
    requires ReaderStranded(s) && s.main.MJoinIdle? && Apply(s, a).To?
    ensures Outside(a) || (Failure(a) && !Certain(s, a))
  {
  }

  /** With failures there are exactly two more ways to stop, as long as reads do not time out. */
  lemma StuckIff(run: seq<Action>)
    requires Run(START, run).To?
    ensures var s := Run(START, run).state;
      Stuck(s) <==> Quiescent(s) || MainStranded(s) || ReaderStranded(s)
  {
    var s := Run(START, run).state;
    RunInv(run);
    if Quiescent(s) {
      forall a | Apply(s, a).To? ensures Outside(a) || (Failure(a) && !Certain(s, a)) { QuiescentStops(s, a); }
    } else if MainStranded(s) {
      forall a | Apply(s, a).To? ensures Outside(a) || (Failure(a) && !Certain(s, a)) { MainStrandedStops(s, a); }
    } else if ReaderStranded(s) {
      forall a | Apply(s, a).To? ensures Outside(a) || (Failure(a) && !Certain(s, a)) { ReaderStrandedStops(s, a); }
    } else {
      OthersMove(s);
    }
  }

  /** Stuck although reads time out: a timeout only reads the flag and reads on. */
  ghost predicate StuckWithTimeout(s: State) {
    Stuck(s) && (Apply(s, IdleReadTimeout).To? ==> Apply(s, IdleReadTimeout).state == s)
  }

  lemma TimeoutReads(s: State)
    requires Inv(s)
    ensures ReaderStranded(s) ==>
      var t := Apply(s, IdleReadTimeout); t.To? && t.state.idle.IEnd? && t.state.slot
    ensures Quiescent(s) || MainStranded(s) ==> Apply(s, IdleReadTimeout) in {Never, To(s)}
  {
  }

  /** A configured read timeout frees the reader, and leaves main's wait as the only way to get stuck. */
  lemma StuckWithTimeoutIff(run: seq<Action>)
    requires Run(START, run).To?
    ensures var s := Run(START, run).state; StuckWithTimeout(s) <==> Quiescent(s) || MainStranded(s)
    ensures var s := Run(START, run).state; var t := Apply(s, IdleReadTimeout);
      ReaderStranded(s) ==> t.To? && t.state.idle.IEnd? && t.state.slot
  {
    RunInv(run);
    StuckIff(run);
    TimeoutReads(Run(START, run).state);
  }

  lemma Then(run: seq<Action>, a: Action)
    requires Run(START, run).To?
    ensures Run(START, run + [a]) == Apply(Run(START, run).state, a)
  {
  }

  const OPENING := [MainTakes, MainChecks(true), MainSends]
  const ARMING := OPENING + [IdleChecks] + [IdleTakes]

  lemma MainOpens()
    ensures Run(START, OPENING) == To(START.(main := MConfirm, idle := ISeek(false), first := false))
  {
    var r1 := [MainTakes];
    assert r1[..0] == [];
    assert Run(START, r1) == To(START.(main := MCheck, slot := false));
    Then(r1, MainChecks(true));
    assert OPENING == r1 + [MainChecks(true)] + [MainSends];
    Then(r1 + [MainChecks(true)], MainSends);
  }

  lemma IdleChecksFirst()
    ensures Run(START, OPENING + [IdleChecks]) == To(START.(main := MConfirm, idle := ISeek(true), first := false))
  {
    MainOpens();
    Then(OPENING, IdleChecks);
  }

  lemma IdleTakesFirst()
    ensures Run(START, ARMING)
         == To(START.(main := MConfirm, idle := ISetTimeout, slot := false, first := false, last := Idle))
  {
    IdleChecksFirst();
    Then(OPENING + [IdleChecks], IdleTakes);
  }

  /** A failed step of a fresh idle thread, before it confirms, strands main... */
  lemma MainCanBeStranded()
    ensures Run(START, ARMING + [IdleFail]).To? && MainStranded(Run(START, ARMING + [IdleFail]).state)
  {
    IdleTakesFirst();
    Then(ARMING, IdleFail);
  }

  /** ...and nothing ever frees it. */
  lemma {:induction false} MainStrandedForever(s: State, run: seq<Action>)
    requires Inv(s) && MainStranded(s) && Run(s, run).To?
    ensures Inv(Run(s, run).state) && MainStranded(Run(s, run).state)
  {
    if run != [] {
      var before := Run(s, run[..|run| - 1]).state;
      MainStrandedForever(s, run[..|run| - 1]);
      StepInv(before, run[|run| - 1]);
      MainStrandedStops(before, run[|run| - 1]);
    }
  }
}
