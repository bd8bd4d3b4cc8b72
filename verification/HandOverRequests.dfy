/** What becomes of the requests and of MPD's answers: a record of a run, kept beside the state. */
module HandOverRequests {
  import opened HandOver
  import opened HandOverRuns
  import opened HandOverProgress

  /** `hands`: the requests the request thread took from the queue and has not processed; `done`: those it
      processed. `answers`: what MPD answered to an `idle`; `handled`: the answers whose events were passed on. */
  datatype Books = Books(hands: nat, done: nat, answers: nat, handled: nat)

  const NOTHING := Books(0, 0, 0, 0)

  /** What step `a`, taken in `s`, adds to the record. */
  function Book(b: Books, s: State, a: Action): Books {
    match a
    case WorkTakesRequest => b.(hands := b.hands + 1)
    case WorkDrains => b.(hands := b.hands + s.queue)
    case WorkOk =>
      if s.work.WProcess? then b.(hands := 0, done := b.done + b.hands)
      else if s.work.WNoidle? && s.serverIdle then b.(answers := b.answers + 1)
      else b
    case ServerEvent => b.(answers := b.answers + 1)
    case IdleOk => if s.idle.IEvents? then b.(handled := b.handled + 1) else b
    case _ => b
  }

  function Booked(run: seq<Action>): Books {
    if run == [] then NOTHING
    else
      var before := Run(START, run[..|run| - 1]);
      if before.Never? then NOTHING else Book(Booked(run[..|run| - 1]), before.state, run[|run| - 1])
  }

  // ---- the record is right ----------------------------------------------------------------

  /** The request thread is on its way with a request. */
  predicate OnItsWay(pc: WorkPc) {
    pc.WNoidle? || pc.WRecv? || (pc.WOffer? && !pc.back) || pc.WSetTimeout? || pc.WProcess?
  }

  /** Only the first session, as long as no step fails. */
  predicate FirstSession(s: State) {
    !s.main.MLost? && !s.main.MReturn? && (s.main.MRecv? || s.main.MCheck? ==> s.first)
  }

  /** MPD is in idle, or owes an answer, only while the idle thread reads. */
  predicate OneAnswer(s: State) {
    (s.serverIdle || s.response ==> s.idle.Armed()) && !(s.serverIdle && s.response)
  }

  predicate Right(s: State, b: Books) {
    && (OnItsWay(s.work) <==> b.hands > 0)
    && b.answers == b.handled + (if s.response then 1 else 0) + (if s.idle.IEvents? then 1 else 0)
  }

  ghost predicate Kept(s: State, b: Books) { Inv(s) && !s.failed && FirstSession(s) && OneAnswer(s) && Right(s, b) }

  /** The requests in the queue, in hand and processed after the step. */
  function Total(s: State, b: Books): nat { s.queue + b.hands + b.done }

  lemma MainKeeps(s: State, b: Books, a: Action)
    requires Kept(s, b) && !Failure(a) && Apply(s, a).To? && OfMain(a)
    ensures var t, c := Apply(s, a).state, Book(b, s, a);
      FirstSession(t) && OneAnswer(t) && Right(t, c) && Total(t, c) == Total(s, b)
  {
  }

  lemma IdleKeeps(s: State, b: Books, a: Action)
    requires Kept(s, b) && !Failure(a) && Apply(s, a).To? && OfIdle(a)
    ensures var t, c := Apply(s, a).state, Book(b, s, a);
      FirstSession(t) && OneAnswer(t) && Right(t, c) && Total(t, c) == Total(s, b)
  {
  }

  lemma WorkLeavesKeeps(s: State, b: Books, a: Action)
    requires Kept(s, b) && !Failure(a) && Apply(s, a).To? && LeavesWork(a)
    ensures var t, c := Apply(s, a).state, Book(b, s, a);
      FirstSession(t) && OneAnswer(t) && Right(t, c) && Total(t, c) == Total(s, b)
  {
  }

  lemma WorkGoesOnKeeps(s: State, b: Books, a: Action)
    requires Kept(s, b) && !Failure(a) && Apply(s, a).To? && GoesOnAtWork(a)
    ensures var t, c := Apply(s, a).state, Book(b, s, a);
      FirstSession(t) && OneAnswer(t) && Right(t, c) && Total(t, c) == Total(s, b)
  {
  }

  lemma MeetKeeps(s: State, b: Books, a: Action)
    requires Kept(s, b) && !Failure(a) && Apply(s, a).To?
    requires !OfMain(a) && !OfIdle(a) && !LeavesWork(a) && !GoesOnAtWork(a)
    ensures var t, c := Apply(s, a).state, Book(b, s, a);
      && FirstSession(t) && OneAnswer(t) && Right(t, c)
      && Total(t, c) == Total(s, b) + if a.RequestArrives? then 1 else 0
  {
  }

  lemma StepKeeps(s: State, b: Books, a: Action)
    requires Kept(s, b) && !Failure(a) && Apply(s, a).To?
    ensures Kept(Apply(s, a).state, Book(b, s, a))
    ensures Total(Apply(s, a).state, Book(b, s, a)) == Total(s, b) + if a.RequestArrives? then 1 else 0
  {
    StaysClean(s, a);
    if OfMain(a) {
      MainKeeps(s, b, a);
    } else if OfIdle(a) {
      IdleKeeps(s, b, a);
    } else if LeavesWork(a) {
      WorkLeavesKeeps(s, b, a);
    } else if GoesOnAtWork(a) {
      WorkGoesOnKeeps(s, b, a);
    } else {
      MeetKeeps(s, b, a);
    }
  }

  lemma {:induction false} RunKeeps(run: seq<Action>)
    requires NoneFails(run) && Run(START, run).To?
    ensures Kept(Run(START, run).state, Booked(run))
    ensures Total(Run(START, run).state, Booked(run)) == Requests(run)
  {
    if run == [] {
      StartInv();
    } else {
      var before, a := run[..|run| - 1], run[|run| - 1];
      assert forall i :: 0 <= i < |before| ==> before[i] == run[i];
      RunKeeps(before);
      StepKeeps(Run(START, before).state, Booked(before), a);
    }
  }

  // ---- no request is forgotten ------------------------------------------------------------

  /** In every run without a failed step each request that came in is in the queue, in the hands of the request
      thread, or processed; and the thread has some in hand exactly while it is on its way to MPD with them. */
  lemma RequestsAccounted(run: seq<Action>)
    requires NoneFails(run) && Run(START, run).To?
    ensures var s, b := Run(START, run).state, Booked(run);
      s.queue + b.hands + b.done == Requests(run) && (b.hands > 0 <==> OnItsWay(s.work))
  {
    RunKeeps(run);
  }

  lemma DropsEmptyHanded(s: State, b: Books, a: Action)
    requires Kept(s, b) && a.WorkDrops? && Apply(s, a).To?
    ensures b.hands == 0
  {
  }

  lemma ConfirmedWorks(s: State, b: Books, a: Action)
    requires Kept(s, b) && a.ConfirmIdle? && Apply(s, a).To?
    ensures Apply(s, a).state.work.WSetTimeout? <==> b.hands > 0
    ensures Apply(s, a).state.work.WDrop? <==> b.hands == 0
  {
  }

  /** When the request thread gives the client back, it has processed every request it took. */
  lemma ReturnsWithAllDone(run: seq<Action>)
    requires NoneFails(run) && Run(START, run).To? && Apply(Run(START, run).state, WorkDrops).To?
    ensures Booked(run).hands == 0 && Booked(run).done + Run(START, run).state.queue == Requests(run)
  {
    RunKeeps(run);
    DropsEmptyHanded(Run(START, run).state, Booked(run), WorkDrops);
  }

  /** Once it has the client, it goes to work on it if and only if it has a request in hand; else it gives the
      client back at once. */
  lemma WorksIffInHand(run: seq<Action>)
    requires NoneFails(run) && Run(START, run).To? && Apply(Run(START, run).state, ConfirmIdle).To?
    ensures var t := Apply(Run(START, run).state, ConfirmIdle).state;
      && (t.work.WSetTimeout? <==> Booked(run).hands > 0)
      && (t.work.WDrop? <==> Booked(run).hands == 0)
  {
    RunKeeps(run);
    ConfirmedWorks(Run(START, run).state, Booked(run), ConfirmIdle);
  }

  /** When the threads rest, every request that came in was processed, and every answer of MPD passed on. */
  lemma AtRestAllIsDone(run: seq<Action>)
    requires NoneFails(run) && Run(START, run).To? && Quiescent(Run(START, run).state)
    ensures Booked(run).done == Requests(run) && Booked(run).hands == 0
    ensures Booked(run).handled == Booked(run).answers
  {
    RunKeeps(run);
  }

  /** Nothing else is needed for that than to let the threads go on: every run without a failed step goes on, by
      steps of the threads alone, to a state in which all requests so far are processed. */
  lemma EveryRequestIsProcessed(run: seq<Action>) returns (full: seq<Action>)
    requires NoneFails(run) && Run(START, run).To?
    ensures run <= full && forall i :: |run| <= i < |full| ==> Own(full[i])
    ensures Run(START, full).To? && Requests(full) == Requests(run) == Booked(full).done
  {
    RunKeeps(run);
    full := GoesToRest(START, run);
    assert NoneFails(full) by {
      forall i | 0 <= i < |full| ensures !Failure(full[i]) {
        assert i < |run| ==> full[i] == run[i];
      }
    }
    OwnBringsNone(run, full);
    AtRestAllIsDone(full);
  }

  lemma {:induction false} OwnBringsNone(run: seq<Action>, full: seq<Action>)
    requires run <= full && forall i :: |run| <= i < |full| ==> Own(full[i])
    ensures Requests(full) == Requests(run)
    decreases |full|
  {
    if |run| < |full| {
      OwnBringsNone(run, full[..|full| - 1]);
    } else {
      assert run == full;
    }
  }
}
