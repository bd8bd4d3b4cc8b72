/** The hand-over of the MPD client makes progress: what MPD and the user ask for is worked off in a bounded
    number of steps, and then the threads rest. */
module HandOverProgress {
  import opened HandOver
  import opened HandOverRuns

  // ---- what is still to be done -----------------------------------------------------------

  const PER_REQUEST := 30
  const PER_EVENT := 19
  /** What a client in the return channel makes the request thread do. */
  const PER_OFFER := 8

  function MainLeft(pc: MainPc): nat {
    match pc
    case MReturn => 13
    case MLost => 12
    case MRecv => 11
    case MCheck => 10
    case MSend => 3
    case MConfirm => 2
    case MSpawn => 1
    case _ => 0
  }

  /** The steps from here to the next `read_response`. */
  function IdleLeft(pc: IdlePc): nat {
    match pc
    case IEvents => 10 + PER_OFFER
    case IDrop => 9 + PER_OFFER
    case IAwait(checked) => if checked then 7 else 8
    case ISeek(checked) => if checked then 5 else 6
    case ISetTimeout => 4
    case IEnter => 3
    case IOffer(checked) => if checked then 1 else 2
    case _ => 0
  }

  /** The steps from here to the next select; a `noidle` also makes MPD answer. */
  function WorkLeft(pc: WorkPc): nat {
    match pc
    case WNoidle => 10 + PER_EVENT
    case WRecv(checked) => if checked then 8 else 9
    case WOffer(checked, _) => if checked then 6 else 7
    case WSetTimeout => 5
    case WProcess => 4
    case WDrop(_) => 3
    case WAwait(checked, _) => if checked then 1 else 2
    case _ => 0
  }

  /** A bound on the steps the threads can take until they rest. */
  function Left(s: State): nat {
    MainLeft(s.main) + IdleLeft(s.idle) + WorkLeft(s.work)
    + (if s.response then PER_EVENT else 0) + (if s.slot && s.idle.IAwait? then PER_OFFER else 0)
    + PER_REQUEST * s.queue
  }

  /** A step a thread takes by itself; a reconnect is MPD's doing, which let a request time out. */
  predicate Own(a: Action) { !Outside(a) && !Failure(a) && !a.WorkReconnects? }

  function Brings(a: Action): nat {
    if a.RequestArrives? then PER_REQUEST else if a.ServerEvent? then PER_EVENT else 0
  }

  ghost predicate Falls(s: State, a: Action, t: State) {
    Left(t) + (if Own(a) then 1 else 0) <= Left(s) + Brings(a)
  }

  lemma MainOrMeetFalls(s: State, a: Action)
    requires Inv(s) && Clean(s) && !Failure(a) && Apply(s, a).To?
    requires !OfIdle(a) && !LeavesWork(a) && !GoesOnAtWork(a)
    ensures Falls(s, a, Apply(s, a).state)
  {
  }

  lemma IdleFalls(s: State, a: Action)
    requires Inv(s) && Clean(s) && !Failure(a) && Apply(s, a).To? && OfIdle(a)
    ensures Falls(s, a, Apply(s, a).state)
  {
  }

  lemma WorkLeavesFalls(s: State, a: Action)
    requires Inv(s) && Clean(s) && !Failure(a) && Apply(s, a).To? && LeavesWork(a)
    ensures Falls(s, a, Apply(s, a).state)
  {
  }

  lemma WorkGoesOnFalls(s: State, a: Action)
    requires Inv(s) && Clean(s) && !Failure(a) && Apply(s, a).To? && GoesOnAtWork(a)
    ensures Falls(s, a, Apply(s, a).state)
  {
  }

  /** Every step of a thread takes one off, and only the outside adds. */
  lemma StepFalls(s: State, a: Action)
    requires Inv(s) && Clean(s) && !Failure(a) && Apply(s, a).To?
    ensures Falls(s, a, Apply(s, a).state)
  {
    if OfIdle(a) {
      IdleFalls(s, a);
    } else if LeavesWork(a) {
      WorkLeavesFalls(s, a);
    } else if GoesOnAtWork(a) {
      WorkGoesOnFalls(s, a);
    } else {
      MainOrMeetFalls(s, a);
    }
  }

  // ---- over runs --------------------------------------------------------------------------

  function OwnSteps(run: seq<Action>): nat {
    if run == [] then 0 else OwnSteps(run[..|run| - 1]) + if Own(run[|run| - 1]) then 1 else 0
  }

  function Brought(run: seq<Action>): nat {
    if run == [] then 0 else Brought(run[..|run| - 1]) + Brings(run[|run| - 1])
  }

  ghost predicate NoneFails(run: seq<Action>) { forall i :: 0 <= i < |run| ==> !Failure(run[i]) }

  lemma StaysClean(s: State, a: Action)
    requires Inv(s) && !s.failed && !Failure(a) && Apply(s, a).To?
    ensures Inv(Apply(s, a).state) && !Apply(s, a).state.failed
  {
    StepInv(s, a);
  }

  /** From any state of a run without a failed step, and as long as none fails, the threads take no more steps
      than are left plus what the outside brings. So between two outside events they rest after `Left` steps. */
  lemma {:induction false} BoundedProgress(s: State, run: seq<Action>)
    requires Inv(s) && !s.failed && NoneFails(run) && Run(s, run).To?
    ensures Inv(Run(s, run).state) && !Run(s, run).state.failed
    ensures OwnSteps(run) + Left(Run(s, run).state) <= Left(s) + Brought(run)
  {
    if run != [] {
      var before, a := run[..|run| - 1], run[|run| - 1];
      assert forall i :: 0 <= i < |before| ==> before[i] == run[i];
      BoundedProgress(s, before);
      StaysClean(Run(s, before).state, a);
      StepFalls(Run(s, before).state, a);
    }
  }

  function Requests(run: seq<Action>): nat {
    if run == [] then 0 else Requests(run[..|run| - 1]) + if run[|run| - 1].RequestArrives? then 1 else 0
  }

  function Events(run: seq<Action>): nat {
    if run == [] then 0 else Events(run[..|run| - 1]) + if run[|run| - 1].ServerEvent? then 1 else 0
  }

  lemma {:induction false} BroughtIs(run: seq<Action>)
    ensures Brought(run) == PER_REQUEST * Requests(run) + PER_EVENT * Events(run)
  {
    if run != [] {
      BroughtIs(run[..|run| - 1]);
    }
  }

  /** A whole run without a failed step: 11 steps to start, at most 30 for each request, 19 for each event. */
  lemma StepsOfARun(run: seq<Action>)
    requires NoneFails(run) && Run(START, run).To?
    ensures OwnSteps(run) <= 11 + 30 * Requests(run) + 19 * Events(run)
  {
    StartInv();
    BoundedProgress(START, run);
    BroughtIs(run);
  }

  lemma Extended(s: State, run: seq<Action>, a: Action)
    requires Run(s, run).To?
    ensures Run(s, run + [a]) == Apply(Run(s, run).state, a)
  {
    assert (run + [a])[..|run|] == run;
  }

  lemma {:induction false} GoesToRest(s: State, run: seq<Action>) returns (full: seq<Action>)
    requires Run(s, run).To? && Inv(Run(s, run).state) && !Run(s, run).state.failed
    ensures run <= full && |full| <= |run| + Left(Run(s, run).state)
    ensures forall i :: |run| <= i < |full| ==> Own(full[i])
    ensures Run(s, full).To? && Quiescent(Run(s, full).state)
    decreases Left(Run(s, run).state)
  {
    var t := Run(s, run).state;
    if Quiescent(t) {
      return run;
    }
    var a := Enabled(t);
    CleanMoves(t);
    StepFalls(t, a);
    StaysClean(t, a);
    Extended(s, run, a);
    full := GoesToRest(s, run + [a]);
    assert full[|run|] == (run + [a])[|run|] == a;
  }

  /** Without the outside, and without a failed step, every request in the queue is taken and every answer
      read: the threads come to rest, within `Left` steps. */
  lemma ComesToRest(s: State) returns (more: seq<Action>)
    requires Inv(s) && !s.failed
    ensures forall i :: 0 <= i < |more| ==> Own(more[i])
    ensures |more| <= Left(s) && Run(s, more).To? && Quiescent(Run(s, more).state)
  {
    more := GoesToRest(s, []);
  }
}
