/** How main, idle and request thread pass the one MPD client around (src/core/client.rs). */
module HandOver {
  /** Where main is in its reconnect loop. In `MCheck`, `MSend` and `MReturn` it owns the client. */
  datatype MainPc = MRecv | MCheck | MSend | MConfirm | MSpawn | MJoinIdle | MJoinWork | MReturn | MLost

  /** The idle thread. It waits for the client (`ISeek`), owns it from `ISetTimeout` to `IDrop`, offers
      its confirmation in `IOffer`, and waits for the other side's in `IAwait`. `checked`: it has read
      the flag `HEALTHY` as true and is blocked on the channel. */
  datatype IdlePc = INone | ISeek(checked: bool) | ISetTimeout | IEnter | IOffer(checked: bool) | IRead
                  | IEvents | IDrop | IAwait(checked: bool) | IEnd
  {
    predicate Owns() { Enters() || Armed() || IEvents? || IDrop? }
    predicate Enters() { ISetTimeout? || IEnter? }
    /** MPD was put into idle and its answer not read yet. */
    predicate Armed() { IOffer? || IRead? }
    predicate Gone() { INone? || IEnd? }
    predicate Channel() { ISeek? || IOffer? || IAwait? }
  }

  /** The request thread; `checked` as above. `back`: it got the client while it had no work. */
  datatype WorkPc = WNone | WSelect | WNoidle | WRecv(checked: bool) | WOffer(checked: bool, back: bool)
                  | WSetTimeout | WProcess | WDrop(back: bool) | WAwait(checked: bool, back: bool) | WStop | WEnd
  {
    predicate Owns() { WOffer? || Serves() }
    predicate Seeks() { WSelect? || WNoidle? || WRecv? }
    predicate Serves() { WSetTimeout? || WProcess? || WDrop? }
    predicate Gone() { WStop? || WEnd? }
    predicate Channel() { WRecv? || WOffer? || WAwait? }
  }

  datatype Taker = Nobody | Idle | Work

  /** `slot`: the one-place return channel is full. `serverIdle`: MPD is in idle and owes nothing;
      `response`: its answer waits to be read. `down`: the socket was shut down. `queue` counts the
      waiting requests, `first` says that no session began yet, `last` is who last took the client from
      the slot in this session. `failed`: some step of the run failed or timed out. */
  datatype State = State(
    main: MainPc, idle: IdlePc, work: WorkPc, slot: bool, healthy: bool,
    serverIdle: bool, response: bool, down: bool, queue: nat, first: bool, last: Taker, failed: bool)

  /** What an action makes of a state in which it may be enabled. */
  datatype Next = Never | To(state: State)

  const START := State(MRecv, INone, WNone, true, true, false, false, false, 0, true, Nobody, false)

  predicate MainOwns(s: State) { s.main.MCheck? || s.main.MSend? || s.main.MReturn? }

  // ---- steps ------------------------------------------------------------------------------

  /** One atomic step. `Ok` steps succeed; `Fail` steps are an error or a timeout of the same
      operation; the last two are the outside's. So is `IdleReadTimeout`: only a configured
      `mpd_idle_read_timeout_ms` makes it happen. */
  datatype Action =
    | MainTakes | MainChecks(ok: bool) | MainSends | MainReturns | MainSpawns
    | MainJoinsIdle | MainJoinsWork | MainLoops
    | IdleChecks | IdleTakes | IdleOk | IdleFail | IdleReads | IdleReadError | IdleReadTimeout
    | IdleEventFail | IdleDrops | IdleAwaitTimeout
    | WorkTakesRequest | WorkTakesClient | WorkChecks | WorkOk | WorkFail | WorkDrains | WorkReconnects
    | WorkDrops | WorkAwaitTimeout | WorkQueueGone | WorkStops(shut: bool)
    | ConfirmMain | ConfirmWork | ConfirmIdle
    | ServerEvent | RequestArrives

  predicate Outside(a: Action) { a.ServerEvent? || a.RequestArrives? || a.IdleReadTimeout? }

  predicate Failure(a: Action) {
    a.IdleFail? || a.IdleReadError? || a.IdleEventFail? || a.IdleAwaitTimeout? || a.WorkFail?
    || a.WorkAwaitTimeout? || a.WorkQueueGone? || (a.MainChecks? && !a.ok) || (a.WorkStops? && !a.shut)
  }

  /** The idle thread leaves its loop; its guard puts the client back. */
  function EndIdle(s: State): State { s.(idle := IEnd, slot := s.slot || s.idle.Owns()) }
  function StopWork(s: State): State { s.(work := WStop, slot := s.slot || s.work.Owns()) }
  function Sick(s: State): State { s.(healthy := false) }

  /** Main getting, checking and passing on the client. */
  function MainHolds(s: State, a: Action): Next {
    match a
    case MainTakes => if s.main.MRecv? && s.slot then To(s.(main := MCheck, slot := false)) else Never
    case MainChecks(ok) =>
      if !s.main.MCheck? then Never
      else if s.first then
        if ok then To(s.(main := MSend, idle := ISeek(false), first := false)) else Never
      else if !ok then To(s.(main := MReturn))
      else To(s.(main := MSend, idle := ISeek(false), serverIdle := false, response := false,
                 down := false, queue := 0))
    case MainSends => if s.main.MSend? && !s.slot then To(s.(main := MConfirm, slot := true)) else Never
    case MainReturns => if s.main.MReturn? && !s.slot then To(s.(main := MLost, slot := true)) else Never
    case _ => Never
  }

  /** Main's session: start the request thread, join both threads, start over. */
  function MainRuns(s: State, a: Action): Next {
    match a
    case MainSpawns => if s.main.MSpawn? then To(s.(main := MJoinIdle, work := WSelect)) else Never
    case MainJoinsIdle =>
      if s.main.MJoinIdle? && s.idle.IEnd? then To(s.(main := MJoinWork, idle := INone)) else Never
    case MainJoinsWork =>
      if s.main.MJoinWork? && s.work.WEnd? then To(s.(main := MLost, work := WNone)) else Never
    case MainLoops => if s.main.MLost? then To(s.(main := MRecv, healthy := true)) else Never
    case _ => Never
  }

  /** The idle thread reading the flag before it blocks. */
  function IdleReadsFlag(s: State, a: Action): Next {
    match a
    case IdleChecks =>
      if !s.idle.Channel() || s.idle.checked then Never
      else if !s.healthy then To(EndIdle(s))
      else To(s.(idle := s.idle.(checked := true)))
    case _ => Never
  }

  /** The idle thread moving on. */
  function IdleMoves(s: State, a: Action): Next {
    match a
    case IdleTakes =>
      if s.idle == ISeek(true) && s.slot then To(s.(idle := ISetTimeout, slot := false)) else Never
    case IdleOk =>
      if s.idle.Enters() && !s.healthy then To(EndIdle(s))
      else if s.idle.ISetTimeout? then To(s.(idle := IEnter))
      else if s.idle.IEnter? then To(s.(idle := IOffer(false), serverIdle := true, response := false))
      else if s.idle.IEvents? then To(s.(idle := IDrop))
      else Never
    case _ => Never
  }

  /** The idle thread reading MPD's answer, and giving the client or itself up. */
  function IdleLeaves(s: State, a: Action): Next {
    match a
    case IdleFail =>
      if s.idle.Enters() || s.idle == IOffer(true) then To(Sick(EndIdle(s))) else Never
    case IdleReads => if s.idle.IRead? && s.response then To(s.(idle := IEvents, response := false)) else Never
    case IdleReadError => if s.idle.IRead? then To(Sick(EndIdle(s))) else Never
    case IdleReadTimeout =>
      if !s.idle.IRead? then Never else if s.healthy then To(s) else To(EndIdle(s))
    case IdleEventFail => if s.idle.IEvents? then To(EndIdle(s)) else Never
    case IdleDrops => if s.idle.IDrop? && !s.slot then To(s.(idle := IAwait(false), slot := true)) else Never
    case IdleAwaitTimeout => if s.idle == IAwait(true) then To(Sick(EndIdle(s))) else Never
    case _ => Never
  }

  /** The request thread at its channels. */
  function WorkTakes(s: State, a: Action): Next {
    match a
    case WorkTakesRequest =>
      if !s.work.WSelect? || s.queue == 0 then Never
      else if !s.healthy then To(StopWork(s).(queue := s.queue - 1))
      else To(s.(work := WNoidle, queue := s.queue - 1))
    case WorkQueueGone => if s.work.WSelect? then To(Sick(StopWork(s))) else Never
    case WorkTakesClient =>
      if s.slot && (s.work.WSelect? || s.work == WRecv(true)) then
        To(s.(work := WOffer(false, s.work.WSelect?), slot := false))
      else Never
    case _ => Never
  }

  /** The request thread reading the flag before it blocks. */
  function WorkReadsFlag(s: State, a: Action): Next {
    match a
    case WorkChecks =>
      if !s.work.Channel() || s.work.checked then Never
      else if !s.healthy then To(StopWork(s))
      else To(s.(work := s.work.(checked := true)))
    case _ => Never
  }

  /** An operation of the request thread succeeding. */
  function WorkMoves(s: State, a: Action): Next {
    match a
    case WorkOk =>
      if (s.work.WNoidle? || s.work.WSetTimeout?) && !s.healthy then To(StopWork(s))
      else if s.work.WNoidle? then
        To(s.(work := WRecv(false), serverIdle := false, response := s.response || s.serverIdle))
      else if s.work.WSetTimeout? then To(s.(work := WProcess))
      else if s.work.WProcess? then To(s.(work := WDrop(false)))
      else Never
    case _ => Never
  }

  /** The request thread working off its buffer, and giving the client or itself up. */
  function WorkLeaves(s: State, a: Action): Next {
    match a
    case WorkFail =>
      if s.work.WNoidle? || s.work.WSetTimeout? || s.work.WProcess? || (s.work.WOffer? && s.work.checked)
      then To(Sick(StopWork(s))) else Never
    case WorkDrains => if s.work.WProcess? && s.queue > 0 then To(s.(queue := 0)) else Never
    case WorkReconnects =>
      if s.work.WProcess? then To(s.(serverIdle := false, response := false, down := false)) else Never
    case WorkDrops =>
      if s.work.WDrop? && !s.slot then To(s.(work := WAwait(false, s.work.back), slot := true)) else Never
    case WorkAwaitTimeout => if s.work.WAwait? && s.work.checked then To(Sick(StopWork(s))) else Never
    case WorkStops(shut) =>
      if s.work.WStop? then To(Sick(s).(work := WEnd, down := s.down || shut)) else Never
    case _ => Never
  }

  /** A send on the confirmation channel meets a receive; and the outside. */
  function Meet(s: State, a: Action): Next {
    match a
    case ConfirmMain =>
      if s.idle == IOffer(true) && s.main.MConfirm? then To(s.(idle := IRead, main := MSpawn)) else Never
    case ConfirmWork =>
      if s.idle == IOffer(true) && s.work.WAwait? && s.work.checked then To(s.(idle := IRead, work := WSelect))
      else Never
    case ConfirmIdle =>
      if s.idle == IAwait(true) && s.work.WOffer? && s.work.checked then
        To(s.(idle := ISeek(false), work := if s.work.back then WDrop(true) else WSetTimeout))
      else Never
    case ServerEvent => if s.serverIdle then To(s.(serverIdle := false, response := true)) else Never
    case RequestArrives => To(s.(queue := s.queue + 1))
    case _ => Never
  }

  function TakerAfter(last: Taker, a: Action): Taker {
    if a.MainChecks? && a.ok then Nobody
    else if a.IdleTakes? then Idle
    else if a.WorkTakesClient? then Work
    else last
  }

  /** What the run remembers of action `a`, written into the state it led to. */
  function Noted(s: State, a: Action, t: State): State {
    t.(last := TakerAfter(s.last, a), failed := s.failed || Failure(a))
  }

  function Apply(s: State, a: Action): Next {
    var t := match a
      case MainTakes | MainChecks(_) | MainSends | MainReturns => MainHolds(s, a)
      case MainSpawns | MainJoinsIdle | MainJoinsWork | MainLoops => MainRuns(s, a)
      case IdleChecks => IdleReadsFlag(s, a)
      case IdleTakes | IdleOk => IdleMoves(s, a)
      case IdleFail | IdleReads | IdleReadError | IdleReadTimeout | IdleEventFail | IdleDrops | IdleAwaitTimeout =>
        IdleLeaves(s, a)
      case WorkTakesRequest | WorkTakesClient | WorkQueueGone => WorkTakes(s, a)
      case WorkChecks => WorkReadsFlag(s, a)
      case WorkOk => WorkMoves(s, a)
      case WorkFail | WorkDrains | WorkReconnects | WorkDrops | WorkAwaitTimeout | WorkStops(_) => WorkLeaves(s, a)
      case ConfirmMain | ConfirmWork | ConfirmIdle | ServerEvent | RequestArrives => Meet(s, a);
    if t.To? then To(Noted(s, a, t.state)) else Never
  }

  /** The state after `run`, `Never` unless every action is enabled where it is taken. */
  function Run(s: State, run: seq<Action>): Next
    decreases |run|
  {
    if run == [] then To(s)
    else
      var before := Run(s, run[..|run| - 1]);
      if before.Never? then Never else Apply(before.state, run[|run| - 1])
  }

  // ---- the invariant ----------------------------------------------------------------------

  /** Exactly one place has the client. */
  ghost predicate OneToken(s: State) {
    if s.slot then !MainOwns(s) && !s.idle.Owns() && !s.work.Owns()
    else if MainOwns(s) then !s.idle.Owns() && !s.work.Owns()
    else s.idle.Owns() != s.work.Owns()
  }

  /** Which threads exist while main is where. */
  ghost predicate Sessions(s: State) {
    match s.main
    case MSend => s.idle.ISeek? && s.work.WNone?
    case MConfirm => (s.idle.ISeek? || s.idle.Enters() || s.idle.IOffer? || s.idle.IEnd?) && s.work.WNone?
    case MSpawn =>
      (s.idle.IRead? || s.idle.IEvents? || s.idle.IDrop? || s.idle.IAwait? || s.idle.IEnd?) && s.work.WNone?
    case MJoinIdle => !s.idle.INone? && !s.work.WNone?
    case MJoinWork => s.idle.INone? && !s.work.WNone?
    case _ => s.idle.INone? && s.work.WNone?
  }

  /** The thread that took last is not about to take, and idle is the first to take. */
  ghost predicate Turns(s: State) {
    && (s.idle.Owns() || s.work.Seeks() || s.main.MSpawn? ==> s.last == Idle)
    && (s.work.Owns() ==> s.last == Work)
    && (s.idle.ISeek? ==> s.last != Idle)
    && (s.main.MSend? ==> s.last == Nobody)
  }

  /** Who waits for whom on the confirmation channel, and what MPD then owes. */
  ghost predicate Waits(s: State) {
    && (s.work.Seeks() ==> s.idle.IRead? || s.idle.IEvents? || s.idle.IDrop? || s.idle.IAwait? || s.idle.Gone())
    && (s.work.WOffer? ==> s.idle.IAwait? || s.idle.Gone())
    && (s.work.Serves() || s.work.WAwait? ==> s.idle.ISeek? || s.idle.Enters() || s.idle.IOffer? || s.idle.Gone())
    && (s.idle.Armed() && !s.work.Gone() ==> s.serverIdle || s.response)
    && (s.work.WRecv? ==> !s.serverIdle)
  }

  /** `HEALTHY` is false only once a thread is leaving. */
  ghost predicate Health(s: State) {
    && (!s.healthy ==> s.idle.Gone() || s.work.Gone())
    && (s.work.WEnd? ==> !s.healthy)
    && (MainOwns(s) || s.main.MRecv? ==> s.healthy)
  }

  /** Only the request thread's end shuts the socket down, and a new session starts with a new one. */
  ghost predicate Socket(s: State) {
    && (s.down ==> !s.first && (s.work.WEnd? || (s.work.WNone? && s.idle.INone?)))
    && (s.first ==> s.main.MRecv? || s.main.MCheck?)
  }

  /** While no step has failed, both threads are alive. */
  ghost predicate Clean(s: State) {
    s.healthy && !s.idle.IEnd? && !s.work.Gone() && !s.main.MJoinWork?
  }

  ghost predicate Safe(s: State) { OneToken(s) && Sessions(s) && Health(s) }

  ghost predicate Inv(s: State) {
    Safe(s) && Turns(s) && Waits(s) && Socket(s) && (!s.failed ==> Clean(s))
  }

  lemma StartInv()
    ensures Inv(START)
  {
  }

  lemma IdleReadsFlagToken(s: State, a: Action)
    requires Safe(s) && IdleReadsFlag(s, a).To?
    ensures OneToken(IdleReadsFlag(s, a).state) && Sessions(IdleReadsFlag(s, a).state)
  {
  }

  lemma IdleReadsFlagHealth(s: State, a: Action)
    requires Safe(s) && Socket(s) && IdleReadsFlag(s, a).To?
    ensures Health(IdleReadsFlag(s, a).state) && Socket(IdleReadsFlag(s, a).state)
    ensures Clean(s) && !Failure(a) ==> Clean(IdleReadsFlag(s, a).state)
  {
  }

  lemma IdleReadsFlagOrder(s: State, a: Action)
    requires Safe(s) && Turns(s) && Waits(s) && IdleReadsFlag(s, a).To?
    ensures Turns(Noted(s, a, IdleReadsFlag(s, a).state)) && Waits(IdleReadsFlag(s, a).state)
  {
  }

  lemma IdleMovesToken(s: State, a: Action)
    requires Safe(s) && IdleMoves(s, a).To?
    ensures OneToken(IdleMoves(s, a).state)
  {
  }

  lemma IdleTakesSession(s: State)
    requires Safe(s) && IdleMoves(s, IdleTakes).To?
    ensures Sessions(IdleMoves(s, IdleTakes).state)
  {
  }

  lemma IdleOkSession(s: State)
    requires Safe(s) && IdleMoves(s, IdleOk).To?
    ensures Sessions(IdleMoves(s, IdleOk).state)
  {
    if s.idle.Enters() {
      assert s.main.MConfirm? || s.main.MJoinIdle?;
    } else {
      assert s.main.MSpawn? || s.main.MJoinIdle?;
    }
  }

  lemma IdleMovesSession(s: State, a: Action)
    requires Safe(s) && IdleMoves(s, a).To?
    ensures Sessions(IdleMoves(s, a).state)
  {
    if a.IdleTakes? {
      IdleTakesSession(s);
    } else {
      IdleOkSession(s);
    }
  }

  lemma IdleMovesHealth(s: State, a: Action)
    requires Safe(s) && Socket(s) && IdleMoves(s, a).To?
    ensures Health(IdleMoves(s, a).state) && Socket(IdleMoves(s, a).state)
    ensures Clean(s) && !Failure(a) ==> Clean(IdleMoves(s, a).state)
  {
  }

  lemma IdleMovesOrder(s: State, a: Action)
    requires Safe(s) && Turns(s) && Waits(s) && IdleMoves(s, a).To?
    ensures Turns(Noted(s, a, IdleMoves(s, a).state)) && Waits(IdleMoves(s, a).state)
  {
  }

  lemma IdleLeavesToken(s: State, a: Action)
    requires Safe(s) && IdleLeaves(s, a).To?
    ensures OneToken(IdleLeaves(s, a).state) && Sessions(IdleLeaves(s, a).state)
  {
  }

  lemma IdleLeavesHealth(s: State, a: Action)
    requires Safe(s) && Socket(s) && IdleLeaves(s, a).To?
    ensures Health(IdleLeaves(s, a).state) && Socket(IdleLeaves(s, a).state)
    ensures Clean(s) && !Failure(a) ==> Clean(IdleLeaves(s, a).state)
  {
  }

  lemma IdleLeavesOrder(s: State, a: Action)
    requires Safe(s) && Turns(s) && Waits(s) && IdleLeaves(s, a).To?
    ensures Turns(Noted(s, a, IdleLeaves(s, a).state)) && Waits(IdleLeaves(s, a).state)
  {
  }

  lemma WorkTakesToken(s: State, a: Action)
    requires Safe(s) && WorkTakes(s, a).To?
    ensures OneToken(WorkTakes(s, a).state) && Sessions(WorkTakes(s, a).state)
  {
  }

  lemma WorkTakesHealth(s: State, a: Action)
    requires Safe(s) && Socket(s) && WorkTakes(s, a).To?
    ensures Health(WorkTakes(s, a).state) && Socket(WorkTakes(s, a).state)
    ensures Clean(s) && !Failure(a) ==> Clean(WorkTakes(s, a).state)
  {
  }

  lemma WorkTakesTurns(s: State, a: Action)
    requires Safe(s) && Turns(s) && Waits(s) && WorkTakes(s, a).To?
    ensures Turns(Noted(s, a, WorkTakes(s, a).state))
  {
  }

  lemma WorkTakesWaits(s: State, a: Action)
    requires Safe(s) && Turns(s) && Waits(s) && WorkTakes(s, a).To?
    ensures Waits(WorkTakes(s, a).state)
  {
  }

  lemma WorkReadsFlagToken(s: State, a: Action)
    requires Safe(s) && WorkReadsFlag(s, a).To?
    ensures OneToken(WorkReadsFlag(s, a).state) && Sessions(WorkReadsFlag(s, a).state)
  {
  }

  lemma WorkReadsFlagHealth(s: State, a: Action)
    requires Safe(s) && Socket(s) && WorkReadsFlag(s, a).To?
    ensures Health(WorkReadsFlag(s, a).state) && Socket(WorkReadsFlag(s, a).state)
    ensures Clean(s) && !Failure(a) ==> Clean(WorkReadsFlag(s, a).state)
  {
  }

  lemma WorkReadsFlagOrder(s: State, a: Action)
    requires Safe(s) && Turns(s) && Waits(s) && WorkReadsFlag(s, a).To?
    ensures Turns(Noted(s, a, WorkReadsFlag(s, a).state)) && Waits(WorkReadsFlag(s, a).state)
  {
  }

  lemma WorkMovesToken(s: State, a: Action)
    requires Safe(s) && WorkMoves(s, a).To?
    ensures OneToken(WorkMoves(s, a).state) && Sessions(WorkMoves(s, a).state)
  {
    if s.work.WNoidle? {
    } else if s.work.WSetTimeout? {
    } else {
    }
  }

  lemma WorkMovesHealth(s: State, a: Action)
    requires Safe(s) && Socket(s) && WorkMoves(s, a).To?
    ensures Health(WorkMoves(s, a).state) && Socket(WorkMoves(s, a).state)
    ensures Clean(s) && !Failure(a) ==> Clean(WorkMoves(s, a).state)
  {
  }

  lemma WorkMovesOrder(s: State, a: Action)
    requires Safe(s) && Turns(s) && Waits(s) && WorkMoves(s, a).To?
    ensures Turns(Noted(s, a, WorkMoves(s, a).state)) && Waits(WorkMoves(s, a).state)
  {
    if s.work.WNoidle? {
    } else if s.work.WSetTimeout? {
    } else {
    }
  }

  lemma WorkLeavesToken(s: State, a: Action)
    requires Safe(s) && WorkLeaves(s, a).To?
    ensures OneToken(WorkLeaves(s, a).state) && Sessions(WorkLeaves(s, a).state)
  {
  }

  lemma WorkLeavesHealth(s: State, a: Action)
    requires Safe(s) && Socket(s) && WorkLeaves(s, a).To?
    ensures Health(WorkLeaves(s, a).state) && Socket(WorkLeaves(s, a).state)
    ensures Clean(s) && !Failure(a) ==> Clean(WorkLeaves(s, a).state)
  {
  }

  lemma WorkLeavesOrder(s: State, a: Action)
    requires Safe(s) && Turns(s) && Waits(s) && WorkLeaves(s, a).To?
    ensures Turns(Noted(s, a, WorkLeaves(s, a).state)) && Waits(WorkLeaves(s, a).state)
  {
  }

  lemma MeetToken(s: State, a: Action)
    requires Safe(s) && Meet(s, a).To?
    ensures OneToken(Meet(s, a).state) && Sessions(Meet(s, a).state)
  {
  }

  lemma MeetHealth(s: State, a: Action)
    requires Safe(s) && Socket(s) && Meet(s, a).To?
    ensures Health(Meet(s, a).state) && Socket(Meet(s, a).state)
    ensures Clean(s) && !Failure(a) ==> Clean(Meet(s, a).state)
  {
  }

  lemma MeetOrder(s: State, a: Action)
    requires Safe(s) && Turns(s) && Waits(s) && Meet(s, a).To?
    ensures Turns(Noted(s, a, Meet(s, a).state)) && Waits(Meet(s, a).state)
  {
  }

  predicate OfMain(a: Action) {
    a.MainTakes? || a.MainChecks? || a.MainSends? || a.MainReturns? || a.MainSpawns? || a.MainJoinsIdle?
    || a.MainJoinsWork? || a.MainLoops?
  }

  predicate OfIdle(a: Action) {
    a.IdleChecks? || a.IdleTakes? || a.IdleOk? || a.IdleFail? || a.IdleReads? || a.IdleReadError?
    || a.IdleReadTimeout? || a.IdleEventFail? || a.IdleDrops? || a.IdleAwaitTimeout?
  }

  predicate GoesOnAtWork(a: Action) {
    a.WorkTakesRequest? || a.WorkTakesClient? || a.WorkQueueGone? || a.WorkChecks? || a.WorkOk?
  }

  predicate LeavesWork(a: Action) {
    a.WorkFail? || a.WorkDrains? || a.WorkReconnects? || a.WorkDrops? || a.WorkAwaitTimeout? || a.WorkStops?
  }

  /** The parts of the invariant make the invariant, whatever the run takes note of. */
  lemma Together(s: State, a: Action, t: State)
    requires Inv(s) && OneToken(t) && Sessions(t) && Health(t) && Socket(t) && Waits(t)
    requires Turns(Noted(s, a, t)) && (Clean(s) && !Failure(a) ==> Clean(t))
    ensures Inv(Noted(s, a, t))
  {
  }

  lemma MainHoldsInv(s: State, a: Action)
    requires Inv(s) && MainHolds(s, a).To?
    ensures Inv(Noted(s, a, MainHolds(s, a).state))
  {
  }

  lemma MainRunsInv(s: State, a: Action)
    requires Inv(s) && MainRuns(s, a).To?
    ensures Inv(Noted(s, a, MainRuns(s, a).state))
  {
  }

  lemma MainInv(s: State, a: Action)
    requires Inv(s) && OfMain(a) && Apply(s, a).To?
    ensures Inv(Apply(s, a).state)
  {
    if a.MainTakes? || a.MainChecks? || a.MainSends? || a.MainReturns? {
      MainHoldsInv(s, a);
    } else {
      MainRunsInv(s, a);
    }
  }

  lemma IdleInv(s: State, a: Action)
    requires Inv(s) && OfIdle(a) && Apply(s, a).To?
    ensures Inv(Apply(s, a).state)
  {
    if a.IdleChecks? {
      IdleReadsFlagToken(s, a); IdleReadsFlagHealth(s, a); IdleReadsFlagOrder(s, a);
      Together(s, a, IdleReadsFlag(s, a).state);
    } else if a.IdleTakes? || a.IdleOk? {
      IdleMovesToken(s, a); IdleMovesSession(s, a); IdleMovesHealth(s, a); IdleMovesOrder(s, a);
      Together(s, a, IdleMoves(s, a).state);
    } else {
      IdleLeavesToken(s, a); IdleLeavesHealth(s, a); IdleLeavesOrder(s, a);
      Together(s, a, IdleLeaves(s, a).state);
    }
  }

  lemma WorkLeavesInv(s: State, a: Action)
    requires Inv(s) && LeavesWork(a) && Apply(s, a).To?
    ensures Inv(Apply(s, a).state)
  {
    WorkLeavesToken(s, a); WorkLeavesHealth(s, a); WorkLeavesOrder(s, a);
    Together(s, a, WorkLeaves(s, a).state);
  }

  lemma WorkGoesOnInv(s: State, a: Action)
    requires Inv(s) && GoesOnAtWork(a) && Apply(s, a).To?
    ensures Inv(Apply(s, a).state)
  {
    if a.WorkChecks? {
      WorkReadsFlagToken(s, a); WorkReadsFlagHealth(s, a); WorkReadsFlagOrder(s, a);
      Together(s, a, WorkReadsFlag(s, a).state);
    } else if a.WorkOk? {
      WorkMovesToken(s, a); WorkMovesHealth(s, a); WorkMovesOrder(s, a);
      Together(s, a, WorkMoves(s, a).state);
    } else {
      WorkTakesToken(s, a); WorkTakesHealth(s, a); WorkTakesTurns(s, a); WorkTakesWaits(s, a);
      Together(s, a, WorkTakes(s, a).state);
    }
  }

  lemma StepInv(s: State, a: Action)
    requires Inv(s) && Apply(s, a).To?
    ensures Inv(Apply(s, a).state)
  {
    if OfMain(a) {
      MainInv(s, a);
    } else if OfIdle(a) {
      IdleInv(s, a);
    } else if LeavesWork(a) {
      WorkLeavesInv(s, a);
    } else if GoesOnAtWork(a) {
      WorkGoesOnInv(s, a);
    } else {
      MeetToken(s, a); MeetHealth(s, a); MeetOrder(s, a);
    }
  }

  lemma {:induction false} RunInv(run: seq<Action>)
    requires Run(START, run).To?
    ensures Inv(Run(START, run).state)
  {
    if run == [] {
      StartInv();
    } else {
      RunInv(run[..|run| - 1]);
      StepInv(Run(START, run[..|run| - 1]).state, run[|run| - 1]);
    }
  }
}
