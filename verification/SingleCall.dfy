// Serving a single message (rpc/handler.go, handleNonBatchCall): the goroutine that
// executes it, the timeout, and the notifier of a subscribe call. Both write through one
// sync.Once.
module SingleCall {
  import opened Wrappers
  import opened Messages
  import opened Notifiers

  datatype Worker =
    | Executing
    | Stopping(answer: Option<Message>)      // timer.Stop
    | Registering(answer: Option<Message>)   // addSubscriptions
    | Responding(answer: Option<Message>)    // responded.Do, if there is an answer
    | Activating
    | Done

  datatype Timer = NoTimer | Armed | Fired | Finished | TimerStopped

  datatype Write = Write(msg: Message, isErrorResponse: bool)

  datatype State = State(
    msg: Message, worker: Worker, timer: Timer, responded: bool, wire: seq<Write>,
    notifier: Option<NotifierState>)

  datatype Event =
    | Install | Return(outcome: Outcome) | StopTimer | Register | Respond | Activate(good: nat) | NoNotifier
    | Fire | Timeout | Create(id: SubId) | Notify(data: Data)

  predicate Enabled(s: State, e: Event) {
    match e
    case Install =>
      s.worker == Executing && s.notifier == None && s.msg.IsSubscribe() && (s.msg.IsCall() || s.msg.IsNotification())
    case Return(_) => s.worker == Executing
    case StopTimer => s.worker.Stopping?
    case Register => s.worker.Registering?
    case Respond => s.worker.Responding?
    case Activate(_) => s.worker == Activating && s.notifier.Some?
    case NoNotifier => s.worker == Activating && s.notifier == None
    case Fire => s.timer == Armed
    case Timeout => s.timer == Fired
    case Create(_) => s.notifier.Some? && s.notifier.value.sub == None && !s.notifier.value.callReturned
    case Notify(_) => s.notifier.Some? && s.notifier.value.sub.Some?
  }

  function Once(s: State, w: Write): State {
    if s.responded then s else s.(responded := true, wire := s.wire + [w])
  }

  function Apply(s: State, e: Event): State
    requires Enabled(s, e)
  {
    match e
    case Install => s.(notifier := Some(NEW_NOTIFIER))
    case Return(outcome) => s.(worker := Stopping(HandleCallMsg(s.msg, outcome)))
    case StopTimer =>
      s.(timer := if s.timer == Armed then TimerStopped else s.timer, worker := Registering(s.worker.answer))
    case Register =>
      s.(notifier := if s.notifier.Some? then Some(Taken(s.notifier.value)) else None,
         worker := Responding(s.worker.answer))
    case Respond =>
      (if s.worker.answer.Some? then Once(s, Write(s.worker.answer.value, false)) else s).(worker := Activating)
    case Activate(good) => s.(notifier := Some(Activated(s.notifier.value, good)), worker := Done)
    case NoNotifier => s.(worker := Done)
    case Fire => s.(timer := Fired)
    case Timeout => Once(s, Write(s.msg.ErrorResponse(TIMEOUT_ERROR), true)).(timer := Finished)
    case Create(id) => s.(notifier := Some(Created(s.notifier.value, id)))
    case Notify(data) => s.(notifier := Some(Notified(s.notifier.value, data)))
  }

  function Initial(msg: Message, hasTimeout: bool): State {
    State(msg, Executing, if hasTimeout then Armed else NoTimer, false, [], None)
  }

  ghost predicate Run(msg: Message, hasTimeout: bool, events: seq<Event>, states: seq<State>) {
    && |states| == |events| + 1
    && states[0] == Initial(msg, hasTimeout)
    && forall i :: 0 <= i < |events| ==> Enabled(states[i], events[i]) && states[i + 1] == Apply(states[i], events[i])
  }

  predicate HasAnswer(w: Worker) {
    w.Stopping? || w.Registering? || w.Responding?
  }

  predicate PastRegister(w: Worker) {
    w.Responding? || w.Activating? || w.Done?
  }

  ghost predicate Inv(s: State) {
    && |s.wire| == (if s.responded then 1 else 0)
    && (HasAnswer(s.worker) ==>
          && (s.worker.answer == None <==> s.msg.IsNotification())
          && (s.worker.answer.Some? ==> Answers(s.worker.answer.value, s.msg)))
    && (s.responded ==> Answers(s.wire[0].msg, s.msg))
    && (s.responded && s.wire[0].isErrorResponse ==> s.timer == Finished)
    && (s.responded && !s.wire[0].isErrorResponse ==> (s.worker.Activating? || s.worker.Done?) && !s.msg.IsNotification())
    && (s.timer == Finished ==> s.responded)
    && ((s.worker.Activating? || s.worker.Done?) && !s.msg.IsNotification() ==> s.responded)
    && (s.notifier.Some? ==>
          && InOrder(s.notifier.value)
          && (s.notifier.value.callReturned <==> PastRegister(s.worker))
          && (s.notifier.value.activateCalled <==> s.worker.Done?))
  }

  lemma StepKeepsInv(s: State, e: Event)
    requires Inv(s) && Enabled(s, e)
    ensures Inv(Apply(s, e)) && Apply(s, e).msg == s.msg
  {
    match e
    case Return(outcome) => CallMsgAnswered(s.msg, outcome);
    case Activate(good) => ActivatedKeepsOrder(s.notifier.value, good);
    case Notify(data) => NotifiedKeepsOrder(s.notifier.value, data);
    case Create(id) => CreatedKeepsOrder(s.notifier.value, id);
    case _ =>
  }

  lemma {:induction false} RunInv(msg: Message, hasTimeout: bool, events: seq<Event>, states: seq<State>, k: nat)
    requires Run(msg, hasTimeout, events, states) && k < |states|
    ensures Inv(states[k]) && states[k].msg == msg
  {
    if k > 0 {
      RunInv(msg, hasTimeout, events, states, k - 1);
      assert Enabled(states[k - 1], events[k - 1]) && states[k] == Apply(states[k - 1], events[k - 1]);
      StepKeepsInv(states[k - 1], events[k - 1]);
    }
  }

  // Whatever the timer does, a message is answered at most once, under its id, and one
  // that is not a notification has been answered when the goroutine ends. A notification
  // is answered exactly when the timeout has struck, contrary to section 4.1 of the
  // JSON-RPC 2.0 Specification.
  lemma AnsweredOnce(msg: Message, hasTimeout: bool, events: seq<Event>, states: seq<State>, k: nat)
    requires Run(msg, hasTimeout, events, states) && k < |states|
    ensures var s := states[k];
            && |s.wire| <= 1
            && (s.wire != [] ==> Answers(s.wire[0].msg, msg))
            && (s.worker == Done && !msg.IsNotification() ==> s.wire != [])
            && (msg.IsNotification() ==> (s.wire != [] <==> s.timer == Finished))
  {
    RunInv(msg, hasTimeout, events, states, k);
  }

  // The method of the message has come to the outcome.
  ghost predicate Returned(events: seq<Event>, outcome: Outcome) {
    Return(outcome) in events
  }

  // The answer to be written or written carries the outcome; what the timeout writes is its
  // error.
  ghost predicate CarriesInv(s: State, events: seq<Event>) {
    && (s.worker == Executing ==> forall outcome :: !Returned(events, outcome))
    && (HasAnswer(s.worker) && s.worker.answer.Some? ==>
          exists outcome :: Returned(events, outcome) && Carries(s.worker.answer.value, s.msg, outcome))
    && (s.wire != [] && !s.wire[0].isErrorResponse ==>
          exists outcome :: Returned(events, outcome) && Carries(s.wire[0].msg, s.msg, outcome))
    && (s.wire != [] && s.wire[0].isErrorResponse ==>
          s.wire[0].msg.error == Some(TIMEOUT_ERROR) && s.wire[0].msg.result == None)
    && ((s.worker.Registering? || PastRegister(s.worker)) ==> s.timer != Armed)
    && (s.timer != NoTimer && s.timer != TimerStopped && s.timer != Armed ==> Fire in events)
    && (s.notifier.Some? ==> s.msg.IsSubscribe())
  }

  lemma CarriesStep(s: State, e: Event, events: seq<Event>)
    requires Inv(s) && Enabled(s, e) && CarriesInv(s, events)
    ensures CarriesInv(Apply(s, e), events + [e])
  {
    forall outcome: Outcome
      ensures Returned(events + [e], outcome) <==> Returned(events, outcome) || e == Return(outcome)
    {
    }
    if e.Return? {
      assert Returned(events + [e], e.outcome);
      if !s.msg.IsNotification() {
        AnswerCarries(s.msg, e.outcome);
      }
    }
    if e.Timeout? {
      ErrorResponseCarries(s.msg, TIMEOUT_ERROR);
    }
  }

  lemma {:induction false} CarriesRun(
    msg: Message, hasTimeout: bool, events: seq<Event>, states: seq<State>, k: nat)
    requires Run(msg, hasTimeout, events, states) && k < |states|
    ensures CarriesInv(states[k], events[..k])
  {
    if k > 0 {
      CarriesRun(msg, hasTimeout, events, states, k - 1);
      RunInv(msg, hasTimeout, events, states, k - 1);
      CarriesStep(states[k - 1], events[k - 1], events[..k - 1]);
      assert events[..k] == events[..k - 1] + [events[k - 1]];
    }
  }

  // In every run, what is written is the timeout's error, after the timer has fired, or
  // carries what the method came to. A timer that has been stopped does not fire.
  lemma AnswerIsOutcome(msg: Message, hasTimeout: bool, events: seq<Event>, states: seq<State>, k: nat)
    requires Run(msg, hasTimeout, events, states) && k < |states|
    ensures var s := states[k];
            && (s.wire != [] && s.wire[0].isErrorResponse ==>
                  Fire in events[..k] && s.wire[0].msg.error == Some(TIMEOUT_ERROR) && s.wire[0].msg.result == None)
            && (s.wire != [] && !s.wire[0].isErrorResponse ==>
                  exists outcome :: Return(outcome) in events[..k] && Carries(s.wire[0].msg, msg, outcome))
            && (s.worker.Registering? || PastRegister(s.worker) ==> !Enabled(s, Fire))
            && (s.notifier.Some? ==> msg.IsSubscribe())
  {
    RunInv(msg, hasTimeout, events, states, k);
    CarriesRun(msg, hasTimeout, events, states, k);
    var s := states[k];
    if s.wire != [] && !s.wire[0].isErrorResponse {
      var outcome :| Returned(events[..k], outcome) && Carries(s.wire[0].msg, s.msg, outcome);
      assert Return(outcome) in events[..k];
    }
  }

  // No notification is tried before a response to the subscribe call has been written, if
  // it expects one; all are tried in order. The subscription is registered before the
  // call's own answer is written.
  lemma NotificationsFollowResponse(
    msg: Message, hasTimeout: bool, events: seq<Event>, states: seq<State>, k: nat)
    requires Run(msg, hasTimeout, events, states) && k < |states| && states[k].notifier.Some?
    ensures var n := states[k].notifier.value;
            && n.attempted <= n.notified
            && (n.activated ==> n.attempted == n.notified)
            && (n.attempted != [] && !msg.IsNotification() ==> states[k].wire != [])
            && (states[k].wire != [] && !states[k].wire[0].isErrorResponse ==> n.callReturned)
  {
    RunInv(msg, hasTimeout, events, states, k);
  }

  // A notification that times out is answered: the run that shows it.
  lemma NotificationAnswered(msg: Message) returns (events: seq<Event>, states: seq<State>)
    requires msg.IsNotification()
    ensures Run(msg, true, events, states)
    ensures states[|events|].wire == [Write(msg.ErrorResponse(TIMEOUT_ERROR), true)]
  {
    events := [Fire, Timeout];
    var s := Initial(msg, true);
    states := [s, Apply(s, Fire), Apply(Apply(s, Fire), Timeout)];
  }
}
