// Serving a batch (rpc/handler.go, handleBatch): the goroutine that executes the calls,
// the timeout, and the notifiers of the subscribe calls among them, as a transition
// system. Whatever happens under one mutex is one step.
module BatchRun {
  import opened Wrappers
  import opened Messages
  import opened BatchBuffer
  import opened Notifiers

  datatype Worker =
    | AtCheck                                // head of the loop: the context is looked at
    | AtNext                                 // nextCall
    | Executing(msg: Message)                // handleCallMsg
    | Answering(answer: Option<Message>)     // pushResponse
    | Counting(answer: Option<Message>)      // the response size is added up
    | TooLarge                               // respondWithError, then out of the loop
    | Leaving                                // timer.Stop
    | Registering                            // addSubscriptions
    | Writing                                // write
    | Activating(next: nat)                  // activate the notifiers in turn
    | Done

  datatype Timer = NoTimer | Armed | Fired | Finished | TimerStopped

  // The one write: how many calls had been answered, and whether the others were answered
  // by an error.
  datatype Reply = Reply(answered: nat, error: Option<JsonError>)

  // The notifier installed for the subscribe call at an index of the batch.
  datatype Subscribed = Subscribed(call: nat, notifier: NotifierState)

  datatype State = State(
    batch: seq<Message>, buffer: Buffer, worker: Worker, timer: Timer,
    cancelled: bool, limit: nat, responseBytes: nat,
    answers: seq<Option<Message>>,     // what has been pushed
    reply: Option<Reply>,
    notifiers: seq<Subscribed>)

  datatype Event =
    | Check | Next | Install | Return(outcome: Outcome) | Push | Count | CutShort
    | StopTimer | Register | WriteBatch | Activate(good: nat) | Finish
    | Fire | Timeout                   // the timer: cancel, then respondWithError
    | Cancel                           // the context ends for another reason
    | Create(i: nat, id: SubId) | Notify(i: nat, data: Data)   // any goroutine

  predicate Enabled(s: State, e: Event) {
    match e
    case Check => s.worker == AtCheck
    case Next => s.worker == AtNext
    case Install =>
      && s.worker.Executing? && s.worker.msg.IsSubscribe()
      && (s.worker.msg.IsCall() || s.worker.msg.IsNotification())
      && (forall i :: 0 <= i < |s.notifiers| ==> s.notifiers[i].call != |s.answers|)
    case Return(_) => s.worker.Executing?
    case Push => s.worker.Answering?
    case Count => s.worker.Counting?
    case CutShort => s.worker == TooLarge
    case StopTimer => s.worker == Leaving
    case Register => s.worker == Registering
    case WriteBatch => s.worker == Writing
    case Activate(_) => s.worker.Activating? && s.worker.next < |s.notifiers|
    case Finish => s.worker == Activating(|s.notifiers|)
    case Fire => s.timer == Armed
    case Timeout => s.timer == Fired
    case Cancel => true
    case Create(i, _) =>
      i < |s.notifiers| && s.notifiers[i].notifier.sub == None && !s.notifiers[i].notifier.callReturned
    case Notify(i, _) => i < |s.notifiers| && s.notifiers[i].notifier.sub.Some?
  }

  function ResultSize(answer: Option<Message>): nat {
    if answer.Some? && answer.value.result.Some? then |answer.value.result.value| else 0
  }

  // respondWithError and write, remembering the first of them.
  function RespondError(s: State, err: JsonError): State {
    s.(buffer := RespondedWithError(s.buffer, err),
       reply := if s.buffer.wrote then s.reply else Some(Reply(|s.answers|, Some(err))))
  }

  function WriteAll(s: State): State {
    s.(buffer := Flushed(s.buffer, false),
       reply := if s.buffer.wrote then s.reply else Some(Reply(|s.answers|, None)))
  }

  function SetNotifier(s: State, i: nat, n: NotifierState): State
    requires i < |s.notifiers|
  {
    s.(notifiers := s.notifiers[i := s.notifiers[i].(notifier := n)])
  }

  function TakeAll(ns: seq<Subscribed>): seq<Subscribed> {
    seq(|ns|, i requires 0 <= i < |ns| => ns[i].(notifier := Taken(ns[i].notifier)))
  }

  // None is a panic: pushResponse on an empty buffer.
  function Apply(s: State, e: Event): Option<State>
    requires Enabled(s, e)
  {
    match e
    case Check => Some(s.(worker := if s.cancelled then Leaving else AtNext))
    case Next => Some(s.(worker := if s.buffer.calls == [] then Leaving else Executing(s.buffer.calls[0])))
    case Install => Some(s.(notifiers := s.notifiers + [Subscribed(|s.answers|, NEW_NOTIFIER)]))
    case Return(outcome) => Some(s.(worker := Answering(HandleCallMsg(s.worker.msg, outcome))))
    case Push =>
      if s.buffer.calls == [] then None
      else Some(s.(buffer := Pushed(s.buffer, s.worker.answer),
                   answers := s.answers + [s.worker.answer],
                   worker := Counting(s.worker.answer)))
    case Count =>
      if s.worker.answer.Some? && s.limit != 0 then
        var bytes := s.responseBytes + ResultSize(s.worker.answer);
        Some(s.(responseBytes := bytes, worker := if bytes > s.limit then TooLarge else AtCheck))
      else Some(s.(worker := AtCheck))
    case CutShort => Some(RespondError(s, TOO_LARGE_ERROR).(worker := Leaving))
    case StopTimer => Some(s.(timer := if s.timer == Armed then TimerStopped else s.timer, worker := Registering))
    case Register => Some(s.(notifiers := TakeAll(s.notifiers), worker := Writing))
    case WriteBatch => Some(WriteAll(s).(worker := Activating(0)))
    case Activate(good) =>
      var k := s.worker.next;
      Some(SetNotifier(s, k, Activated(s.notifiers[k].notifier, good)).(worker := Activating(k + 1)))
    case Finish => Some(s.(worker := Done, cancelled := true))
    case Fire => Some(s.(timer := Fired, cancelled := true))
    case Timeout => Some(RespondError(s, TIMEOUT_ERROR).(timer := Finished))
    case Cancel => Some(s.(cancelled := true))
    case Create(i, id) => Some(SetNotifier(s, i, Created(s.notifiers[i].notifier, id)))
    case Notify(i, data) => Some(SetNotifier(s, i, Notified(s.notifiers[i].notifier, data)))
  }

  // A batch that passed the checks on its size, with or without a timeout.
  function Initial(batch: seq<Message>, limit: nat, hasTimeout: bool): State {
    State(batch, Buffer(batch, [], false, []), AtCheck, if hasTimeout then Armed else NoTimer,
          false, limit, 0, [], None, [])
  }

  ghost predicate NextState(s: State, e: Event, t: State) {
    Enabled(s, e) && Apply(s, e) == Some(t)
  }

  ghost predicate Run(batch: seq<Message>, limit: nat, hasTimeout: bool, events: seq<Event>, states: seq<State>) {
    && |states| == |events| + 1
    && states[0] == Initial(batch, limit, hasTimeout)
    && forall i :: 0 <= i < |events| ==> NextState(states[i], events[i], states[i + 1])
  }

  // ---------- The invariant ----------

  function Bytes(answers: seq<Option<Message>>): nat {
    if answers == [] then 0 else Bytes(answers[..|answers| - 1]) + ResultSize(answers[|answers| - 1])
  }

  // The buffer holds what is left, and the worker its first entry.
  ghost predicate WorkInv(s: State) {
    && |s.answers| <= |s.batch|
    && s.buffer.calls == s.batch[|s.answers|..]
    && AnswersTo(s.answers, s.batch[..|s.answers|])
    && (s.worker.Executing? ==> s.buffer.calls != [] && s.worker.msg == s.buffer.calls[0])
    && (s.worker.Answering? ==> s.buffer.calls != [] && AnswerTo(s.worker.answer, s.buffer.calls[0]))
    && (s.worker.Counting? ==> s.answers != [] && s.worker.answer == s.answers[|s.answers| - 1])
  }

  predicate InLoop(w: Worker) {
    !w.Leaving? && !w.Registering? && !w.Writing? && !w.Activating? && !w.Done?
  }

  function Content(s: State, r: Reply): seq<Message>
    requires r.answered <= |s.answers| && r.answered <= |s.batch|
  {
    Collected(s.answers[..r.answered])
      + if r.error.Some? then ErrorsFor(s.batch[r.answered..], r.error.value) else []
  }

  // Nothing is written before the reply is fixed, and it is written then.
  ghost predicate ReplyInv(s: State) {
    && (s.buffer.wrote <==> s.reply.Some?)
    && (s.reply == None ==> s.buffer.resp == Collected(s.answers) && s.buffer.wire == [])
    && (s.reply.Some? ==>
          && s.reply.value.answered <= |s.answers| <= |s.batch|
          && s.buffer.wire == (if Content(s, s.reply.value) == [] then []
                               else [Write(Content(s, s.reply.value), s.reply.value.error.Some?)]))
    && (s.worker.Activating? || s.worker.Done? ==> s.reply.Some?)
    && (s.reply.Some? && s.reply.value.error == None ==>
          (s.worker.Activating? || s.worker.Done?) && s.reply.value.answered == |s.answers|)
  }

  // Why the worker left the loop, and when an error made the reply.
  ghost predicate ExitInv(s: State) {
    && (s.timer == Fired || s.timer == Finished ==> s.cancelled)
    && (s.worker == TooLarge ==> s.limit != 0 && Bytes(s.answers) > s.limit)
    && (!InLoop(s.worker) && s.buffer.calls != [] ==> s.cancelled || s.reply.Some?)
    && (s.reply.Some? && s.reply.value.error.Some? ==>
          || (s.reply.value.error.value == TIMEOUT_ERROR && s.cancelled)
          || (s.reply.value.error.value == TOO_LARGE_ERROR && s.limit != 0 && !InLoop(s.worker)
              && s.reply.value.answered == |s.answers| && Bytes(s.answers) > s.limit))
    && (s.reply.Some? && s.reply.value.error == None && s.buffer.calls != [] ==> s.cancelled)
  }

  // With a limit, calls are executed only while the results so far are within it.
  ghost predicate SizeInv(s: State) {
    s.limit != 0 ==>
      && (s.answers != [] ==> Bytes(s.answers[..|s.answers| - 1]) <= s.limit)
      && (if s.worker.Counting? then s.responseBytes + ResultSize(s.worker.answer) == Bytes(s.answers)
          else s.responseBytes == Bytes(s.answers))
      && (s.worker.Counting? ==> s.responseBytes <= s.limit)
      && (!InLoop(s.worker) && (s.reply == None || s.reply.value.error == None) ==> Bytes(s.answers) <= s.limit)
      && (InLoop(s.worker) && !s.worker.Counting? && s.worker != TooLarge ==> s.responseBytes <= s.limit)
  }

  predicate PastRegister(w: Worker) {
    w.Writing? || w.Activating? || w.Done?
  }

  predicate ActivatedBy(w: Worker, i: nat) {
    w.Done? || (w.Activating? && i < w.next)
  }

  // The notifier of one subscribe call, which has been taken for execution; it is coupled
  // to the connection before the worker writes, and activated after.
  ghost predicate NotifierOk(s: State, i: nat, n: Subscribed) {
    && InOrder(n.notifier)
    && n.call < |s.batch|
    && n.call < |s.answers| + (if s.worker.Executing? || s.worker.Answering? then 1 else 0)
    && (n.notifier.callReturned <==> PastRegister(s.worker))
    && (n.notifier.activateCalled <==> ActivatedBy(s.worker, i))
  }

  ghost predicate NotifierInv(s: State) {
    && (s.worker.Activating? ==> s.worker.next <= |s.notifiers|)
    && forall i :: 0 <= i < |s.notifiers| ==> NotifierOk(s, i, s.notifiers[i])
  }

  ghost predicate Inv(s: State) {
    WorkInv(s) && ReplyInv(s) && ExitInv(s) && SizeInv(s) && NotifierInv(s)
  }
}
