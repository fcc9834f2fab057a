// A client subscription (rpc/subscription.go, ClientSubscription): the forwarding loop,
// the dispatcher that feeds and closes it, and any number of Unsubscribe callers.
module Subscription {
  import opened Wrappers

  type Val = string

  const MAX_CLIENT_SUBSCRIPTION_BUFFER := 20000
  const ERR_UNSUBSCRIBED: Error := "unsubscribed"
  const ERR_CLIENT_QUIT: Error := "client is closed"
  const ERR_QUEUE_OVERFLOW: Error := "subscription queue overflow"

  // ---------- The forwarding loop ----------

  // What its select can choose; the send case is left out while the buffer is empty.
  datatype Choice = FromQuit(err: Option<Error>) | FromIn(raw: Raw) | ToChannel

  // Why it ends.
  datatype Exit = Unsubscribed | Closed(err: Option<Error>) | BadValue(reason: Error) | Overflow {

    // The results of forward.
    function UnsubscribeServer(): bool {
      !Closed?
    }

    function Err(): Option<Error> {
      match this
      case Unsubscribed => None
      case Closed(err) => err
      case BadValue(reason) => Some(reason)
      case Overflow => Some(ERR_QUEUE_OVERFLOW)
    }
  }

  // accepted is the history of the raw values taken into the buffer, delivered that of the
  // values sent on the subscriber's channel.
  datatype Queue = Queue(accepted: seq<Raw>, buffer: seq<Val>, delivered: seq<Val>)

  type Decoder = Raw -> Result<Val, Error>

  function Selected(q: Queue, c: Choice, decode: Decoder): (Queue, Option<Exit>) {
    match c
    case FromQuit(err) => (q, Some(if err == Some(ERR_UNSUBSCRIBED) then Unsubscribed else Closed(err)))
    case FromIn(raw) =>
      (match decode(raw)
       case Err(err) => (q, Some(BadValue(err)))
       case Ok(val) =>
         if |q.buffer| == MAX_CLIENT_SUBSCRIPTION_BUFFER then (q, Some(Overflow))
         else (q.(accepted := q.accepted + [raw], buffer := q.buffer + [val]), None))
    case ToChannel =>
      (if q.buffer == [] then q
       else q.(buffer := q.buffer[1..], delivered := q.delivered + [q.buffer[0]]), None)
  }

  function Decoded(raws: seq<Raw>, decode: Decoder): seq<Val> {
    if raws == [] then []
    else
      var front, last := Decoded(raws[..|raws| - 1], decode), decode(raws[|raws| - 1]);
      if last.Ok? then front + [last.value] else front
  }

  // Nothing is lost, doubled or reordered between the dispatcher and the subscriber.
  ghost predicate Faithful(q: Queue, decode: Decoder) {
    && q.delivered + q.buffer == Decoded(q.accepted, decode)
    && |q.buffer| <= MAX_CLIENT_SUBSCRIPTION_BUFFER
  }

  lemma SelectedFaithful(q: Queue, c: Choice, decode: Decoder)
    requires Faithful(q, decode)
    ensures Faithful(Selected(q, c, decode).0, decode)
  {
    var t := Selected(q, c, decode).0;
    if c.FromIn? && t != q {
      assert t.accepted[..|t.accepted| - 1] == q.accepted;
      assert t.delivered + t.buffer == q.delivered + q.buffer + [t.buffer[|t.buffer| - 1]];
    } else if c.ToChannel? && q.buffer != [] {
      assert q.buffer == [q.buffer[0]] + q.buffer[1..];
      assert t.delivered + t.buffer == q.delivered + q.buffer;
    }
  }

  function QueueAfter(choices: seq<Choice>, decode: Decoder): Queue {
    if choices == [] then Queue([], [], [])
    else Selected(QueueAfter(choices[..|choices| - 1], decode), choices[|choices| - 1], decode).0
  }

  // forward, on a given sequence of choices: it stops at the first that ends the loop,
  // which used is the number of choices before.
  method Forward(choices: seq<Choice>, decode: Decoder)
    returns (exit: Option<Exit>, q: Queue, ghost used: nat)
    ensures Faithful(q, decode)
    ensures used <= |choices| && q == QueueAfter(choices[..used], decode)
    ensures exit == None <==> used == |choices|
    ensures exit.Some? ==> exit == Selected(q, choices[used], decode).1
    ensures exit == Some(Overflow) ==>
              && |q.buffer| == MAX_CLIENT_SUBSCRIPTION_BUFFER
              && choices[used].FromIn? && decode(choices[used].raw).Ok?
  {
    q := Queue([], [], []);
    for k := 0 to |choices|
      invariant Faithful(q, decode) && q == QueueAfter(choices[..k], decode)
    {
      SelectedFaithful(q, choices[k], decode);
      assert choices[..k + 1][..k] == choices[..k];
      match choices[k] {
        case FromQuit(err) =>
          if err == Some(ERR_UNSUBSCRIBED) {
            return Some(Unsubscribed), q, k;
          }
          return Some(Closed(err)), q, k;
        case FromIn(raw) =>
          var val := decode(raw);
          if val.Err? {
            return Some(BadValue(val.error)), q, k;
          }
          if |q.buffer| == MAX_CLIENT_SUBSCRIPTION_BUFFER {
            return Some(Overflow), q, k;
          }
          q := q.(accepted := q.accepted + [raw], buffer := q.buffer + [val.value]);
        case ToChannel =>
          if |q.buffer| > 0 {
            q := q.(buffer := q.buffer[1..], delivered := q.delivered + [q.buffer[0]]);
          }
      }
    }
    assert choices[..|choices|] == choices;
    return None, q, |choices|;
  }

  // ---------- The protocol ----------

  datatype Run =
    | Forwarding
    | ForwardEnded(exit: Exit)              // about to close forwardDone
    | RequestingUnsubscribe(exit: Exit)     // the call to the server
    | Reporting(err: Error)                 // about to send on sub.err
    | Closing                               // about to close unsubDone
    | Ended

  datatype Dispatcher = Idle | Delivering(raw: Raw) | ClosingSub(err: Option<Error>)

  // A caller of Unsubscribe; the first to enter the sync.Once goes on, the others wait for
  // it to finish.
  datatype Caller = Blocked | Selecting | AwaitingUnsubDone | ClosingErr | Returned

  datatype State = State(
    run: Run, queue: Queue, dispatcher: Dispatcher, callers: map<nat, Caller>, owner: Option<nat>,
    onceDone: bool, forwardDone: nat, unsubDone: nat,   // the number of closes of each channel
    err: seq<ChanEvent<Option<Error>>>, exit: Option<Exit>, decode: Decoder)

  datatype Event =
    | Deliver(raw: Raw) | Close(err: Option<Error>)        // the dispatcher calls
    | In | Quit | Out                                      // rendezvous with forward
    | DeliverFails | CloseSkipped                          // the dispatcher sees forwardDone
    | CloseForwardDone | UnsubscribeReturns | Report | CloseUnsubDone   // run after forward
    | Unsubscribe(c: nat) | Unblock(c: nat)
    | SendQuit(c: nat) | SkipQuit(c: nat) | UnsubDone(c: nat) | CloseErr(c: nat)

  predicate CallerAt(s: State, c: nat, at: Caller) {
    c in s.callers && s.callers[c] == at
  }

  predicate Enabled(s: State, e: Event) {
    match e
    case Deliver(_) => s.dispatcher == Idle
    case Close(_) => s.dispatcher == Idle
    case In => s.run == Forwarding && s.dispatcher.Delivering?
    case Quit => s.run == Forwarding && s.dispatcher.ClosingSub?
    case Out => s.run == Forwarding && s.queue.buffer != []
    case DeliverFails => s.dispatcher.Delivering? && s.forwardDone > 0
    case CloseSkipped => s.dispatcher.ClosingSub? && s.forwardDone > 0
    case CloseForwardDone => s.run.ForwardEnded?
    case UnsubscribeReturns => s.run.RequestingUnsubscribe?
    case Report => s.run.Reporting?
    case CloseUnsubDone => s.run == Closing
    case Unsubscribe(c) => c !in s.callers
    case Unblock(c) => CallerAt(s, c, Blocked) && s.onceDone
    case SendQuit(c) => CallerAt(s, c, Selecting) && s.run == Forwarding
    case SkipQuit(c) => CallerAt(s, c, Selecting) && s.unsubDone > 0
    case UnsubDone(c) => CallerAt(s, c, AwaitingUnsubDone) && s.unsubDone > 0
    case CloseErr(c) => CallerAt(s, c, ClosingErr)
  }

  // The loop takes a choice.
  function Choose(s: State, c: Choice): State {
    var (q, exit) := Selected(s.queue, c, s.decode);
    s.(queue := q, exit := exit, run := if exit.Some? then ForwardEnded(exit.value) else Forwarding)
  }

  function AfterUnsubscribe(exit: Exit): Run {
    if exit.Err().Some? then Reporting(exit.Err().value) else Closing
  }

  function MoveCaller(s: State, c: nat, to: Caller): State {
    s.(callers := s.callers[c := to])
  }

  function Apply(s: State, e: Event): State
    requires Enabled(s, e)
  {
    match e
    case Deliver(raw) => s.(dispatcher := Delivering(raw))
    case Close(err) => s.(dispatcher := ClosingSub(err))
    case In => Choose(s, FromIn(s.dispatcher.raw)).(dispatcher := Idle)
    case Quit => Choose(s, FromQuit(s.dispatcher.err)).(dispatcher := Idle)
    case Out => Choose(s, ToChannel)
    case DeliverFails => s.(dispatcher := Idle)
    case CloseSkipped => s.(dispatcher := Idle)
    case CloseForwardDone =>
      s.(forwardDone := s.forwardDone + 1,
         run := if s.run.exit.UnsubscribeServer() then RequestingUnsubscribe(s.run.exit)
                else AfterUnsubscribe(s.run.exit))
    case UnsubscribeReturns => s.(run := AfterUnsubscribe(s.run.exit))
    case Report =>
      s.(err := s.err + [Send(if s.run.err == ERR_CLIENT_QUIT then None else Some(s.run.err))], run := Closing)
    case CloseUnsubDone => s.(unsubDone := s.unsubDone + 1, run := Ended)
    case Unsubscribe(c) =>
      if s.onceDone then MoveCaller(s, c, Returned)
      else if s.owner == None then MoveCaller(s, c, Selecting).(owner := Some(c))
      else MoveCaller(s, c, Blocked)
    case Unblock(c) => MoveCaller(s, c, Returned)
    case SendQuit(c) => MoveCaller(Choose(s, FromQuit(Some(ERR_UNSUBSCRIBED))), c, AwaitingUnsubDone)
    case SkipQuit(c) => MoveCaller(s, c, ClosingErr)
    case UnsubDone(c) => MoveCaller(s, c, ClosingErr)
    case CloseErr(c) => MoveCaller(s, c, Returned).(err := s.err + [ChanEvent.Close], onceDone := true)
  }

  // run has just been launched.
  function Initial(decode: Decoder): State {
    State(Forwarding, Queue([], [], []), Idle, map[], None, false, 0, 0, [], None, decode)
  }

  ghost predicate Path(events: seq<Event>, states: seq<State>) {
    && |states| == |events| + 1
    && forall i :: 0 <= i < |events| ==> Enabled(states[i], events[i]) && states[i + 1] == Apply(states[i], events[i])
  }

  lemma PathTail(events: seq<Event>, states: seq<State>)
    requires Path(events, states) && events != []
    ensures Enabled(states[0], events[0]) && states[1] == Apply(states[0], events[0])
    ensures Path(events[1..], states[1..])
  {
    forall i | 0 <= i < |events[1..]|
      ensures Enabled(states[1..][i], events[1..][i]) && states[1..][i + 1] == Apply(states[1..][i], events[1..][i])
    {
      assert Enabled(states[i + 1], events[i + 1]) && states[i + 2] == Apply(states[i + 1], events[i + 1]);
    }
  }

  ghost predicate Runs(decode: Decoder, events: seq<Event>, states: seq<State>) {
    Path(events, states) && states[0] == Initial(decode)
  }

  // ---------- The invariant ----------

  // What reaches sub.err for each way the loop can end. The error of a closed client is
  // reported as nil.
  function Reported(exit: Option<Exit>): seq<ChanEvent<Option<Error>>> {
    if exit == None || exit.value.Err() == None then []
    else
      var err := exit.value.Err().value;
      [Send(if err == ERR_CLIENT_QUIT then None else Some(err))]
  }

  ghost predicate RunInv(s: State) {
    && s.forwardDone == (if s.run == Forwarding || s.run.ForwardEnded? then 0 else 1)
    && s.unsubDone == (if s.run == Ended then 1 else 0)
    && (s.run == Forwarding <==> s.exit == None)
    && (s.run.ForwardEnded? || s.run.RequestingUnsubscribe? ==> s.exit == Some(s.run.exit))
    && (s.run.Reporting? ==> s.exit.value.Err() == Some(s.run.err))
  }

  ghost predicate ErrInv(s: State) {
    if s.onceDone then s.run == Ended && s.err == Reported(s.exit) + [ChanEvent.Close]
    else if s.run == Closing || s.run == Ended then s.err == Reported(s.exit)
    else s.err == []
  }

  ghost predicate CallerInv(s: State) {
    && (forall c :: c in s.callers && !s.callers[c].Blocked? && !s.callers[c].Returned? ==>
          s.owner == Some(c) && !s.onceDone)
    && (forall c :: c in s.callers && s.callers[c] == Returned ==> s.onceDone)
    && (forall c :: c in s.callers && s.callers[c] == ClosingErr ==> s.run == Ended)
    && (s.onceDone ==> s.run == Ended)
    && (s.owner.Some? ==> s.owner.value in s.callers && !s.callers[s.owner.value].Blocked?)
    && (forall c :: c in s.callers && s.callers[c] == Blocked ==> s.owner.Some?)
    && (forall c :: c in s.callers && s.callers[c] == AwaitingUnsubDone ==> s.run != Forwarding)
  }

  ghost predicate Inv(s: State) {
    RunInv(s) && ErrInv(s) && CallerInv(s) && Faithful(s.queue, s.decode)
  }

  lemma StepKeepsRun(s: State, e: Event)
    requires Inv(s) && Enabled(s, e)
    ensures RunInv(Apply(s, e)) && ErrInv(Apply(s, e))
  {
  }

  lemma StepKeepsCallers(s: State, e: Event)
    requires Inv(s) && Enabled(s, e)
    ensures CallerInv(Apply(s, e))
  {
  }

  lemma StepKeepsQueue(s: State, e: Event)
    requires Inv(s) && Enabled(s, e)
    ensures Faithful(Apply(s, e).queue, Apply(s, e).decode) && Apply(s, e).decode == s.decode
  {
    match e
    case In => SelectedFaithful(s.queue, FromIn(s.dispatcher.raw), s.decode);
    case Out => SelectedFaithful(s.queue, ToChannel, s.decode);
    case _ =>
  }

  lemma StepKeepsInv(s: State, e: Event)
    requires Inv(s) && Enabled(s, e)
    ensures Inv(Apply(s, e)) && Apply(s, e).decode == s.decode
  {
    StepKeepsRun(s, e);
    StepKeepsCallers(s, e);
    StepKeepsQueue(s, e);
  }

  lemma {:induction false} PathInv(events: seq<Event>, states: seq<State>, k: nat)
    requires Path(events, states) && Inv(states[0]) && k < |states|
    ensures Inv(states[k]) && states[k].decode == states[0].decode
  {
    if k > 0 {
      PathInv(events, states, k - 1);
      assert Enabled(states[k - 1], events[k - 1]) && states[k] == Apply(states[k - 1], events[k - 1]);
      StepKeepsInv(states[k - 1], events[k - 1]);
    }
  }

  // ---------- The promises, over all interleavings ----------

  // sub.err gets at most one value, is closed at most once and never used after that; its
  // contents are determined by the way the loop ended. The two signals are closed at most
  // once, and values are neither lost nor reordered.
  lemma Channels(decode: Decoder, events: seq<Event>, states: seq<State>, k: nat)
    requires Runs(decode, events, states) && k < |states|
    ensures var s := states[k];
            && AtMostOneSendThenClose(s.err)
            && (s.onceDone ==> s.err == Reported(s.exit) + [ChanEvent.Close])
            && (s.run == Ended && !s.onceDone ==> s.err == Reported(s.exit))
            && s.forwardDone <= 1 && s.unsubDone <= 1
            && Faithful(s.queue, decode)
  {
    PathInv(events, states, k);
  }

  // Overflow is reported only when a good value meets a full buffer, and always then.
  lemma OverflowExactly(s: State, e: Event)
    requires Inv(s) && Enabled(s, e) && s.exit == None
    ensures Apply(s, e).exit == Some(Overflow) <==>
            && e == In && s.decode(s.dispatcher.raw).Ok?
            && |s.queue.buffer| == MAX_CLIENT_SUBSCRIPTION_BUFFER
  {
  }

  // Once any Unsubscribe has returned, no further value reaches the subscriber.
  lemma {:induction false} SilentAfterUnsubscribe(events: seq<Event>, states: seq<State>, c: nat)
    requires Path(events, states) && Inv(states[0]) && CallerAt(states[0], c, Returned)
    ensures states[|events|].queue.delivered == states[0].queue.delivered
    ensures states[|events|].err == states[0].err && ChanEvent.Close in states[0].err
  {
    if events != [] {
      assert Enabled(states[0], events[0]) && states[1] == Apply(states[0], events[0]);
      StepKeepsInv(states[0], events[0]);
      PathTail(events, states);
      SilentAfterUnsubscribe(events[1..], states[1..], c);
    } else {
      assert states[0].err[|states[0].err| - 1] == ChanEvent.Close;
    }
  }

  // The dispatcher is never stuck in deliver or close: forward takes what it offers, or
  // has ended and is about to close forwardDone, or has done so.
  lemma DispatcherNeverStuck(s: State)
    requires Inv(s) && s.dispatcher != Idle
    ensures || Enabled(s, In) || Enabled(s, Quit) || Enabled(s, DeliverFails) || Enabled(s, CloseSkipped)
            || (Enabled(s, CloseForwardDone) && s.dispatcher.Delivering?
                && Enabled(Apply(s, CloseForwardDone), DeliverFails))
            || (Enabled(s, CloseForwardDone) && s.dispatcher.ClosingSub?
                && Enabled(Apply(s, CloseForwardDone), CloseSkipped))
  {
  }

  // A caller of Unsubscribe has a step, or waits for the owner of the sync.Once, or for
  // run, which then has a step or is in its call to the server.
  lemma UnsubscribeNeverStuck(s: State, c: nat)
    requires Inv(s) && c in s.callers && s.callers[c] != Returned
    ensures || Enabled(s, SendQuit(c)) || Enabled(s, SkipQuit(c)) || Enabled(s, UnsubDone(c)) || Enabled(s, CloseErr(c))
            || Enabled(s, Unblock(c))
            || (s.callers[c] == Blocked && s.owner.Some? && s.owner.value in s.callers
                && s.callers[s.owner.value] != Blocked && s.callers[s.owner.value] != Returned)
            || Enabled(s, CloseForwardDone) || Enabled(s, Report) || Enabled(s, CloseUnsubDone)
            || s.run.RequestingUnsubscribe?
  {
  }

  // The call has no deadline. As long as it does not return, neither does any Unsubscribe,
  // whatever else happens.
  lemma {:induction false} UnsubscribeWaitsForServer(events: seq<Event>, states: seq<State>)
    requires Path(events, states) && Inv(states[0]) && states[0].run.RequestingUnsubscribe?
    requires UnsubscribeReturns !in events
    ensures var s := states[|events|];
            && s.run.RequestingUnsubscribe? && s.err == []
            && (forall c :: c in s.callers ==> s.callers[c] != Returned)
  {
    if events != [] {
      assert Enabled(states[0], events[0]) && states[1] == Apply(states[0], events[0]);
      StepKeepsInv(states[0], events[0]);
      assert events[0] in events;
      PathTail(events, states);
      UnsubscribeWaitsForServer(events[1..], states[1..]);
    }
  }
}
