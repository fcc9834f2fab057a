// How a client subscription ends: for each event that can end the forwarding loop, whether
// the server is asked to unsubscribe and what the subscriber is told.
module SubscriptionEnd {
  import opened Wrappers
  import opened Subscription

  datatype Ending = Ending(asks: bool, err: Option<Error>)

  // The end of the loop brought about by an event. The server still has the subscription
  // unless it is the connection that has been closed.
  function EndingOf(s: State, e: Event): Option<Ending> {
    if s.run != Forwarding then None
    else
      match e
      case SendQuit(_) => Some(Ending(true, None))
      case Quit =>
        if !s.dispatcher.ClosingSub? then None
        else if s.dispatcher.err == Some(ERR_UNSUBSCRIBED) then Some(Ending(true, None))
        else Some(Ending(false, s.dispatcher.err))
      case In =>
        if !s.dispatcher.Delivering? then None
        else (
          match s.decode(s.dispatcher.raw)
          case Err(err) => Some(Ending(true, Some(err)))
          case Ok(_) =>
            if |s.queue.buffer| == MAX_CLIENT_SUBSCRIPTION_BUFFER then Some(Ending(true, Some(ERR_QUEUE_OVERFLOW)))
            else None)
      case _ => None
  }

  // The first event that ends the loop.
  function FirstEnding(events: seq<Event>, states: seq<State>, k: nat): Option<Ending>
    requires k <= |events| && k < |states|
  {
    if k == 0 then None
    else
      var earlier := FirstEnding(events, states, k - 1);
      if earlier.Some? then earlier else EndingOf(states[k - 1], events[k - 1])
  }

  // How often the call to the server has been started.
  function CountAsks(states: seq<State>, k: nat): nat
    requires k < |states|
  {
    if k == 0 then 0
    else
      CountAsks(states, k - 1)
        + if states[k].run.RequestingUnsubscribe? && !states[k - 1].run.RequestingUnsubscribe? then 1 else 0
  }

  // What is sent on sub.err; the end of the client is no error.
  function Told(ending: Ending): seq<ChanEvent<Option<Error>>> {
    match ending.err
    case None => []
    case Some(err) => [Send(if err == ERR_CLIENT_QUIT then None else Some(err))]
  }

  ghost predicate EndInv(s: State, ending: Option<Ending>, asked: nat) {
    && (ending == None <==> s.run == Forwarding)
    && (ending == None ==> asked == 0)
    && (ending.Some? ==>
          && s.exit.Some? && s.exit.value.UnsubscribeServer() == ending.value.asks
          && s.exit.value.Err() == ending.value.err
          && asked == if ending.value.asks && !s.run.ForwardEnded? then 1 else 0)
    && (s.run.RequestingUnsubscribe? ==> ending.value.asks)
  }

  lemma EndStep(s: State, e: Event, ending: Option<Ending>, asked: nat)
    requires Inv(s) && Enabled(s, e) && EndInv(s, ending, asked)
    ensures var t := Apply(s, e);
            EndInv(t, if ending.Some? then ending else EndingOf(s, e),
              asked + if t.run.RequestingUnsubscribe? && !s.run.RequestingUnsubscribe? then 1 else 0)
    ensures ending.Some? ==> EndingOf(s, e) == None
  {
  }

  lemma {:induction false} EndRun(decode: Decoder, events: seq<Event>, states: seq<State>, k: nat)
    requires Runs(decode, events, states) && k < |states|
    ensures EndInv(states[k], FirstEnding(events, states, k), CountAsks(states, k))
  {
    if k > 0 {
      EndRun(decode, events, states, k - 1);
      PathInv(events, states, k - 1);
      assert Enabled(states[k - 1], events[k - 1]) && states[k] == Apply(states[k - 1], events[k - 1]);
      EndStep(states[k - 1], events[k - 1], FirstEnding(events, states, k - 1), CountAsks(states, k - 1));
    }
  }

  // The subscriber has been told, or need not be.
  predicate PastReport(run: Run) {
    run.Closing? || run.Ended?
  }

  // In every run: the loop runs until the first event that ends it. From the time
  // forwardDone is closed, the server has been asked to unsubscribe once if the loop ended
  // by Unsubscribe, by a value that cannot be decoded or by overflow, and never if the
  // dispatcher closed the subscription for another reason. What sub.err gets before it is
  // closed is fixed by the same event.
  lemma EndsAsAsked(decode: Decoder, events: seq<Event>, states: seq<State>, k: nat)
    requires Runs(decode, events, states) && k < |states|
    ensures var s, ending := states[k], FirstEnding(events, states, k);
            && (s.run == Forwarding <==> ending == None)
            && CountAsks(states, k) == (if ending.Some? && ending.value.asks && s.forwardDone > 0 then 1 else 0)
            && s.err == (if PastReport(s.run) then Told(ending.value) else [])
                 + if s.onceDone then [ChanEvent.Close] else []
  {
    EndRun(decode, events, states, k);
    PathInv(events, states, k);
  }

  // No other event ends it, and only the first counts.
  lemma EndsOnce(decode: Decoder, events: seq<Event>, states: seq<State>, i: nat, k: nat)
    requires Runs(decode, events, states) && i < k < |states|
    requires EndingOf(states[i], events[i]).Some?
    ensures FirstEnding(events, states, k) == EndingOf(states[i], events[i])
  {
    EndRun(decode, events, states, k - 1);
    PathInv(events, states, k - 1);
    assert Enabled(states[k - 1], events[k - 1]) && states[k] == Apply(states[k - 1], events[k - 1]);
    EndStep(states[k - 1], events[k - 1], FirstEnding(events, states, k - 1), CountAsks(states, k - 1));
    if i < k - 1 {
      EndsOnce(decode, events, states, i, k - 1);
    } else {
      EndRun(decode, events, states, i);
    }
  }
}
