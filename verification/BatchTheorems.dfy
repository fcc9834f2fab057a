// What a client sees of a served batch, over all interleavings of the worker and the
// timer; where a promise fails, the run on which it does and the exact condition.
module BatchTheorems {
  import opened Wrappers
  import opened Messages
  import opened BatchBuffer
  import opened Notifiers
  import opened BatchRun
  import opened BatchSafety

  // What has been written to the connection; an empty reply is not written at all.
  function Sent(s: State): seq<Message> {
    if s.buffer.wire == [] then [] else s.buffer.wire[0].content
  }

  // The messages a reply covers: all of them if the rest was answered by an error.
  function CoveredBy(s: State, r: Reply): seq<Message>
    requires r.answered <= |s.batch|
  {
    if r.error.Some? then s.batch else s.batch[..r.answered]
  }

  lemma SentIsContent(s: State)
    requires ReplyInv(s) && s.reply.Some?
    ensures s.reply.value.answered <= |s.answers| <= |s.batch| && Sent(s) == Content(s, s.reply.value)
  {
  }

  lemma AnswersToPrefix(answers: seq<Option<Message>>, ms: seq<Message>, k: nat)
    requires k <= |answers| <= |ms| && AnswersTo(answers, ms[..|answers|])
    ensures AnswersInOrder(ms[..k], Collected(answers[..k]))
  {
    forall i | 0 <= i < k ensures AnswerTo(answers[..k][i], ms[..k][i]) {
      assert AnswerTo(answers[i], ms[..|answers|][i]);
    }
    ExecutedAnswers(answers[..k], ms[..k]);
  }

  lemma ContentAnswers(s: State, r: Reply)
    requires WorkInv(s) && r.answered <= |s.answers|
    ensures AnswersInOrder(CoveredBy(s, r), Content(s, r))
  {
    var k, collected := r.answered, Collected(s.answers[..r.answered]);
    AnswersToPrefix(s.answers, s.batch, k);
    if r.error.Some? {
      CutShortAnswers(s.batch[..k], s.batch[k..], collected, r.error.value);
      assert s.batch[..k] + s.batch[k..] == s.batch;
    } else {
      assert collected + [] == collected;
    }
  }

  // The batch is written at most once, and what is written is, in call order, one answer
  // per message covered that is not a notification.
  lemma BatchReply(s: State)
    requires Inv(s)
    ensures |s.buffer.wire| <= 1
    ensures s.reply == None ==> s.buffer.wire == []
    ensures s.reply.Some? ==>
              s.reply.value.answered <= |s.batch| && AnswersInOrder(CoveredBy(s, s.reply.value), Sent(s))
  {
    if s.reply.Some? {
      SentIsContent(s);
      ContentAnswers(s, s.reply.value);
    }
  }

  lemma {:induction false} CountConcat(a: seq<Message>, b: seq<Message>)
    ensures CountCalls(a + b) == CountCalls(a) + CountCalls(b)
  {
    if b == [] {
      assert a + b == a;
    } else {
      CountConcat(a, b[..|b| - 1]);
      assert (a + b)[..|a + b| - 1] == a + b[..|b| - 1];
    }
  }

  lemma {:induction false} NoErrors(ms: seq<Message>, err: JsonError)
    requires CountCalls(ms) == 0
    ensures ErrorsFor(ms, err) == []
  {
    if ms != [] {
      NoErrors(ms[..|ms| - 1], err);
    }
  }

  // Every message of the batch that expects an answer gets one if and only if an error
  // answered the rest or nothing but notifications was left.
  lemma AnswersAll(s: State)
    requires Inv(s) && s.reply.Some?
    ensures var r := s.reply.value;
            && r.answered <= |s.batch|
            && (AnswersInOrder(s.batch, Sent(s)) <==> r.error.Some? || CountCalls(s.batch[r.answered..]) == 0)
  {
    BatchReply(s);
    var r := s.reply.value;
    if r.error == None {
      PartlyAnswered(s.batch, r.answered, Sent(s));
    }
  }

  // Answers to the first k messages answer all exactly if the others expect none.
  lemma PartlyAnswered(ms: seq<Message>, k: nat, rs: seq<Message>)
    requires k <= |ms| && AnswersInOrder(ms[..k], rs)
    ensures AnswersInOrder(ms, rs) <==> CountCalls(ms[k..]) == 0
  {
    var done, rest := ms[..k], ms[k..];
    assert done + rest == ms;
    AnswersCount(done, rs);
    CountConcat(done, rest);
    if AnswersInOrder(ms, rs) {
      AnswersCount(ms, rs);
    }
    if CountCalls(rest) == 0 {
      CutShortAnswers(done, rest, rs, TIMEOUT_ERROR);
      NoErrors(rest, TIMEOUT_ERROR);
      assert rs + [] == rs;
    }
  }

  // The limit on the response size: all executed calls but the last fit it together.
  ghost predicate WithinLimit(s: State) {
    s.limit != 0 && s.answers != [] ==> Bytes(s.answers[..|s.answers| - 1]) <= s.limit
  }

  // All of this over every run: whatever the calls return, and however the worker, the
  // timer and the end of the context interleave.
  lemma BatchServed(
    batch: seq<Message>, limit: nat, hasTimeout: bool, events: seq<Event>, states: seq<State>, k: nat)
    requires Run(batch, limit, hasTimeout, events, states) && k < |states|
    ensures var s := states[k];
            && |s.buffer.wire| <= 1
            && (s.reply == None ==> s.buffer.wire == [])
            && (s.reply.Some? ==>
                  && s.reply.value.answered <= |batch| && s.batch == batch
                  && AnswersInOrder(CoveredBy(s, s.reply.value), Sent(s))
                  && (AnswersInOrder(batch, Sent(s)) <==>
                      s.reply.value.error.Some? || CountCalls(batch[s.reply.value.answered..]) == 0))
    ensures states[k].limit == limit && WithinLimit(states[k])
  {
    RunInv(batch, limit, hasTimeout, events, states, k);
    BatchReply(states[k]);
    if states[k].reply.Some? {
      AnswersAll(states[k]);
    }
  }

  // ---------- Why a batch is not fully answered ----------

  ghost predicate ReplyMadeAt(states: seq<State>, i: nat, reply: Option<Reply>)
    requires i + 1 < |states|
  {
    states[i].reply == None && states[i + 1].reply == reply
  }

  lemma ReplyIsFinal(s: State, e: Event, t: State)
    requires NextState(s, e, t) && ReplyInv(s) && s.reply.Some?
    ensures t.reply == s.reply && t.buffer.wire == s.buffer.wire
  {
  }

  lemma {:induction false} ReplyMade(
    batch: seq<Message>, limit: nat, hasTimeout: bool, events: seq<Event>, states: seq<State>, k: nat)
    requires Run(batch, limit, hasTimeout, events, states) && k < |states| && states[k].reply.Some?
    ensures exists i :: 0 <= i < k && ReplyMadeAt(states, i, states[k].reply)
  {
    if k > 0 {
      RunInv(batch, limit, hasTimeout, events, states, k - 1);
      assert NextState(states[k - 1], events[k - 1], states[k]);
      if states[k - 1].reply.Some? {
        ReplyIsFinal(states[k - 1], events[k - 1], states[k]);
        ReplyMade(batch, limit, hasTimeout, events, states, k - 1);
      } else {
        assert ReplyMadeAt(states, k - 1, states[k].reply);
      }
    }
  }

  lemma {:induction false} ReplyStays(
    batch: seq<Message>, limit: nat, hasTimeout: bool, events: seq<Event>, states: seq<State>, i: nat, k: nat)
    requires Run(batch, limit, hasTimeout, events, states) && i <= k < |states| && states[i].reply.Some?
    ensures states[k].reply == states[i].reply && states[k].buffer.wire == states[i].buffer.wire
    decreases k
  {
    if i < k {
      ReplyStays(batch, limit, hasTimeout, events, states, i, k - 1);
      RunInv(batch, limit, hasTimeout, events, states, k - 1);
      ReplyIsFinal(states[k - 1], events[k - 1], states[k]);
    }
  }

  // The worker makes its own write on a cancelled context, with calls left that expect an
  // answer.
  ghost predicate CancelledWrite(e: Event, s: State) {
    e == WriteBatch && s.reply == None && s.cancelled && CountCalls(s.buffer.calls) > 0
  }

  lemma UnansweredStep(s: State, e: Event, t: State)
    requires Inv(s) && Inv(t) && NextState(s, e, t) && s.reply == None && t.reply.Some?
    ensures AnswersInOrder(t.batch, Sent(t)) <==> !CancelledWrite(e, s)
  {
    SameBatch(s, e, t);
    AnswersAll(t);
    assert t.reply.value.error == None ==> e == WriteBatch && t.buffer.calls == s.buffer.calls;
  }

  // A batch is left without some answer if and only if the worker had left the loop on a
  // cancelled context, and its own write came before any error.
  lemma FullyAnswered(
    batch: seq<Message>, limit: nat, hasTimeout: bool, events: seq<Event>, states: seq<State>, k: nat)
    requires Run(batch, limit, hasTimeout, events, states) && k < |states| && states[k].reply.Some?
    ensures AnswersInOrder(batch, Sent(states[k])) <==> !exists i :: 0 <= i < k && CancelledWrite(events[i], states[i])
  {
    ReplyMade(batch, limit, hasTimeout, events, states, k);
    var i :| 0 <= i < k && ReplyMadeAt(states, i, states[k].reply);
    RunInv(batch, limit, hasTimeout, events, states, i);
    RunInv(batch, limit, hasTimeout, events, states, i + 1);
    UnansweredStep(states[i], events[i], states[i + 1]);
    ReplyStays(batch, limit, hasTimeout, events, states, i + 1, k);
    forall j | 0 <= j < k && CancelledWrite(events[j], states[j]) ensures j == i {
      if i + 1 <= j {
        ReplyStays(batch, limit, hasTimeout, events, states, i + 1, j);
      } else if j < i {
        assert NextState(states[j], events[j], states[j + 1]);
        RunInv(batch, limit, hasTimeout, events, states, j);
        ReplyStays(batch, limit, hasTimeout, events, states, j + 1, i);
      }
    }
  }

  // ---------- A batch that is neither timed out nor cancelled ----------

  predicate Disturbs(e: Event) {
    e.Fire? || e.Cancel?
  }

  // Only the worker makes the reply: once all calls are executed, or as soon as the
  // results exceed the limit.
  ghost predicate QuietInv(s: State) {
    && s.timer != Fired && s.timer != Finished
    && (s.cancelled ==> s.worker.Done?)
    && (s.reply.Some? ==> !InLoop(s.worker))
    && (s.reply.Some? ==>
          if s.reply.value.error == None then s.buffer.calls == []
          else s.reply.value == Reply(|s.answers|, Some(TOO_LARGE_ERROR)) && s.limit != 0 && Bytes(s.answers) > s.limit)
  }

  lemma QuietStep(s: State, e: Event, t: State)
    requires Inv(s) && Inv(t) && QuietInv(s) && NextState(s, e, t) && !Disturbs(e)
    ensures QuietInv(t)
  {
  }

  lemma {:induction false} QuietRun(
    batch: seq<Message>, limit: nat, hasTimeout: bool, events: seq<Event>, states: seq<State>, k: nat)
    requires Run(batch, limit, hasTimeout, events, states) && k < |states|
    requires forall i :: 0 <= i < k ==> !Disturbs(events[i])
    ensures QuietInv(states[k])
  {
    if k > 0 {
      QuietRun(batch, limit, hasTimeout, events, states, k - 1);
      RunInv(batch, limit, hasTimeout, events, states, k - 1);
      RunInv(batch, limit, hasTimeout, events, states, k);
      QuietStep(states[k - 1], events[k - 1], states[k]);
    }
  }

  lemma QuietReply(s: State)
    requires Inv(s) && QuietInv(s) && s.reply.Some?
    ensures |s.answers| <= |s.batch|
    ensures Sent(s) == Collected(s.answers)
              + if s.limit != 0 && Bytes(s.answers) > s.limit then ErrorsFor(s.batch[|s.answers|..], TOO_LARGE_ERROR) else []
    ensures s.limit == 0 || Bytes(s.answers) <= s.limit ==> |s.answers| == |s.batch|
    ensures AnswersInOrder(s.batch, Sent(s))
  {
    SentIsContent(s);
    AnswersAll(s);
    assert s.answers[..|s.answers|] == s.answers;
    if s.reply.value.error == None {
      assert s.buffer.calls == s.batch[|s.answers|..] == [];
    }
  }

  // What is written when neither a timeout nor a cancellation interferes. If the results
  // exceed the limit, the calls executed up to that point are answered as they were, and
  // every later message that is not a notification with the error, in its place; otherwise
  // all calls are executed and answered. Either way the batch is fully answered.
  lemma ResponseLimit(
    batch: seq<Message>, limit: nat, hasTimeout: bool, events: seq<Event>, states: seq<State>, k: nat)
    requires Run(batch, limit, hasTimeout, events, states) && k < |states|
    requires forall i :: 0 <= i < k ==> !Disturbs(events[i])
    requires states[k].worker.Activating? || states[k].worker.Done?
    ensures var s := states[k];
            && |s.answers| <= |batch| && AnswersTo(s.answers, batch[..|s.answers|])
            && Sent(s) == Collected(s.answers)
                 + (if limit != 0 && Bytes(s.answers) > limit then ErrorsFor(batch[|s.answers|..], TOO_LARGE_ERROR) else [])
            && (limit == 0 || Bytes(s.answers) <= limit ==> |s.answers| == |batch|)
            && WithinLimit(s)
            && AnswersInOrder(batch, Sent(s))
  {
    RunInv(batch, limit, hasTimeout, events, states, k);
    QuietRun(batch, limit, hasTimeout, events, states, k);
    QuietReply(states[k]);
  }

  // ---------- Notifications ----------

  lemma NotifierBehaves(s: State, i: nat)
    requires Inv(s) && i < |s.notifiers|
    ensures var n := s.notifiers[i].notifier;
            n.attempted <= n.notified && (n.activated ==> n.attempted == n.notified)
    ensures s.notifiers[i].call < |s.batch|
    ensures s.notifiers[i].notifier.attempted != [] && !s.batch[s.notifiers[i].call].IsNotification() ==>
              exists r :: r in Sent(s) && Answers(r, s.batch[s.notifiers[i].call])
  {
    var n := s.notifiers[i];
    assert NotifierOk(s, i, n);
    if n.notifier.attempted != [] && !s.batch[n.call].IsNotification() {
      BatchReply(s);
      var r := s.reply.value;
      assert CoveredBy(s, r)[n.call] == s.batch[n.call];
      AnswerPresent(CoveredBy(s, r), Sent(s), n.call);
    }
  }

  // In every run, the writes of a notifier are a prefix of the data passed to Notify, all
  // of it once it is activated; and there is none before a response to the subscribe call
  // that created it has been written, if that call expects one.
  lemma NotificationsFollowResponse(
    batch: seq<Message>, limit: nat, hasTimeout: bool, events: seq<Event>, states: seq<State>, k: nat, i: nat)
    requires Run(batch, limit, hasTimeout, events, states) && k < |states| && i < |states[k].notifiers|
    ensures var n := states[k].notifiers[i].notifier;
            n.attempted <= n.notified && (n.activated ==> n.attempted == n.notified)
    ensures var call := states[k].notifiers[i].call;
            && call < |batch|
            && (states[k].notifiers[i].notifier.attempted != [] && !batch[call].IsNotification() ==>
                  exists r :: r in Sent(states[k]) && Answers(r, batch[call]))
  {
    RunInv(batch, limit, hasTimeout, events, states, k);
    NotifierBehaves(states[k], i);
  }

  // The subscriptions the batch has made are registered.
  ghost predicate AllRegistered(s: State) {
    forall i :: 0 <= i < |s.notifiers| && s.notifiers[i].notifier.sub.Some? ==> s.notifiers[i].notifier.callReturned
  }

  // In every run, when the reply is made, the subscriptions made by the batch are
  // registered if and only if the worker has got as far as its own write, whoever makes
  // the reply, or there are none.
  lemma RegisteredAtReply(
    batch: seq<Message>, limit: nat, hasTimeout: bool, events: seq<Event>, states: seq<State>, k: nat)
    requires Run(batch, limit, hasTimeout, events, states) && k < |events|
    requires states[k].reply == None && states[k + 1].reply.Some?
    ensures var s := states[k];
            AllRegistered(s) <==>
            s.worker == Writing || forall i :: 0 <= i < |s.notifiers| ==> s.notifiers[i].notifier.sub == None
  {
    RunInv(batch, limit, hasTimeout, events, states, k);
    assert NextState(states[k], events[k], states[k + 1]);
    CoupledAtWriting(states[k], events[k], states[k + 1]);
  }

  lemma CoupledAtWriting(s: State, e: Event, t: State)
    requires Inv(s) && NextState(s, e, t) && s.reply == None && t.reply.Some?
    ensures forall i :: 0 <= i < |s.notifiers| ==> (s.notifiers[i].notifier.callReturned <==> s.worker == Writing)
  {
    assert forall i :: 0 <= i < |s.notifiers| ==> NotifierOk(s, i, s.notifiers[i]);
  }

  // ---------- Two runs ----------

  function SubscribeCall(): Message {
    Message(VSN, Some("1"), "eth_subscribe", Some("[\"newHeads\"]"), None, None)
  }

  ghost predicate Path(events: seq<Event>, states: seq<State>) {
    && |states| == |events| + 1
    && forall i :: 0 <= i < |events| ==> NextState(states[i], events[i], states[i + 1])
  }

  lemma PathJoin(d: seq<Event>, s: seq<State>, e: seq<Event>, t: seq<State>)
    requires Path(d, s) && Path(e, t) && s[|d|] == t[0]
    ensures Path(d + e, s + t[1..])
  {
    var all := s + t[1..];
    forall i | 0 <= i < |d + e| ensures NextState(all[i], (d + e)[i], all[i + 1]) {
      if i < |d| {
        assert NextState(s[i], d[i], s[i + 1]);
      } else {
        assert NextState(t[i - |d|], e[i - |d|], t[i - |d| + 1]);
      }
    }
  }

  // The call is being executed and has made its subscription.
  function SubscribedIn(limit: nat): State {
    State([SubscribeCall()], Buffer([SubscribeCall()], [], false, []), Executing(SubscribeCall()), NoTimer,
          false, limit, 0, [], None, [Subscribed(0, NEW_NOTIFIER.(sub := Some("0x1")))])
  }

  lemma Subscribe(limit: nat) returns (states: seq<State>)
    ensures Path([Check, Next, Install, Create(0, "0x1")], states)
    ensures states[0] == Initial([SubscribeCall()], limit, false) && states[4] == SubscribedIn(limit)
  {
    assert SubscribeCall().methodName[3..] == SUBSCRIBE_SUFFIX;
    var s := Initial([SubscribeCall()], limit, false);
    var t := Apply(s, Check).value;
    var u := Apply(t, Next).value;
    var v := Apply(u, Install).value;
    var w := Apply(v, Create(0, "0x1")).value;
    states := [s, t, u, v, w];
  }

  const SUBSCRIBED: Message := Response(SubscribeCall(), Ok("\"0x1\""))

  lemma AnswerCutShort(s: State) returns (states: seq<State>)
    requires s == SubscribedIn(1)
    ensures Path([Return(Ok("\"0x1\"")), Push, Count, CutShort], states) && states[0] == s
    ensures Sent(states[4]) == [SUBSCRIBED] && states[4].notifiers == s.notifiers
  {
    var t := Apply(s, Return(Ok("\"0x1\""))).value;
    assert t.worker == Answering(Some(SUBSCRIBED));
    var u := Apply(t, Push).value;
    assert u.buffer == Buffer([], [SUBSCRIBED], false, []);
    var v := Apply(u, Count).value;
    var w := Apply(v, CutShort).value;
    assert v.buffer.resp + ErrorsFor(v.buffer.calls, TOO_LARGE_ERROR) == [SUBSCRIBED];
    states := [s, t, u, v, w];
  }

  // The answer of a subscribe call can be written before its subscription is registered:
  // here it exceeds the response limit, which makes respondWithError write it while
  // addSubscriptions is still to come.
  lemma AnsweredBeforeRegistered() returns (events: seq<Event>, states: seq<State>)
    ensures Run([SubscribeCall()], 1, false, events, states)
    ensures var s := states[|events|];
            && Sent(s) == [SUBSCRIBED]
            && |s.notifiers| == 1 && s.notifiers[0].notifier.sub == Some("0x1")
            && !s.notifiers[0].notifier.callReturned
  {
    var a := Subscribe(1);
    var b := AnswerCutShort(a[4]);
    var d, e := [Check, Next, Install, Create(0, "0x1")], [Return(Ok("\"0x1\"")), Push, Count, CutShort];
    PathJoin(d, a, e, b);
    events, states := d + e, a + b[1..];
  }

  // The timer has fired, and the worker, on its way out, is about to write nothing.
  function TimedOut(): State {
    Initial([SubscribeCall()], 0, true).(timer := Fired, cancelled := true, worker := Writing)
  }

  function Interrupted(): State {
    Initial([SubscribeCall()], 0, true).(timer := Fired, cancelled := true, worker := Leaving)
  }

  lemma BeInterrupted() returns (states: seq<State>)
    ensures Path([Fire, Check], states)
    ensures states[0] == Initial([SubscribeCall()], 0, true) && states[2] == Interrupted()
  {
    var s := Initial([SubscribeCall()], 0, true);
    var t := Apply(s, Fire).value;
    var u := Apply(t, Check).value;
    states := [s, t, u];
  }

  lemma Leave() returns (states: seq<State>)
    ensures Path([StopTimer, Register], states) && states[0] == Interrupted() && states[2] == TimedOut()
  {
    var s := Interrupted();
    var t := Apply(s, StopTimer).value;
    var u := Apply(t, Register).value;
    assert u.notifiers == [];
    states := [s, t, u];
  }

  lemma WriteNothing(s: State) returns (states: seq<State>)
    requires s == TimedOut()
    ensures Path([WriteBatch, Timeout, Finish], states) && states[0] == s
    ensures var t := states[3];
            t.worker == Done && t.timer == Finished && t.buffer.wire == [] && t.batch == s.batch
  {
    var t := Apply(s, WriteBatch).value;
    var u := Apply(t, Timeout).value;
    var v := Apply(u, Finish).value;
    states := [s, t, u, v];
  }

  // A timeout can leave a call without any reply: the worker sees the cancelled context
  // and makes the (empty) write before the timer takes the buffer.
  lemma TimeoutUnanswered() returns (events: seq<Event>, states: seq<State>)
    ensures Run([SubscribeCall()], 0, true, events, states)
    ensures var s := states[|events|];
            s.worker == Done && s.timer == Finished && s.buffer.wire == [] && CountCalls(s.batch) == 1
  {
    var a := BeInterrupted();
    var b := Leave();
    var c := WriteNothing(TimedOut());
    PathJoin([Fire, Check], a, [StopTimer, Register], b);
    events, states := [Fire, Check] + [StopTimer, Register], a + b[1..];
    PathJoin(events, states, [WriteBatch, Timeout, Finish], c);
    events, states := events + [WriteBatch, Timeout, Finish], states + c[1..];
    assert [SubscribeCall()][..0] == [];
    assert CountCalls([SubscribeCall()]) == 1;
  }
}
