// What the answers to a batch say: the results of the calls that were executed, and the
// error that takes the place of the others.
module BatchAnswers {
  import opened Wrappers
  import opened Messages
  import opened BatchBuffer
  import opened BatchRun
  import opened BatchSafety
  import opened BatchTheorems

  // What the executed calls came to, in order.
  function Outcomes(events: seq<Event>): seq<Outcome> {
    if events == [] then []
    else
      var last := events[|events| - 1];
      Outcomes(events[..|events| - 1]) + if last.Return? then [last.outcome] else []
  }

  lemma OutcomesSnoc(events: seq<Event>, k: nat)
    requires k < |events|
    ensures Outcomes(events[..k + 1]) ==
            Outcomes(events[..k]) + if events[k].Return? then [events[k].outcome] else []
  {
    assert events[..k + 1][..k] == events[..k];
  }

  predicate ServedBy(answer: Option<Message>, m: Message, outcome: Outcome) {
    if m.IsNotification() then answer == None
    else answer.Some? && Answers(answer.value, m) && Carries(answer.value, m, outcome)
  }

  // The i-th answer serves the i-th message with the i-th outcome.
  ghost predicate Served(answers: seq<Option<Message>>, ms: seq<Message>, outcomes: seq<Outcome>) {
    && |answers| <= |ms| && |answers| <= |outcomes|
    && forall i :: 0 <= i < |answers| ==> ServedBy(answers[i], ms[i], outcomes[i])
  }

  // The answer at hand is not pushed yet.
  ghost predicate ServedInv(s: State, outcomes: seq<Outcome>) {
    && Served(s.answers, s.batch, outcomes)
    && |outcomes| == |s.answers| + (if s.worker.Answering? then 1 else 0)
    && (s.worker.Answering? ==>
          |s.answers| < |s.batch| && ServedBy(s.worker.answer, s.batch[|s.answers|], outcomes[|s.answers|]))
  }

  lemma ServedReturn(s: State, outcome: Outcome, t: State, outcomes: seq<Outcome>)
    requires Inv(s) && NextState(s, Return(outcome), t) && ServedInv(s, outcomes)
    ensures ServedInv(t, outcomes + [outcome])
  {
    CallMsgAnswered(s.worker.msg, outcome);
    if !s.worker.msg.IsNotification() {
      AnswerCarries(s.worker.msg, outcome);
    }
    assert s.worker.msg == s.batch[|s.answers|];
  }

  lemma ServedStep(s: State, e: Event, t: State, outcomes: seq<Outcome>)
    requires Inv(s) && NextState(s, e, t) && ServedInv(s, outcomes) && !e.Return?
    ensures ServedInv(t, outcomes)
  {
  }

  lemma {:induction false} ServedRun(
    batch: seq<Message>, limit: nat, hasTimeout: bool, events: seq<Event>, states: seq<State>, k: nat)
    requires Run(batch, limit, hasTimeout, events, states) && k < |states|
    ensures ServedInv(states[k], Outcomes(events[..k]))
  {
    if k > 0 {
      ServedRun(batch, limit, hasTimeout, events, states, k - 1);
      RunInv(batch, limit, hasTimeout, events, states, k - 1);
      OutcomesSnoc(events, k - 1);
      var outcomes := Outcomes(events[..k - 1]);
      if events[k - 1].Return? {
        ServedReturn(states[k - 1], events[k - 1].outcome, states[k], outcomes);
      } else {
        ServedStep(states[k - 1], events[k - 1], states[k], outcomes);
      }
    }
  }

  // The bytes of the results that successful calls came to.
  function ResultBytes(ms: seq<Message>, outcomes: seq<Outcome>): nat
    requires |ms| == |outcomes|
  {
    if ms == [] then 0
    else
      var last := |ms| - 1;
      ResultBytes(ms[..last], outcomes[..last])
        + if ms[last].IsCall() && outcomes[last].Ok? then |outcomes[last].value| else 0
  }

  lemma {:induction false} ServedBytes(answers: seq<Option<Message>>, ms: seq<Message>, outcomes: seq<Outcome>)
    requires |answers| == |ms| == |outcomes| && Served(answers, ms, outcomes)
    ensures Bytes(answers) == ResultBytes(ms, outcomes)
  {
    if ms != [] {
      var last := |ms| - 1;
      ServedBytes(answers[..last], ms[..last], outcomes[..last]);
      assert ServedBy(answers[last], ms[last], outcomes[last]);
    }
  }

  // rs carries the outcomes: in order, one for every message that is not a notification.
  ghost predicate CarriedInOrder(ms: seq<Message>, outcomes: seq<Outcome>, rs: seq<Message>)
    requires |ms| == |outcomes|
  {
    if ms == [] then rs == []
    else
      var last := |ms| - 1;
      if ms[last].IsNotification() then CarriedInOrder(ms[..last], outcomes[..last], rs)
      else
        && rs != [] && Answers(rs[|rs| - 1], ms[last]) && Carries(rs[|rs| - 1], ms[last], outcomes[last])
        && CarriedInOrder(ms[..last], outcomes[..last], rs[..|rs| - 1])
  }

  lemma {:induction false} CollectedCarries(answers: seq<Option<Message>>, ms: seq<Message>, outcomes: seq<Outcome>)
    requires |answers| == |ms| == |outcomes| && Served(answers, ms, outcomes)
    ensures CarriedInOrder(ms, outcomes, Collected(answers))
  {
    if ms != [] {
      var last := |ms| - 1;
      assert ServedBy(answers[last], ms[last], outcomes[last]);
      CollectedCarries(answers[..last], ms[..last], outcomes[..last]);
      var rs, front := Collected(answers), Collected(answers[..last]);
      assert rs == front + if answers[last].Some? then [answers[last].value] else [];
      assert answers[last].Some? ==> rs[..|rs| - 1] == front;
      assert answers[last] == None ==> rs == front;
    }
  }

  // rs are error answers, one for every message that is not a notification.
  ghost predicate ErrorsInOrder(ms: seq<Message>, err: JsonError, rs: seq<Message>) {
    && AnswersInOrder(ms, rs)
    && forall r :: r in rs ==> r.error == Some(err) && r.result == None
  }

  lemma {:induction false} ErrorsCarry(ms: seq<Message>, err: JsonError)
    ensures ErrorsInOrder(ms, err, ErrorsFor(ms, err))
  {
    CutShortAnswers([], ms, [], err);
    assert [] + ms == ms && [] + ErrorsFor(ms, err) == ErrorsFor(ms, err);
    if ms != [] {
      ErrorsCarry(ms[..|ms| - 1], err);
      ErrorResponseCarries(ms[|ms| - 1], err);
    }
  }

  // What a reply has been made of.
  ghost predicate Written(s: State, outcomes: seq<Outcome>, executed: seq<Message>, rest: seq<Message>) {
    && s.reply.Some? && s.reply.value.answered <= |s.batch| && s.reply.value.answered <= |outcomes|
    && Sent(s) == executed + rest
    && CarriedInOrder(s.batch[..s.reply.value.answered], outcomes[..s.reply.value.answered], executed)
    && (if s.reply.value.error.Some? then ErrorsInOrder(s.batch[s.reply.value.answered..], s.reply.value.error.value, rest)
        else rest == [])
  }

  lemma WrittenAt(s: State, outcomes: seq<Outcome>) returns (executed: seq<Message>, rest: seq<Message>)
    requires Inv(s) && ServedInv(s, outcomes) && s.reply.Some?
    ensures Written(s, outcomes, executed, rest)
  {
    var n := s.reply.value.answered;
    SentIsContent(s);
    forall i | 0 <= i < n ensures ServedBy(s.answers[..n][i], s.batch[..n][i], outcomes[..n][i]) {
      assert ServedBy(s.answers[i], s.batch[i], outcomes[i]);
    }
    CollectedCarries(s.answers[..n], s.batch[..n], outcomes[..n]);
    executed := Collected(s.answers[..n]);
    rest := if s.reply.value.error.Some? then ErrorsFor(s.batch[n..], s.reply.value.error.value) else [];
    if s.reply.value.error.Some? {
      ErrorsCarry(s.batch[n..], s.reply.value.error.value);
    }
  }

  // In every run, what is written carries, in order, the result or the error of each call
  // executed before the reply was made, followed by the error that ended the batch, if any,
  // for each message left that expects an answer. The bytes counted against the limit are
  // those of the results.
  lemma WhatIsWritten(
    batch: seq<Message>, limit: nat, hasTimeout: bool, events: seq<Event>, states: seq<State>, k: nat)
    returns (executed: seq<Message>, rest: seq<Message>)
    requires Run(batch, limit, hasTimeout, events, states) && k < |states|
    ensures var s, outcomes := states[k], Outcomes(events[..k]);
            && Served(s.answers, batch, outcomes)
            && Bytes(s.answers) == ResultBytes(batch[..|s.answers|], outcomes[..|s.answers|])
            && (s.reply.Some? ==> s.batch == batch && Written(s, outcomes, executed, rest))
  {
    var s, outcomes := states[k], Outcomes(events[..k]);
    RunInv(batch, limit, hasTimeout, events, states, k);
    ServedRun(batch, limit, hasTimeout, events, states, k);
    var n := |s.answers|;
    forall i | 0 <= i < n ensures ServedBy(s.answers[i], batch[..n][i], outcomes[..n][i]) {
      assert ServedBy(s.answers[i], s.batch[i], outcomes[i]);
    }
    ServedBytes(s.answers, batch[..n], outcomes[..n]);
    executed, rest := [], [];
    if s.reply.Some? {
      executed, rest := WrittenAt(s, outcomes);
    }
  }

  // ---------- Which error ----------

  lemma ErrorMade(s: State, e: Event, t: State)
    requires NextState(s, e, t) && ReplyInv(s) && s.reply == None && t.reply.Some?
    ensures t.reply.value.error == match e
                                   case Timeout => Some(TIMEOUT_ERROR)
                                   case CutShort => Some(TOO_LARGE_ERROR)
                                   case _ => None
    ensures e.Timeout? || e.CutShort? || e.WriteBatch?
    ensures t.reply.value.answered == |s.answers|
  {
  }

  // In every run, the reply is made by the timeout, with its error; by the worker that
  // finds the results too large, with that error; or by the worker at its end, with none.
  lemma ReplyMaker(
    batch: seq<Message>, limit: nat, hasTimeout: bool, events: seq<Event>, states: seq<State>, k: nat)
    returns (i: nat)
    requires Run(batch, limit, hasTimeout, events, states) && k < |states| && states[k].reply.Some?
    ensures i < k && states[i].reply == None && states[i + 1].reply == states[k].reply
    ensures states[k].reply.value.answered == |states[i].answers|
    ensures match states[k].reply.value.error
            case None => events[i] == WriteBatch
            case Some(err) => (events[i] == Timeout && err == TIMEOUT_ERROR) || (events[i] == CutShort && err == TOO_LARGE_ERROR)
  {
    ReplyMade(batch, limit, hasTimeout, events, states, k);
    i :| 0 <= i < k && ReplyMadeAt(states, i, states[k].reply);
    RunInv(batch, limit, hasTimeout, events, states, i);
    assert NextState(states[i], events[i], states[i + 1]);
    ErrorMade(states[i], events[i], states[i + 1]);
  }

  // ---------- The end of the worker ----------

  // The call the worker is about to execute or executing.
  function AtHand(w: Worker): nat {
    if w.AtNext? || w.Executing? || w.Answering? then 1 else 0
  }

  ghost predicate StopInv(s: State, hasTimeout: bool) {
    && (s.timer == NoTimer <==> !hasTimeout)
    && (s.worker.Registering? || PastRegister(s.worker) ==> s.timer != Armed)
    && (s.worker.Done? ==> s.cancelled)
  }

  lemma StopStep(s: State, e: Event, t: State, hasTimeout: bool)
    requires NextState(s, e, t) && StopInv(s, hasTimeout)
    ensures StopInv(t, hasTimeout)
    ensures s.cancelled ==> t.cancelled && |t.answers| + AtHand(t.worker) <= |s.answers| + AtHand(s.worker)
  {
  }

  lemma {:induction false} StopRun(
    batch: seq<Message>, limit: nat, hasTimeout: bool, events: seq<Event>, states: seq<State>, k: nat)
    requires Run(batch, limit, hasTimeout, events, states) && k < |states|
    ensures StopInv(states[k], hasTimeout)
  {
    if k > 0 {
      StopRun(batch, limit, hasTimeout, events, states, k - 1);
      StopStep(states[k - 1], events[k - 1], states[k], hasTimeout);
    }
  }

  // In every run, once the context has ended, by the timeout or otherwise, at most the call
  // at hand is still executed.
  lemma {:induction false} CancelStops(
    batch: seq<Message>, limit: nat, hasTimeout: bool, events: seq<Event>, states: seq<State>, j: nat, k: nat)
    requires Run(batch, limit, hasTimeout, events, states) && j <= k < |states| && states[j].cancelled
    ensures states[k].cancelled
    ensures |states[k].answers| + AtHand(states[k].worker) <= |states[j].answers| + AtHand(states[j].worker)
    decreases k
  {
    if j < k {
      CancelStops(batch, limit, hasTimeout, events, states, j, k - 1);
      StopRun(batch, limit, hasTimeout, events, states, k - 1);
      StopStep(states[k - 1], events[k - 1], states[k], hasTimeout);
    }
  }

  // In every run, the timer does not fire without a timeout, nor after the worker has left
  // the loop and stopped it; and the context has ended when the worker is done.
  lemma TimerStops(
    batch: seq<Message>, limit: nat, hasTimeout: bool, events: seq<Event>, states: seq<State>, k: nat)
    requires Run(batch, limit, hasTimeout, events, states) && k < |states|
    ensures !hasTimeout || states[k].worker.Registering? || PastRegister(states[k].worker) ==> !Enabled(states[k], Fire)
    ensures states[k].worker.Done? ==> states[k].cancelled
  {
    StopRun(batch, limit, hasTimeout, events, states, k);
  }

  // ---------- Notifiers ----------

  ghost predicate OwnInv(s: State) {
    && (forall i :: 0 <= i < |s.notifiers| ==>
          && s.notifiers[i].call < |s.batch|
          && s.batch[s.notifiers[i].call].IsSubscribe()
          && (s.batch[s.notifiers[i].call].IsCall() || s.batch[s.notifiers[i].call].IsNotification()))
    && (forall i, j :: 0 <= i < j < |s.notifiers| ==> s.notifiers[i].call != s.notifiers[j].call)
  }

  lemma InstallOwned(s: State, t: State)
    requires Inv(s) && NextState(s, Install, t) && OwnInv(s)
    ensures OwnInv(t)
  {
  }

  // A step that installs none leaves each notifier with its call.
  lemma CallsKept(s: State, e: Event, t: State)
    requires NextState(s, e, t) && e != Install
    ensures |t.notifiers| == |s.notifiers|
    ensures forall i :: 0 <= i < |t.notifiers| ==> t.notifiers[i].call == s.notifiers[i].call
    ensures t.batch == s.batch
  {
  }

  lemma OwnStep(s: State, e: Event, t: State)
    requires Inv(s) && Inv(t) && NextState(s, e, t) && OwnInv(s)
    ensures OwnInv(t)
  {
    if e == Install {
      InstallOwned(s, t);
    } else {
      CallsKept(s, e, t);
    }
  }

  // In every run, a notifier belongs to a subscribe call of the batch, and no two of them
  // to the same.
  lemma {:induction false} NotifiersOwned(
    batch: seq<Message>, limit: nat, hasTimeout: bool, events: seq<Event>, states: seq<State>, k: nat)
    requires Run(batch, limit, hasTimeout, events, states) && k < |states|
    ensures OwnInv(states[k])
  {
    if k > 0 {
      NotifiersOwned(batch, limit, hasTimeout, events, states, k - 1);
      RunInv(batch, limit, hasTimeout, events, states, k - 1);
      RunInv(batch, limit, hasTimeout, events, states, k);
      OwnStep(states[k - 1], events[k - 1], states[k]);
    }
  }
}
