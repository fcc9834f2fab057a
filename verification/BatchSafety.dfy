// Every step of serving a batch keeps its invariant, and never panics.
module BatchSafety {
  import opened Wrappers
  import opened Messages
  import opened BatchBuffer
  import opened Notifiers
  import opened BatchRun

  predicate Control(e: Event) {
    || e.Check? || e.Next? || e.Return? || e.Count? || e.StopTimer? || e.Finish? || e.Fire? || e.Cancel?
  }

  predicate Replying(e: Event) {
    e.CutShort? || e.Timeout? || e.WriteBatch?
  }

  predicate Subscribing(e: Event) {
    e.Install? || e.Register? || e.Activate? || e.Create? || e.Notify?
  }

  lemma NoPanic(s: State, e: Event)
    requires WorkInv(s) && Enabled(s, e)
    ensures Apply(s, e).Some?
  {
  }

  // ---------- Moves of the worker and the timer that leave the buffer alone ----------

  lemma ControlKeepsWork(s: State, e: Event, t: State)
    requires Inv(s) && NextState(s, e, t) && Control(e)
    ensures WorkInv(t)
  {
    if e.Return? {
      CallMsgAnswered(s.worker.msg, e.outcome);
    }
  }

  lemma ControlFrame(s: State, e: Event, t: State)
    requires NextState(s, e, t) && Control(e)
    ensures t.batch == s.batch && t.buffer == s.buffer && t.answers == s.answers && t.reply == s.reply
    ensures t.notifiers == s.notifiers
    ensures t.worker.Activating? ==> s.worker.Activating?
    ensures t.worker.Done? ==> s.worker.Activating? || s.worker.Done?
    ensures s.worker.Activating? || s.worker.Done? ==> t.worker.Activating? || t.worker.Done?
  {
  }

  lemma ControlKeepsReply(s: State, e: Event, t: State)
    requires Inv(s) && NextState(s, e, t) && Control(e)
    ensures ReplyInv(t)
  {
    ControlFrame(s, e, t);
    assert s.reply.Some? && s.reply.value.answered <= |s.answers| && s.reply.value.answered <= |s.batch| ==>
      Content(t, t.reply.value) == Content(s, s.reply.value);
  }

  lemma ControlKeepsExit(s: State, e: Event, t: State)
    requires Inv(s) && NextState(s, e, t) && Control(e)
    ensures ExitInv(t)
  {
    ControlFrame(s, e, t);
    assert InLoop(t.worker) ==> InLoop(s.worker);
    assert s.cancelled ==> t.cancelled;
  }

  lemma ControlKeepsSize(s: State, e: Event, t: State)
    requires Inv(s) && NextState(s, e, t) && Control(e)
    ensures SizeInv(t)
  {
    ControlFrame(s, e, t);
    assert t.limit == s.limit;
  }

  lemma ControlKeepsPlace(s: State, e: Event, t: State)
    requires WorkInv(s) && NextState(s, e, t) && Control(e)
    ensures PastRegister(t.worker) <==> PastRegister(s.worker)
    ensures forall i: nat :: i < |s.notifiers| ==> (ActivatedBy(t.worker, i) <==> ActivatedBy(s.worker, i))
    ensures s.worker.Executing? || s.worker.Answering? ==> t.worker.Executing? || t.worker.Answering?
    ensures t.worker.Activating? ==> t.worker == s.worker
  {
  }

  lemma ControlKeepsNotifiers(s: State, e: Event, t: State)
    requires Inv(s) && NextState(s, e, t) && Control(e)
    ensures NotifierInv(t)
  {
    ControlFrame(s, e, t);
    ControlKeepsPlace(s, e, t);
    forall i | 0 <= i < |s.notifiers| ensures NotifierOk(t, i, t.notifiers[i]) {
      assert NotifierOk(s, i, s.notifiers[i]);
    }
  }

  // ---------- An answer is pushed ----------

  lemma PushKeepsInv(s: State, t: State)
    requires Inv(s) && NextState(s, Push, t)
    ensures WorkInv(t) && ReplyInv(t)
  {
    var k := |s.answers|;
    assert s.batch[..k + 1] == s.batch[..k] + [s.batch[k]];
    assert t.answers[..k] == s.answers;
    assert Collected(t.answers) == Collected(s.answers) + if s.worker.answer.Some? then [s.worker.answer.value] else [];
    if s.reply.Some? {
      assert t.answers[..s.reply.value.answered] == s.answers[..s.reply.value.answered];
    }
  }

  lemma PushKeepsSize(s: State, t: State)
    requires Inv(s) && NextState(s, Push, t)
    ensures ExitInv(t) && SizeInv(t) && NotifierInv(t)
  {
    assert t.answers[..|s.answers|] == s.answers;
  }

  // ---------- The reply is made ----------

  lemma ReplyKeepsReply(s: State, e: Event, t: State)
    requires Inv(s) && NextState(s, e, t) && Replying(e)
    ensures ReplyInv(t)
  {
    assert s.answers[..|s.answers|] == s.answers;
    assert Collected(s.answers) + [] == Collected(s.answers);
  }

  lemma ReplyKeepsRest(s: State, e: Event, t: State)
    requires Inv(s) && NextState(s, e, t) && Replying(e)
    ensures WorkInv(t) && ExitInv(t) && SizeInv(t)
  {
  }

  lemma ReplyKeepsNotifiers(s: State, e: Event, t: State)
    requires Inv(s) && NextState(s, e, t) && Replying(e)
    ensures NotifierInv(t)
  {
    forall i | 0 <= i < |s.notifiers| ensures NotifierOk(t, i, t.notifiers[i]) {
      assert NotifierOk(s, i, s.notifiers[i]);
    }
  }

  // ---------- Notifiers ----------

  // The notifiers are apart from the calls and the reply.
  lemma SubscribeFrame(s: State, e: Event, t: State)
    requires NextState(s, e, t) && Subscribing(e)
    ensures t == s.(notifiers := t.notifiers, worker := t.worker)
    ensures t.worker == s.worker || (e.Register? && s.worker.Registering? && t.worker.Writing?)
            || (e.Activate? && s.worker.Activating? && t.worker.Activating?)
  {
  }

  lemma SubscribeKeepsReply(s: State, e: Event, t: State)
    requires Inv(s) && NextState(s, e, t) && Subscribing(e)
    ensures WorkInv(t) && ReplyInv(t)
  {
    SubscribeFrame(s, e, t);
  }

  lemma SubscribeKeepsRest(s: State, e: Event, t: State)
    requires Inv(s) && NextState(s, e, t) && Subscribing(e)
    ensures ExitInv(t) && SizeInv(t)
  {
    SubscribeFrame(s, e, t);
  }

  lemma RegisterKeepsNotifiers(s: State, t: State)
    requires Inv(s) && NextState(s, Register, t)
    ensures NotifierInv(t)
  {
    forall i | 0 <= i < |t.notifiers| ensures NotifierOk(t, i, t.notifiers[i]) {
      assert NotifierOk(s, i, s.notifiers[i]);
    }
  }

  lemma ActivateKeepsNotifiers(s: State, good: nat, t: State)
    requires Inv(s) && NextState(s, Activate(good), t)
    ensures NotifierInv(t)
  {
    var k := s.worker.next;
    assert NotifierOk(s, k, s.notifiers[k]);
    ActivatedKeepsOrder(s.notifiers[k].notifier, good);
    forall i | 0 <= i < |t.notifiers| ensures NotifierOk(t, i, t.notifiers[i]) {
      assert NotifierOk(s, i, s.notifiers[i]);
    }
  }

  // The notifier that is new or changes; the others stay as they are.
  lemma SubscribeKeepsNotifiers(s: State, e: Event, t: State)
    requires Inv(s) && NextState(s, e, t)
    requires e.Install? || e.Create? || e.Notify?
    ensures NotifierInv(t)
  {
    if e.Notify? {
      assert NotifierOk(s, e.i, s.notifiers[e.i]);
      NotifiedKeepsOrder(s.notifiers[e.i].notifier, e.data);
    }
    forall i | 0 <= i < |t.notifiers| ensures NotifierOk(t, i, t.notifiers[i]) {
      assert i < |s.notifiers| ==> NotifierOk(s, i, s.notifiers[i]);
    }
  }

  lemma StepKeepsInv(s: State, e: Event, t: State)
    requires Inv(s) && NextState(s, e, t)
    ensures Inv(t)
  {
    if Control(e) {
      ControlKeepsWork(s, e, t);
      ControlKeepsReply(s, e, t);
      ControlKeepsExit(s, e, t);
      ControlKeepsSize(s, e, t);
      ControlKeepsNotifiers(s, e, t);
    } else if Replying(e) {
      ReplyKeepsReply(s, e, t);
      ReplyKeepsRest(s, e, t);
      ReplyKeepsNotifiers(s, e, t);
    } else if Subscribing(e) {
      SubscribeKeepsReply(s, e, t);
      SubscribeKeepsRest(s, e, t);
      if e.Register? {
        RegisterKeepsNotifiers(s, t);
      } else if e.Activate? {
        ActivateKeepsNotifiers(s, e.good, t);
      } else {
        SubscribeKeepsNotifiers(s, e, t);
      }
    } else {
      PushKeepsInv(s, t);
      PushKeepsSize(s, t);
    }
  }

  lemma SameBatch(s: State, e: Event, t: State)
    requires NextState(s, e, t)
    ensures t.batch == s.batch && t.limit == s.limit
  {
  }

  lemma {:induction false} RunInv(
    batch: seq<Message>, limit: nat, hasTimeout: bool, events: seq<Event>, states: seq<State>, k: nat)
    requires Run(batch, limit, hasTimeout, events, states) && k < |states|
    ensures Inv(states[k]) && states[k].batch == batch && states[k].limit == limit
  {
    if k > 0 {
      RunInv(batch, limit, hasTimeout, events, states, k - 1);
      assert NextState(states[k - 1], events[k - 1], states[k]);
      SameBatch(states[k - 1], events[k - 1], states[k]);
      StepKeepsInv(states[k - 1], events[k - 1], states[k]);
    }
  }
}
