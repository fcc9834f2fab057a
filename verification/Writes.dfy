// When a write counts as done, and what becomes of a request whose write fails.
module Writes {
  import opened Wrappers
  import opened RequestIndex
  import opened Dispatch
  import opened DispatchSafety
  import opened DispatchTheorems
  import opened Stranding

  // How often the request's write to a connection has failed.
  function CountFails(events: seq<Event>, o: OpRef): nat {
    if events == [] then 0
    else CountFails(events[..|events| - 1], o) + if events[|events| - 1] == WriteFails(o) then 1 else 0
  }

  lemma CountFailsSnoc(events: seq<Event>, k: nat, o: OpRef)
    requires k < |events|
    ensures CountFails(events[..k + 1], o) == CountFails(events[..k], o) + if events[k] == WriteFails(o) then 1 else 0
  {
    assert events[..k + 1][..k] == events[..k];
  }

  // A first failure is followed by another try, a second one is not.
  ghost predicate FailsInv(s: State, fails: nat, o: OpRef) {
    && fails <= 2
    && (o !in s.phases || s.phases[o] == Ready ==> fails == 0)
    && (o in s.phases && InWrite(s.phases[o]) ==> fails == if s.phases[o].retry then 1 else 0)
  }

  lemma FailsByWriter(s: State, e: Event, fails: nat, o: OpRef)
    requires Enabled(s, e) && ByWriter(e) && FailsInv(s, fails, o)
    ensures FailsInv(Apply(s, e), fails + if e == WriteFails(o) then 1 else 0, o)
  {
  }

  lemma FailsElsewhere(s: State, e: Event, fails: nat, o: OpRef)
    requires Enabled(s, e) && !ByWriter(e) && FailsInv(s, fails, o)
    ensures FailsInv(Apply(s, e), fails, o)
  {
  }

  lemma FailsStep(s: State, e: Event, t: State, fails: nat, o: OpRef)
    requires Next(s, e, t) && FailsInv(s, fails, o)
    ensures FailsInv(t, fails + if e == WriteFails(o) then 1 else 0, o)
  {
    if ByWriter(e) {
      FailsByWriter(s, e, fails, o);
    } else {
      FailsElsewhere(s, e, fails, o);
    }
  }

  lemma {:induction false} FailsRun(limit: nat, events: seq<Event>, states: seq<State>, k: nat, o: OpRef)
    requires Run(limit, events, states) && k < |states|
    ensures FailsInv(states[k], CountFails(events[..k], o), o)
  {
    if k > 0 {
      FailsRun(limit, events, states, k - 1, o);
      CountFailsSnoc(events, k - 1, o);
      FailsStep(states[k - 1], events[k - 1], states[k], CountFails(events[..k - 1], o), o);
    }
  }

  // The step ends the request's write with an error: no connection could be made, the
  // client quit meanwhile, or the write failed for the second time.
  predicate FailsForGood(e: Event, fails: nat, o: OpRef) {
    e == DialFails(o) || e == ReconnectTooLate(o) || (e == WriteFails(o) && fails == 1)
  }

  // What a step means for the write of a request that has failed so often before.
  ghost predicate WriteStep(s: State, e: Event, t: State, fails: nat, o: OpRef)
    requires o in s.phases
  {
    && o in t.phases
    && (t.phases[o] == Waiting && s.phases[o] != Waiting <==> e == WriteOk(o))
    && (e == WriteOk(o) ==> t.reqSent == [false] && t.lastOp == Some(o))
    && (FailsForGood(e, fails, o) ==> t.phases[o] == Done && t.reqSent == [true] && t.lastOp == Some(o))
    && (e == WriteFails(o) ==> fails <= 1)
    && (e == WriteFails(o) && fails == 0 ==>
          t.phases[o] == Writing(true) && t.writeConn == None && t.reqSent == [])
  }

  lemma WriteFailsStep(s: State, p: OpRef, fails: nat, o: OpRef)
    requires Inv(s) && Enabled(s, WriteFails(p)) && FailsInv(s, fails, o) && o in s.phases
    ensures WriteStep(s, WriteFails(p), Apply(s, WriteFails(p)), fails, o)
  {
  }

  lemma WriterStep(s: State, e: Event, fails: nat, o: OpRef)
    requires Inv(s) && Enabled(s, e) && ByWriter(e) && !e.WriteFails? && o in s.phases
    ensures WriteStep(s, e, Apply(s, e), fails, o)
  {
  }

  lemma OtherStep(s: State, e: Event, fails: nat, o: OpRef)
    requires Enabled(s, e) && !ByWriter(e) && o in s.phases
    ensures WriteStep(s, e, Apply(s, e), fails, o)
  {
  }

  lemma StepOfWriter(s: State, e: Event, t: State, fails: nat, o: OpRef)
    requires Inv(s) && Next(s, e, t) && FailsInv(s, fails, o) && o in s.phases
    ensures WriteStep(s, e, t, fails, o)
  {
    if e.WriteFails? {
      WriteFailsStep(s, e.o, fails, o);
    } else if ByWriter(e) {
      WriterStep(s, e, fails, o);
    } else {
      OtherStep(s, e, fails, o);
    }
  }

  // In every run: a request waits for its answer only from the step on in which its write
  // succeeded. Any other end of its write makes send return the error, which also goes to
  // dispatch; a first failure is neither, but leads to a new connection.
  lemma WriteResults(limit: nat, events: seq<Event>, states: seq<State>, k: nat, o: OpRef)
    requires Run(limit, events, states) && k < |events| && o in states[k].phases
    ensures WriteStep(states[k], events[k], states[k + 1], CountFails(events[..k], o), o)
  {
    RunInv(limit, events, states, k);
    FailsRun(limit, events, states, k, o);
    StepOfWriter(states[k], events[k], states[k + 1], CountFails(events[..k], o), o);
  }

  // In every run, requests are written to the connection that is being read or about to be,
  // and if it is being read, its handler already waits for the request under all its IDs.
  // A reconnect makes the write go on, on the new connection.
  lemma WrittenOn(limit: nat, events: seq<Event>, states: seq<State>, k: nat, o: OpRef)
    requires Run(limit, events, states) && k < |events|
    requires forall i :: 0 <= i < |states| ==> DistinctIds(states[i].index.ops)
    ensures var s, t := states[k], states[k + 1];
            && (events[k] == WriteOk(o) ==>
                  && s.writeConn == Some(if s.loop.Draining? then s.loop.newcodec else s.conn)
                  && (s.loop == Running && s.reading && o in s.index.ops && !s.index.ops[o].hadResponse ==>
                        RegisteredFully(s.index, o)))
            && (events[k] == Reconnect(o) ==>
                  t.writeConn == Some(if t.loop.Draining? then t.loop.newcodec else t.conn))
  {
    RunInv(limit, events, states, k);
    RunInv(limit, events, states, k + 1);
    InFlightRegistered(limit, events, states, k);
    assert Next(states[k], events[k], states[k + 1]);
  }

  // The steps in which a caller returns: from send with an error, or from op.wait.
  predicate Returns(s: State, e: Event, o: OpRef) {
    || e == GiveUp(o) || e == DialFails(o) || e == ReconnectTooLate(o)
    || (e == WriteFails(o) && InPhase(s, o, Writing(true)))
    || e == NotifyReturns(o) || e == Receive(o) || e == ReqTimeout(o) || e == TimeoutAbandoned(o)
  }

  // In every run, a waiting caller returns only with something on its channel, after its
  // context has ended, or if it sent a notification.
  lemma CallerReturns(limit: nat, events: seq<Event>, states: seq<State>, k: nat, o: OpRef)
    requires Run(limit, events, states) && k < |events|
    requires o in states[k].phases && o in states[k].index.ops && states[k].phases[o] != Done
    requires o in states[k + 1].phases
    ensures states[k + 1].phases[o] == Done <==> Returns(states[k], events[k], o)
    ensures states[k].phases[o] == Waiting && states[k + 1].phases[o] == Done ==>
              states[k].index.ops[o].resp != [] || !states[k].index.ops[o].waits
    ensures states[k + 1].phases[o] == TimingOut && states[k].phases[o] != TimingOut <==> events[k] == Expire(o)
  {
    assert Next(states[k], events[k], states[k + 1]);
    PhaseStep(states[k], events[k], states[k + 1], o);
  }

  lemma ReturnsByWriter(s: State, e: Event, o: OpRef)
    requires Enabled(s, e) && ByWriter(e) && o in s.phases && o in s.index.ops && s.phases[o] != Done
    ensures Apply(s, e).phases[o] == Done <==> Returns(s, e, o)
    ensures Apply(s, e).phases[o] == Done ==> s.phases[o] != Waiting
    ensures Apply(s, e).phases[o] != TimingOut || s.phases[o] == TimingOut
  {
  }

  lemma ReturnsByDispatch(s: State, e: Event, o: OpRef)
    requires Enabled(s, e) && ByDispatch(e) && o in s.phases && o in s.index.ops && s.phases[o] != Done
    ensures o in Apply(s, e).phases
    ensures Apply(s, e).phases[o] == Done <==> Returns(s, e, o)
    ensures Apply(s, e).phases[o] == Done ==> s.phases[o] != Waiting
    ensures Apply(s, e).phases[o] != TimingOut || s.phases[o] == TimingOut
  {
  }

  lemma ReturnsOutside(s: State, e: Event, o: OpRef)
    requires Enabled(s, e) && !ByWriter(e) && !ByDispatch(e)
    requires o in s.phases && o in s.index.ops && s.phases[o] != Done
    ensures o in Apply(s, e).phases
    ensures Apply(s, e).phases[o] == Done <==> Returns(s, e, o)
    ensures Apply(s, e).phases[o] == Done && s.phases[o] == Waiting ==>
              s.index.ops[o].resp != [] || !s.index.ops[o].waits
    ensures Apply(s, e).phases[o] == TimingOut && s.phases[o] != TimingOut <==> e == Expire(o)
  {
  }

  lemma PhaseStep(s: State, e: Event, t: State, o: OpRef)
    requires Next(s, e, t) && o in s.phases && o in s.index.ops && s.phases[o] != Done && o in t.phases
    ensures t.phases[o] == Done <==> Returns(s, e, o)
    ensures s.phases[o] == Waiting && t.phases[o] == Done ==> s.index.ops[o].resp != [] || !s.index.ops[o].waits
    ensures t.phases[o] == TimingOut && s.phases[o] != TimingOut <==> e == Expire(o)
  {
    if ByWriter(e) {
      ReturnsByWriter(s, e, o);
    } else if ByDispatch(e) {
      ReturnsByDispatch(s, e, o);
    } else {
      ReturnsOutside(s, e, o);
    }
  }

  // ---------- A failed write is forgotten ----------

  // The error is on its way to dispatch, or dispatch has removed the registrations.
  ghost predicate FailedInv(s: State, o: OpRef) {
    || (InPhase(s, o, Done) && s.lastOp == Some(o) && s.reqSent == [true])
    || GivenUp(s, o)
  }

  lemma FailureTaken(s: State, o: OpRef)
    requires Inv(s) && Enabled(s, ReqSent) && FailedInv(s, o)
    ensures GivenUp(Apply(s, ReqSent), o)
  {
    if s.reqSent[0] {
      RemovedChannels(s.index, s.lastOp.value);
    }
  }

  lemma FailureKept(s: State, e: Event, t: State, o: OpRef)
    requires Inv(s) && Next(s, e, t) && e != ReqSent
    requires InPhase(s, o, Done) && s.lastOp == Some(o) && s.reqSent == [true]
    ensures t.lastOp == Some(o) && t.reqSent == [true] && o in t.phases && t.phases[o] == Done
  {
  }

  lemma FailedNext(s: State, e: Event, t: State, o: OpRef)
    requires Inv(s) && Next(s, e, t) && FailedInv(s, o)
    ensures FailedInv(t, o) && (e == ReqSent ==> GivenUp(t, o))
  {
    if e == ReqSent {
      FailureTaken(s, o);
    } else if GivenUp(s, o) {
      GivenUpNext(s, e, t, o);
    } else {
      FailureKept(s, e, t, o);
      StepGrows(s, e, t, o);
    }
  }

  lemma {:induction false} FailedForGood(events: seq<Event>, states: seq<State>, o: OpRef)
    requires Path(events, states) && Inv(states[0]) && FailedInv(states[0], o)
    ensures FailedInv(states[|events|], o)
    ensures ReqSent in events ==> GivenUp(states[|events|], o)
  {
    if events != [] {
      PathTail(events, states);
      StepKeepsInv(states[0], events[0]);
      FailedNext(states[0], events[0], states[1], o);
      FailedForGood(events[1..], states[1..], o);
      if events[0] == ReqSent {
        GivenUpForGood(events[1..], states[1..], o);
      }
    }
  }

  // The step with which the write ends.
  lemma WriteEnds(s: State, e: Event, t: State, fails: nat, o: OpRef)
    requires Inv(s) && Next(s, e, t) && FailsInv(s, fails, o) && o in s.phases && FailsForGood(e, fails, o)
    ensures Inv(t) && FailedInv(t, o)
  {
    StepKeepsInv(s, e);
    StepOfWriter(s, e, t, fails, o);
  }

  lemma FailedFrom(events: seq<Event>, states: seq<State>, i: nat, k: nat, fails: nat, o: OpRef)
    requires Path(events, states) && i < k < |states|
    requires Inv(states[i]) && FailsInv(states[i], fails, o) && o in states[i].phases
    requires FailsForGood(events[i], fails, o) && ReqSent in events[i + 1..k]
    ensures GivenUp(states[k], o)
  {
    assert Next(states[i], events[i], states[i + 1]);
    WriteEnds(states[i], events[i], states[i + 1], fails, o);
    PathSlice(events, states, i + 1, k);
    FailedForGood(events[i + 1..k], states[i + 1..k + 1], o);
  }

  // In every run, once dispatch has taken the error of a failed write, no handler waits for
  // the request, under any ID and in any continuation: it is given up.
  lemma FailedDeregistered(limit: nat, events: seq<Event>, states: seq<State>, i: nat, k: nat, o: OpRef)
    requires Run(limit, events, states) && i < k < |states| && o in states[i].phases
    requires FailsForGood(events[i], CountFails(events[..i], o), o)
    requires ReqSent in events[i + 1..k]
    ensures GivenUp(states[k], o)
  {
    RunInv(limit, events, states, i);
    FailsRun(limit, events, states, i, o);
    FailedFrom(events, states, i, k, CountFails(events[..i], o), o);
  }
}
