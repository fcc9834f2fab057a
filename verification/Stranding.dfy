// When the client stops waiting for a request that its caller still waits for: the steps
// that drop its registration, and that nothing brings it back.
module Stranding {
  import opened Wrappers
  import opened Messages
  import opened RequestIndex
  import opened Dispatch
  import opened DispatchSafety
  import opened DispatchTheorems
  import opened Launches

  // The handler does not wait for the operation, and its sender has gone past send.
  ghost predicate Stranded(s: State, o: OpRef) {
    && o in s.index.ops && o in s.phases && !Registered(s.index, o)
    && s.lastOp != Some(o) && !InWrite(s.phases[o]) && s.phases[o] != Ready
  }

  lemma StrandedStepClosing(s: State, e: Event, o: OpRef)
    requires Inv(s) && Enabled(s, e) && Stranded(s, o) && Closing(e)
    ensures Stranded(Apply(s, e), o)
    ensures Apply(s, e).index.ops[o].resp == s.index.ops[o].resp
  {
    match e
    case Reconnect(p) =>
      if s.reading {
        CancelledChannels(s.index, RECONNECTED, s.lastOp);
      } else {
        AttachChannels(s.index, s.lastOp.value);
      }
    case ReadErr(r) => CancelledChannels(s.index, READ_ERROR, s.lastOp);
    case DrainErr(r) => if s.loop.Draining? { AttachChannels(s.index, s.lastOp.value); }
    case Quit => if s.reading { CancelledChannels(s.index, CLIENT_QUIT, None); }
  }

  lemma StrandedStep(s: State, e: Event, o: OpRef)
    requires Inv(s) && Enabled(s, e) && Stranded(s, o) && ByDispatch(e) && !Closing(e) && !e.ReadOp?
    ensures Stranded(Apply(s, e), o)
    ensures Apply(s, e).index.ops[o].resp == s.index.ops[o].resp
  {
    match e
    case ReqInit(p) => AddedChannels(s.index, p);
    case ReqSent => if s.reqSent[0] { RemovedChannels(s.index, s.lastOp.value); }
    case ReqTimeout(p) => RemovedChannels(s.index, p);
    case DrainMsg(r) =>
  }

  lemma StrandedRead(s: State, r: nat, decodes: Raw -> bool, o: OpRef)
    requires Inv(s) && Enabled(s, ReadOp(r, decodes)) && Stranded(s, o)
    ensures Stranded(Apply(s, ReadOp(r, decodes)), o)
    ensures Apply(s, ReadOp(r, decodes)).index.ops[o].resp == s.index.ops[o].resp
  {
    HandleChannels(s, s.readers[r].got.value.batch, decodes);
  }

  lemma StrandedStepOutside(s: State, e: Event, o: OpRef)
    requires Inv(s) && Enabled(s, e) && Stranded(s, o) && !ByDispatch(e)
    ensures Stranded(Apply(s, e), o)
    ensures Apply(s, e).index.ops[o].resp == s.index.ops[o].resp
  {
  }

  lemma StrandedNext(s: State, e: Event, t: State, o: OpRef)
    requires Inv(s) && Next(s, e, t) && Stranded(s, o)
    ensures Stranded(t, o) && t.index.ops[o].resp == s.index.ops[o].resp
  {
    if Closing(e) {
      StrandedStepClosing(s, e, o);
    } else if e.ReadOp? {
      StrandedRead(s, e.r, e.decodes, o);
    } else if ByDispatch(e) {
      StrandedStep(s, e, o);
    } else {
      StrandedStepOutside(s, e, o);
    }
  }

  // A stranded operation stays so, and its channel is never used again, whatever the
  // server, the connection and the user do.
  lemma {:induction false} StrandedForever(events: seq<Event>, states: seq<State>, o: OpRef)
    requires Path(events, states) && Inv(states[0]) && Stranded(states[0], o)
    ensures Stranded(states[|events|], o)
    ensures states[|events|].index.ops[o].resp == states[0].index.ops[o].resp
  {
    if events != [] {
      PathTail(events, states);
      StepKeepsInv(states[0], events[0]);
      StrandedNext(states[0], events[0], states[1], o);
      StrandedForever(events[1..], states[1..], o);
    }
  }

  // The step that drops a request: its write is reported as done though no handler waits
  // for it, because its connection broke while it was being written; or the handler that
  // waits for it is replaced, its connection having broken before the write was done.
  ghost predicate Forgets(s: State, e: Event, o: OpRef) {
    if e.ReqSent? then s.lastOp == Some(o) && !Registered(s.index, o)
    else Attaches(s, e) && s.lastOp != Some(o)
  }

  // o is registered in both or in neither.
  ghost predicate SameRegistration(s: State, t: State, o: OpRef) {
    Registered(s.index, o) <==> Registered(t.index, o)
  }

  lemma ForgottenOutside(s: State, e: Event, o: OpRef)
    requires Inv(s) && Enabled(s, e) && !ByDispatch(e) && o in s.index.ops
    ensures SameRegistration(s, Apply(s, e), o) && Apply(s, e).lastOp == s.lastOp
  {
    OutsideFrame(s, e);
  }

  lemma ForgottenRead(s: State, r: nat, decodes: Raw -> bool, o: OpRef)
    requires Inv(s) && Enabled(s, ReadOp(r, decodes)) && DistinctIds(s.index.ops) && o in s.index.ops
    requires o in Apply(s, ReadOp(r, decodes)).index.ops && Apply(s, ReadOp(r, decodes)).index.ops[o].resp == []
    ensures SameRegistration(s, Apply(s, ReadOp(r, decodes)), o)
  {
    var batch := s.readers[r].got.value.batch;
    RouterDelivers(s.index, batch, decodes, o);
    RouterDeregisters(s.index, batch, decodes);
    RoutedKeys(s.index, batch, decodes);
  }

  lemma RemovedOther(ix: Index, p: OpRef, o: OpRef)
    requires WellIndexed(ix) && DistinctIds(ix.ops) && p in ix.ops && o in ix.ops && o != p
    ensures Registered(Removed(ix, p), o) <==> Registered(ix, o)
  {
    if Registered(ix, o) {
      var id :| id in ix.respWait && ix.respWait[id] == o;
      assert id !in ix.ops[p].ids;
      assert id in Removed(ix, p).respWait;
    }
    var r := Removed(ix, p).respWait;
    assert forall id :: id in r ==> id in ix.respWait && r[id] == ix.respWait[id];
  }

  lemma AddedOther(ix: Index, p: OpRef, o: OpRef)
    requires WellIndexed(ix) && DistinctIds(ix.ops) && p in ix.ops && o in ix.ops && o != p
    ensures Registered(Added(ix, p), o) <==> Registered(ix, o)
  {
    var r := Added(ix, p).respWait;
    if Registered(ix, o) {
      var id :| id in ix.respWait && ix.respWait[id] == o;
      assert id !in ix.ops[p].ids;
      assert id in r && r[id] == o;
    }
    assert forall id :: id in r && r[id] == o ==> id in ix.respWait && ix.respWait[id] == o;
  }

  // A handler that is closed has told everyone it waited for, but the request in flight.
  lemma ClosedTold(ix: Index, err: JsonError, inflight: Option<OpRef>, o: OpRef)
    requires o in ix.ops && AllCancelled(ix, err, inflight).ops[o].resp == []
    ensures Registered(ix, o) ==> inflight == Some(o)
  {
    if Registered(ix, o) {
      assert o in ix.respWait.Values;
    }
  }

  lemma ForgottenReconnect(s: State, p: OpRef, o: OpRef)
    requires Inv(s) && Enabled(s, Reconnect(p)) && o in s.index.ops && !Stranded(s, o)
    requires o in Apply(s, Reconnect(p)).index.ops && Apply(s, Reconnect(p)).index.ops[o].resp == []
    requires InPhase(Apply(s, Reconnect(p)), o, Waiting)
    ensures Stranded(Apply(s, Reconnect(p)), o) <==> Forgets(s, Reconnect(p), o)
  {
    if s.reading {
      ClosedTold(s.index, RECONNECTED, s.lastOp, o);
    } else {
      AttachChannels(s.index, s.lastOp.value);
    }
  }

  lemma ForgottenClosing(s: State, e: Event, o: OpRef)
    requires Inv(s) && Enabled(s, e) && Closing(e) && !e.Reconnect? && o in s.index.ops && !Stranded(s, o)
    requires o in Apply(s, e).index.ops && Apply(s, e).index.ops[o].resp == []
    requires InPhase(Apply(s, e), o, Waiting)
    ensures Stranded(Apply(s, e), o) <==> Forgets(s, e, o)
  {
    match e
    case ReadErr(r) => ClosedTold(s.index, READ_ERROR, s.lastOp, o);
    case DrainErr(r) => if s.loop.Draining? { AttachChannels(s.index, s.lastOp.value); }
    case Quit => if s.reading { ClosedTold(s.index, CLIENT_QUIT, None, o); }
  }

  lemma ForgottenInLoop(s: State, e: Event, o: OpRef)
    requires Inv(s) && Enabled(s, e) && DistinctIds(s.index.ops) && ByDispatch(e) && !Closing(e)
    requires o in s.index.ops && !Stranded(s, o)
    requires o in Apply(s, e).index.ops && Apply(s, e).index.ops[o].resp == []
    requires InPhase(Apply(s, e), o, Waiting)
    ensures Stranded(Apply(s, e), o) <==> Forgets(s, e, o)
  {
    match e
    case ReqInit(p) => AddedOther(s.index, p, o);
    case ReqSent => if s.reqSent[0] { RemovedOther(s.index, s.lastOp.value, o); }
    case ReqTimeout(p) => RemovedOther(s.index, p, o);
    case ReadOp(r, decodes) => ForgottenRead(s, r, decodes, o);
    case DrainMsg(r) =>
  }

  // Exactly two kinds of step strand a request that waits for an answer.
  lemma ForgottenExactly(s: State, e: Event, t: State, o: OpRef)
    requires Inv(s) && Next(s, e, t) && DistinctIds(s.index.ops)
    requires o in s.index.ops && !Stranded(s, o)
    requires InPhase(t, o, Waiting) && t.index.ops[o].resp == []
    ensures Stranded(t, o) <==> Forgets(s, e, o)
  {
    if e.Reconnect? {
      ForgottenReconnect(s, e.o, o);
    } else if Closing(e) {
      ForgottenClosing(s, e, o);
    } else if ByDispatch(e) {
      ForgottenInLoop(s, e, o);
    } else {
      ForgottenOutside(s, e, o);
    }
  }

  // ---------- Over whole runs ----------

  // Nothing is taken back from a response channel, and only the handler that waits for an
  // operation uses it.
  ghost predicate ChannelGrows(s: State, t: State, o: OpRef) {
    && o in s.index.ops && o in t.index.ops
    && t.index.ops[o].ids == s.index.ops[o].ids
    && s.index.ops[o].resp <= t.index.ops[o].resp
    && (!Registered(s.index, o) ==> t.index.ops[o].resp == s.index.ops[o].resp)
  }

  lemma CancelledGrows(ix: Index, err: JsonError, inflight: Option<OpRef>, o: OpRef)
    requires o in ix.ops
    ensures var next := AllCancelled(ix, err, inflight).ops[o];
            && next.ids == ix.ops[o].ids && ix.ops[o].resp <= next.resp
            && (!Registered(ix, o) ==> next.resp == ix.ops[o].resp)
  {
    assert o in ix.respWait.Values ==> Registered(ix, o);
  }

  lemma RoutedGrows(ix: Index, batch: Batch, decodes: Raw -> bool, o: OpRef)
    requires o in ix.ops
    ensures var next := Routed(ix, batch, decodes).ops[o];
            && next.ids == ix.ops[o].ids && ix.ops[o].resp <= next.resp
            && (!Registered(ix, o) ==> next.resp == ix.ops[o].resp)
  {
    assert Routed(ix, batch, decodes).ops[o] == OpRouted(ix, o, batch, batch, decodes);
    if o in Resolved(ix, batch) {
      var id :| id in ix.respWait && id in ResponseIds(batch) && ix.respWait[id] == o;
      assert Registered(ix, o);
    }
  }

  lemma GrowsClosing(s: State, e: Event, o: OpRef)
    requires Inv(s) && Enabled(s, e) && Closing(e) && o in s.index.ops
    ensures ChannelGrows(s, Apply(s, e), o)
  {
    match e
    case Reconnect(p) => CancelledGrows(s.index, RECONNECTED, s.lastOp, o);
    case ReadErr(r) => CancelledGrows(s.index, READ_ERROR, s.lastOp, o);
    case DrainErr(r) =>
    case Quit => CancelledGrows(s.index, CLIENT_QUIT, None, o);
  }

  lemma GrowsElsewhere(s: State, e: Event, o: OpRef)
    requires Inv(s) && Enabled(s, e) && !Closing(e) && !e.ReadOp? && o in s.index.ops
    ensures ChannelGrows(s, Apply(s, e), o)
  {
  }

  lemma StepGrows(s: State, e: Event, t: State, o: OpRef)
    requires Inv(s) && Next(s, e, t) && o in s.index.ops
    ensures ChannelGrows(s, t, o)
  {
    if Closing(e) {
      GrowsClosing(s, e, o);
    } else if e.ReadOp? {
      RoutedGrows(s.index, s.readers[e.r].got.value.batch, e.decodes, o);
      RoutedKeys(s.index, s.readers[e.r].got.value.batch, e.decodes);
    } else {
      GrowsElsewhere(s, e, o);
    }
  }

  // A goroutine is started by Submit, and comes to wait by a successful write.
  lemma NewOp(s: State, e: Event, t: State, o: OpRef)
    requires Next(s, e, t) && o in t.phases && o !in s.phases
    ensures e.Submit? && t.phases[o] == Ready && o in t.index.ops && t.index.ops[o].resp == []
  {
  }

  lemma ComesToWait(s: State, e: Event, t: State, o: OpRef)
    requires Next(s, e, t) && o in s.phases && o in t.phases && t.phases[o] == Waiting
    ensures s.phases[o] == Waiting || (s.phases[o].Writing? && t.lastOp == s.lastOp)
  {
  }

  // A step of the run forgets the operation while it waits, or as it comes to wait.
  ghost predicate ForgottenAt(events: seq<Event>, states: seq<State>, i: nat, o: OpRef)
    requires |states| == |events| + 1 && i < |events|
  {
    Forgets(states[i], events[i], o) && InPhase(states[i + 1], o, Waiting)
  }

  lemma {:induction false} GrowsForever(events: seq<Event>, states: seq<State>, o: OpRef)
    requires Path(events, states) && Inv(states[0]) && o in states[0].index.ops
    ensures o in states[|events|].index.ops
    ensures states[0].index.ops[o].resp <= states[|events|].index.ops[o].resp
  {
    if events != [] {
      PathTail(events, states);
      StepKeepsInv(states[0], events[0]);
      StepGrows(states[0], events[0], states[1], o);
      GrowsForever(events[1..], states[1..], o);
    }
  }

  // A step that forgets an operation strands it, if it was not stranded before.
  lemma ForgettingStrands(s: State, e: Event, t: State, o: OpRef)
    requires Inv(s) && Inv(t) && Next(s, e, t) && DistinctIds(s.index.ops)
    requires Forgets(s, e, o) && InPhase(t, o, Waiting) && t.index.ops[o].resp == []
    ensures Stranded(t, o)
  {
    if o !in s.index.ops {
      NewOp(s, e, t, o);
    } else if Stranded(s, o) {
      StrandedNext(s, e, t, o);
    } else {
      ForgottenExactly(s, e, t, o);
    }
  }

  // Continuing with such a step.
  lemma StrandedToTheEnd(events: seq<Event>, states: seq<State>, o: OpRef)
    requires Path(events, states) && events != [] && Inv(states[0]) && DistinctIds(states[0].index.ops)
    requires Forgets(states[0], events[0], o) && InPhase(states[1], o, Waiting)
    requires o in states[|events|].index.ops && states[|events|].index.ops[o].resp == []
    ensures Stranded(states[|events|], o)
  {
    PathTail(events, states);
    StepKeepsInv(states[0], events[0]);
    GrowsForever(events[1..], states[1..], o);
    ForgettingStrands(states[0], events[0], states[1], o);
    StrandedForever(events[1..], states[1..], o);
  }

  lemma ForgottenIsStranded(
    limit: nat, events: seq<Event>, states: seq<State>, i: nat, k: nat, o: OpRef)
    requires Run(limit, events, states) && i < k < |states| && DistinctIds(states[i].index.ops)
    requires ForgottenAt(events, states, i, o)
    requires o in states[k].index.ops && states[k].index.ops[o].resp == []
    ensures Stranded(states[k], o)
  {
    RunInv(limit, events, states, i);
    PathSlice(events, states, i, k);
    StrandedToTheEnd(events[i..k], states[i..k + 1], o);
  }

  lemma {:induction false} StrandedWasForgotten(
    limit: nat, events: seq<Event>, states: seq<State>, k: nat, o: OpRef)
    requires Run(limit, events, states) && k < |states|
    requires forall i :: 0 <= i < k ==> DistinctIds(states[i].index.ops)
    requires InPhase(states[k], o, Waiting) && states[k].index.ops[o].resp == [] && Stranded(states[k], o)
    ensures exists i :: 0 <= i < k && ForgottenAt(events, states, i, o)
  {
    if k > 0 {
      var s, t := states[k - 1], states[k];
      RunInv(limit, events, states, k - 1);
      assert Next(s, events[k - 1], t);
      if o !in s.index.ops {
        NewOp(s, events[k - 1], t, o);
      }
      ComesToWait(s, events[k - 1], t, o);
      StepGrows(s, events[k - 1], t, o);
      if Stranded(s, o) {
        StrandedWasForgotten(limit, events, states, k - 1, o);
      } else {
        ForgottenExactly(s, events[k - 1], t, o);
        assert ForgottenAt(events, states, k - 1, o);
      }
    }
  }

  // In every run, a request that waits for an answer and has none is stranded if and only
  // if one of the two kinds of step has forgotten it.
  lemma StrandedExactly(limit: nat, events: seq<Event>, states: seq<State>, k: nat, o: OpRef)
    requires Run(limit, events, states) && k < |states|
    requires forall i :: 0 <= i < k ==> DistinctIds(states[i].index.ops)
    requires InPhase(states[k], o, Waiting) && states[k].index.ops[o].resp == []
    ensures Stranded(states[k], o) <==> exists i :: 0 <= i < k && ForgottenAt(events, states, i, o)
  {
    if Stranded(states[k], o) {
      StrandedWasForgotten(limit, events, states, k, o);
    }
    if i :| 0 <= i < k && ForgottenAt(events, states, i, o) {
      ForgottenIsStranded(limit, events, states, i, k, o);
    }
  }

  lemma NoIdsStep(s: State, e: Event, t: State, o: OpRef)
    requires Inv(s) && Inv(t) && Next(s, e, t) && o in t.index.ops && t.index.ops[o].ids == []
    requires o in s.index.ops && s.index.ops[o].ids == [] ==> s.index.ops[o].resp == []
    ensures t.index.ops[o].resp == []
  {
    if o in s.index.ops {
      StepGrows(s, e, t, o);
      assert !Registered(s.index, o);
    } else {
      NewOp(s, e, t, o);
    }
  }

  ghost predicate NoIdsInv(s: State) {
    forall o :: o in s.index.ops && s.index.ops[o].ids == [] ==> s.index.ops[o].resp == []
  }

  lemma NoIdsNext(s: State, e: Event, t: State)
    requires Inv(s) && Next(s, e, t) && NoIdsInv(s)
    ensures NoIdsInv(t)
  {
    StepKeepsInv(s, e);
    forall o | o in t.index.ops && t.index.ops[o].ids == [] ensures t.index.ops[o].resp == [] {
      NoIdsStep(s, e, t, o);
    }
  }

  // An operation without IDs is never answered and its channel never closed: besides
  // notifications, which do not wait, this is the batch call of an empty list.
  lemma {:induction false} NoIdsNoAnswer(limit: nat, events: seq<Event>, states: seq<State>, k: nat)
    requires Run(limit, events, states) && k < |states|
    ensures NoIdsInv(states[k])
  {
    if k > 0 {
      NoIdsNoAnswer(limit, events, states, k - 1);
      RunInv(limit, events, states, k - 1);
      NoIdsNext(states[k - 1], events[k - 1], states[k]);
    }
  }

  // ---------- Requests that are given up ----------

  // The operation has been given up, and no reconnect is under way on its behalf.
  ghost predicate GivenUp(s: State, o: OpRef) {
    && InPhase(s, o, Done) && !Registered(s.index, o)
    && (s.lastOp == Some(o) ==> !s.loop.Draining?)
  }

  lemma GivenUpClosing(s: State, e: Event, o: OpRef)
    requires Inv(s) && Enabled(s, e) && Closing(e) && GivenUp(s, o)
    ensures GivenUp(Apply(s, e), o)
  {
    match e
    case Reconnect(p) =>
      if s.reading {
        CancelledChannels(s.index, RECONNECTED, s.lastOp);
      } else {
        AttachChannels(s.index, s.lastOp.value);
      }
    case ReadErr(r) => CancelledChannels(s.index, READ_ERROR, s.lastOp);
    case DrainErr(r) => if s.loop.Draining? { AttachChannels(s.index, s.lastOp.value); }
    case Quit => if s.reading { CancelledChannels(s.index, CLIENT_QUIT, None); }
  }

  lemma GivenUpInLoop(s: State, e: Event, o: OpRef)
    requires Inv(s) && Enabled(s, e) && ByDispatch(e) && !Closing(e) && !e.ReadOp? && GivenUp(s, o)
    ensures GivenUp(Apply(s, e), o)
  {
    match e
    case ReqInit(p) => AddedChannels(s.index, p);
    case ReqSent => if s.reqSent[0] { RemovedChannels(s.index, s.lastOp.value); }
    case ReqTimeout(p) => RemovedChannels(s.index, p);
    case DrainMsg(r) =>
  }

  lemma GivenUpRead(s: State, r: nat, decodes: Raw -> bool, o: OpRef)
    requires Inv(s) && Enabled(s, ReadOp(r, decodes)) && GivenUp(s, o)
    ensures GivenUp(Apply(s, ReadOp(r, decodes)), o)
  {
    HandleChannels(s, s.readers[r].got.value.batch, decodes);
  }

  lemma GivenUpOutside(s: State, e: Event, o: OpRef)
    requires Inv(s) && Enabled(s, e) && !ByDispatch(e) && GivenUp(s, o)
    ensures GivenUp(Apply(s, e), o)
  {
  }

  lemma GivenUpNext(s: State, e: Event, t: State, o: OpRef)
    requires Inv(s) && Next(s, e, t) && GivenUp(s, o)
    ensures GivenUp(t, o)
  {
    if Closing(e) {
      GivenUpClosing(s, e, o);
    } else if e.ReadOp? {
      GivenUpRead(s, e.r, e.decodes, o);
    } else if ByDispatch(e) {
      GivenUpInLoop(s, e, o);
    } else {
      GivenUpOutside(s, e, o);
    }
  }

  lemma {:induction false} GivenUpForGood(events: seq<Event>, states: seq<State>, o: OpRef)
    requires Path(events, states) && Inv(states[0]) && GivenUp(states[0], o)
    ensures GivenUp(states[|events|], o)
    ensures states[|events|].index.ops[o].resp == states[0].index.ops[o].resp
  {
    if events != [] {
      PathTail(events, states);
      StepKeepsInv(states[0], events[0]);
      GivenUpNext(states[0], events[0], states[1], o);
      StepGrows(states[0], events[0], states[1], o);
      GivenUpForGood(events[1..], states[1..], o);
    }
  }

  // A request whose timeout dispatch has seen is not waited for any more, by no handler
  // and under no ID, and gets no answer in any continuation, not even if its own write is
  // still to be reported or connections come and go.
  lemma TimedOutForGood(events: seq<Event>, states: seq<State>, o: OpRef)
    requires Path(events, states) && Inv(states[0])
    requires events != [] && events[0] == ReqTimeout(o) && Enabled(states[0], events[0])
    ensures var s := states[|events|];
            && o in s.index.ops && !Registered(s.index, o)
            && s.index.ops[o].resp == states[0].index.ops[o].resp
  {
    PathTail(events, states);
    StepKeepsInv(states[0], events[0]);
    assert GivenUp(states[1], o);
    GivenUpForGood(events[1..], states[1..], o);
  }

  // ---------- A run that strands a request ----------

  function BreakingDown(): seq<Event> {
    [ReadFails(0), ReadErr(0)]
  }

  function WritingAnyway(): seq<Event> {
    [WriteOk(0), ReqSent]
  }

  function Broken(ops: map<OpRef, Op>): State {
    State(Index(map[], ops), map[0 := Writing(false)], Some(0), false, [], Some(0), 0, false, [], 1, Running, 0, [])
  }

  lemma BreakDown(s: State, ix: Index) returns (states: seq<State>)
    requires s == InFlight(ix, false, 0, []) && ix.ops.Keys == {0}
    ensures Path(BreakingDown(), states) && states[0] == s && states[2] == Broken(ix.ops)
  {
    var t := Apply(s, ReadFails(0));
    var u := Apply(t, ReadErr(0));
    assert u.index.ops == ix.ops && u.readers == [];
    states := [s, t, u];
  }

  lemma WriteAnyway(s: State, ops: map<OpRef, Op>) returns (states: seq<State>)
    requires s == Broken(ops) && ops.Keys == {0}
    ensures Path(WritingAnyway(), states) && states[0] == s
    ensures var t := states[2];
            && Stranded(t, 0) && t.loop == Running && t.phases[0] == Waiting && t.index.ops[0] == ops[0]
  {
    var t := Apply(s, WriteOk(0));
    var u := Apply(t, ReqSent);
    states := [s, t, u];
  }

  // An accepted request whose sender then waits without being registered anywhere: the
  // connection breaks while it is being written, so that closing the handler skips it as
  // in flight, but its write still succeeds. Together with StrandedForever it is never
  // answered and its channel is never closed, not even by Close.
  lemma RequestStranded() returns (events: seq<Event>, states: seq<State>)
    ensures Run(0, events, states)
    ensures var s := states[|events|];
            && Stranded(s, 0) && s.loop == Running
            && s.phases[0] == Waiting && s.index.ops[0].resp == []
  {
    var a := SendIt();
    var b := BreakDown(a[2], a[2].index);
    PathJoin(Sending(), a, BreakingDown(), b);
    events, states := Sending() + BreakingDown(), a + b[1..];
    var c := WriteAnyway(b[2], b[2].index.ops);
    PathJoin(events, states, WritingAnyway(), c);
    events, states := events + WritingAnyway(), states + c[1..];
  }
}
