// The promises of the client's dispatch loop, over all runs.
module DispatchTheorems {
  import opened Wrappers
  import opened Messages
  import opened RequestIndex
  import opened Dispatch
  import opened DispatchSafety

  // ---------- Safety ----------

  // The response channel of every operation, in every state of every run: at most one
  // value, which therefore fits its buffer; at most one close; nothing after the close. A
  // value sent contains a response to the operation, and a closed one has its error set,
  // so that no caller looks into an empty list.
  lemma ResponseChannels(limit: nat, events: seq<Event>, states: seq<State>, k: nat, o: OpRef)
    requires Run(limit, events, states) && k < |states| && o in states[k].index.ops
    ensures var op := states[k].index.ops[o];
            && AtMostOneSendThenClose(op.resp)
            && (forall i :: 0 <= i < |op.resp| ==>
                  match op.resp[i]
                  case Send(batch) => RespondsTo(batch, op.ids)
                  case Close => op.err.Some?)
  {
    RunInv(limit, events, states, k);
    assert OpInv(states[k].index.ops[o]);
  }

  // The write lock, for any number of senders: one writer at a time, which finds the slot
  // of reqSent free when it is done; whoever offers a new connection is the operation in
  // flight, so that registering it never dereferences nil.
  lemma WriteLock(limit: nat, events: seq<Event>, states: seq<State>, k: nat, o: OpRef, p: OpRef)
    requires Run(limit, events, states) && k < |states|
    requires o in states[k].phases && InWrite(states[k].phases[o])
    ensures var s := states[k];
            && (p in s.phases && InWrite(s.phases[p]) ==> o == p)
            && s.lastOp == Some(o) && !s.reqInitOpen && s.reqSent == []
            && s.loop != Panicked
  {
    RunInv(limit, events, states, k);
  }

  lemma LockFree(limit: nat, events: seq<Event>, states: seq<State>, k: nat)
    requires Run(limit, events, states) && k < |states|
    ensures var s := states[k];
            && (s.reqInitOpen <==> s.lastOp == None)
            && |s.reqSent| <= 1 && s.loop != Panicked
  {
    RunInv(limit, events, states, k);
  }

  // Read loops: one while reading, none otherwise; drainRead always has a partner; and a
  // message read from one connection is only handled by that connection's handler.
  lemma ReadLoops(limit: nat, events: seq<Event>, states: seq<State>, k: nat)
    requires Run(limit, events, states) && k < |states|
    ensures var s := states[k];
            && (s.loop != Stopped ==> |s.readers| == if s.reading then 1 else 0)
            && (s.loop == Stopped ==> s.readers == [])
            && (s.loop.Draining? || s.loop == Quitting ==> |s.readers| == 1)
            && (forall r :: 0 <= r < |s.readers| ==> s.readers[r].codec == s.conn)
            && (forall i :: 0 <= i < |s.handled| ==> s.handled[i].0 == s.handled[i].1)
  {
    RunInv(limit, events, states, k);
  }

  // ---------- The request being written ----------

  ghost predicate RegisteredFully(ix: Index, o: OpRef) {
    o in ix.ops && forall id :: id in ix.ops[o].ids ==> id in ix.respWait && ix.respWait[id] == o
  }

  // As long as a request is being written and has no response, the handler of the
  // connection being read waits for it under all its IDs.
  ghost predicate InFlightInv(s: State) {
    s.loop == Running && s.reading && s.lastOp.Some? && s.lastOp.value in s.phases
    && InWrite(s.phases[s.lastOp.value])
    && s.lastOp.value in s.index.ops && !s.index.ops[s.lastOp.value].hadResponse
    ==> RegisteredFully(s.index, s.lastOp.value)
  }

  lemma RoutedRegistration(ix: Index, batch: Batch, decodes: Raw -> bool, o: OpRef)
    requires IndexInv(ix) && DistinctIds(ix.ops) && RegisteredFully(ix, o)
    ensures o in Routed(ix, batch, decodes).ops
    ensures Routed(ix, batch, decodes).ops[o].hadResponse || RegisteredFully(Routed(ix, batch, decodes), o)
  {
    RoutedKeys(ix, batch, decodes);
    RouterDelivers(ix, batch, decodes, o);
    RouterDeregisters(ix, batch, decodes);
  }

  lemma RoutedNotEarlier(ix: Index, batch: Batch, decodes: Raw -> bool, o: OpRef)
    requires IndexInv(ix) && o in ix.ops && ix.ops[o].hadResponse
    ensures o in Routed(ix, batch, decodes).ops && Routed(ix, batch, decodes).ops[o].hadResponse
  {
    RoutedKeys(ix, batch, decodes);
    RouterDelivers(ix, batch, decodes, o);
  }

  lemma InFlightRead(s: State, r: nat, decodes: Raw -> bool)
    requires Inv(s) && InFlightInv(s) && Enabled(s, ReadOp(r, decodes)) && DistinctIds(s.index.ops)
    ensures InFlightInv(Apply(s, ReadOp(r, decodes)))
  {
    if s.lastOp.Some? && s.lastOp.value in s.index.ops {
      var batch, o := s.readers[r].got.value.batch, s.lastOp.value;
      if s.index.ops[o].hadResponse {
        RoutedNotEarlier(s.index, batch, decodes, o);
      } else if RegisteredFully(s.index, o) {
        RoutedRegistration(s.index, batch, decodes, o);
      }
    }
  }

  // The steps in which a handler is closed or replaced.
  predicate Closing(e: Event) {
    e.Reconnect? || e.ReadErr? || e.DrainErr? || e.Quit?
  }

  // The step sets up the handler of a new connection.
  predicate Attaches(s: State, e: Event) {
    (e.Reconnect? && !s.reading) || (e.DrainErr? && s.loop.Draining?)
  }

  lemma InFlightClosing(s: State, e: Event)
    requires Inv(s) && InFlightInv(s) && Enabled(s, e) && Closing(e) && DistinctIds(s.index.ops)
    ensures InFlightInv(Apply(s, e))
  {
  }

  lemma InFlightDispatch(s: State, e: Event)
    requires Inv(s) && InFlightInv(s) && Enabled(s, e) && DistinctIds(s.index.ops)
    requires ByDispatch(e) && !e.ReadOp? && !Closing(e)
    ensures InFlightInv(Apply(s, e))
  {
  }

  lemma InFlightOutside(s: State, e: Event)
    requires Inv(s) && InFlightInv(s) && Enabled(s, e) && !ByDispatch(e)
    ensures InFlightInv(Apply(s, e))
  {
  }

  // The registrations follow the request through reconnects. Distinct IDs are the client's
  // counter not wrapping around within the life of a request.
  lemma {:induction false} InFlightRegistered(limit: nat, events: seq<Event>, states: seq<State>, k: nat)
    requires Run(limit, events, states) && k < |states|
    requires forall i :: 0 <= i < |states| ==> DistinctIds(states[i].index.ops)
    ensures InFlightInv(states[k])
  {
    if k > 0 {
      InFlightRegistered(limit, events, states, k - 1);
      RunInv(limit, events, states, k - 1);
      assert Next(states[k - 1], events[k - 1], states[k]);
      if events[k - 1].ReadOp? {
        InFlightRead(states[k - 1], events[k - 1].r, events[k - 1].decodes);
      } else if Closing(events[k - 1]) {
        InFlightClosing(states[k - 1], events[k - 1]);
      } else if ByDispatch(events[k - 1]) {
        InFlightDispatch(states[k - 1], events[k - 1]);
      } else {
        InFlightOutside(states[k - 1], events[k - 1]);
      }
    }
  }
}
