// What each step of the dispatch loop does to the channel, the error and the forwarding
// loop of an operation: exactly when it is answered, closed or started.
module Channels {
  import opened Wrappers
  import opened Messages
  import opened RequestIndex
  import opened Dispatch
  import opened DispatchSafety

  // A batch within the limit on its size is handled in the step.
  predicate Handles(s: State, e: Event) {
    && e.ReadOp? && Got(s, e.r) && s.readers[e.r].got.value.Msgs?
    && (s.batchRequestLimit == 0 || |s.readers[e.r].got.value.batch| <= s.batchRequestLimit)
  }

  function BatchOf(s: State, e: Event): Batch
    requires Handles(s, e)
  {
    s.readers[e.r].got.value.batch
  }

  // The handler that waits for the operation is closed in the step, and the operation is
  // not spared as the one in flight.
  ghost predicate Closes(s: State, e: Event, o: OpRef) {
    && Registered(s.index, o)
    && (if e.Quit? then s.reading else (e.ReadErr? || (e.Reconnect? && s.reading)) && s.lastOp != Some(o))
  }

  function Cause(e: Event): JsonError {
    if e.Quit? then CLIENT_QUIT else if e.ReadErr? then READ_ERROR else RECONNECTED
  }

  ghost predicate AnsweredIn(s: State, e: Event, o: OpRef) {
    Handles(s, e) && NamedIn(s.index, BatchOf(s, e), o)
  }

  // A value is sent, or the channel closed.
  ghost predicate ChannelStep(s: State, e: Event, op: Op, next: Op, o: OpRef) {
    && next.ids == op.ids && next.waits == op.waits && next.isSub == op.isSub
    && next.resp == op.resp
         + (if AnsweredIn(s, e, o) && !op.hadResponse then [Send(BatchOf(s, e))]
            else if Closes(s, e, o) then [Close] else [])
    && (next.hadResponse <==> op.hadResponse || AnsweredIn(s, e, o))
  }

  // The error of the operation, and its forwarding loop.
  ghost predicate OutcomeStep(s: State, e: Event, op: Op, next: Op, o: OpRef) {
    if op.isSub && |op.ids| == 1 && AnsweredIn(s, e, o) then
      && next.starts == op.starts + (if Establishes(BatchOf(s, e), op.ids[0], e.decodes) then 1 else 0)
      && (next.err == None <==> Establishes(BatchOf(s, e), op.ids[0], e.decodes))
      && (forall k :: FirstAt(BatchOf(s, e), op.ids[0], k) && BatchOf(s, e)[k].error.Some? ==>
            next.err == BatchOf(s, e)[k].error)
    else
      next.starts == op.starts && next.err == if Closes(s, e, o) then Some(Cause(e)) else op.err
  }

  // What happens to an operation in one step.
  ghost predicate OpStep(s: State, e: Event, t: State, o: OpRef) {
    && o in s.index.ops && o in t.index.ops
    && ChannelStep(s, e, s.index.ops[o], t.index.ops[o], o)
    && OutcomeStep(s, e, s.index.ops[o], t.index.ops[o], o)
  }

  lemma UntouchedStep(s: State, e: Event, t: State, o: OpRef)
    requires o in s.index.ops && o in t.index.ops && t.index.ops[o] == s.index.ops[o]
    requires !AnsweredIn(s, e, o) && !Closes(s, e, o)
    ensures OpStep(s, e, t, o)
  {
  }

  lemma RoutedStep(ix: Index, batch: Batch, decodes: Raw -> bool, o: OpRef)
    requires WellIndexed(ix) && o in ix.ops
    ensures o in Routed(ix, batch, decodes).ops
    ensures var op, next, named := ix.ops[o], Routed(ix, batch, decodes).ops[o], NamedIn(ix, batch, o);
            && next.ids == op.ids && next.waits == op.waits && next.isSub == op.isSub
            && next.resp == op.resp + (if named && !op.hadResponse then [Send(batch)] else [])
            && (next.hadResponse <==> op.hadResponse || named)
  {
    NamedIsResolved(ix, batch, o);
    RouterDelivers(ix, batch, decodes, o);
    assert Routed(ix, batch, decodes).ops[o] == OpRouted(ix, o, batch, batch, decodes);
  }

  lemma ReadStep(s: State, r: nat, decodes: Raw -> bool, o: OpRef)
    requires Inv(s) && Enabled(s, ReadOp(r, decodes)) && o in s.index.ops
    ensures OpStep(s, ReadOp(r, decodes), Apply(s, ReadOp(r, decodes)), o)
  {
    RoutedStep(s.index, s.readers[r].got.value.batch, decodes, o);
    EstablishedIff(s.index, s.readers[r].got.value.batch, decodes, o);
  }

  lemma CancelledStep(ix: Index, err: JsonError, inflight: Option<OpRef>, o: OpRef)
    requires o in ix.ops
    ensures var op, next := ix.ops[o], AllCancelled(ix, err, inflight).ops[o];
            next == if Registered(ix, o) && Some(o) != inflight then op.(err := Some(err), resp := op.resp + [Close]) else op
  {
    assert o in ix.respWait.Values <==> Registered(ix, o);
  }

  lemma QuitStep(s: State, o: OpRef)
    requires Inv(s) && Enabled(s, Quit) && o in s.index.ops
    ensures OpStep(s, Quit, Apply(s, Quit), o)
  {
    CancelledStep(s.index, CLIENT_QUIT, None, o);
  }

  lemma ReadErrStep(s: State, r: nat, o: OpRef)
    requires Inv(s) && Enabled(s, ReadErr(r)) && o in s.index.ops
    ensures OpStep(s, ReadErr(r), Apply(s, ReadErr(r)), o)
  {
    CancelledStep(s.index, READ_ERROR, s.lastOp, o);
  }

  lemma ReconnectStep(s: State, p: OpRef, o: OpRef)
    requires Inv(s) && Enabled(s, Reconnect(p)) && o in s.index.ops
    ensures OpStep(s, Reconnect(p), Apply(s, Reconnect(p)), o)
  {
    CancelledStep(s.index, RECONNECTED, s.lastOp, o);
  }

  lemma OtherStep(s: State, e: Event, o: OpRef)
    requires Inv(s) && Enabled(s, e) && o in s.index.ops
    requires !e.Quit? && !e.ReadErr? && !e.Reconnect? && !e.ReadOp?
    ensures o in Apply(s, e).index.ops && Apply(s, e).index.ops[o] == s.index.ops[o]
  {
  }

  lemma StepExactly(s: State, e: Event, t: State, o: OpRef)
    requires Inv(s) && Next(s, e, t) && o in s.index.ops
    ensures OpStep(s, e, t, o)
  {
    if e.ReadOp? {
      ReadStep(s, e.r, e.decodes, o);
    } else if e.Quit? {
      QuitStep(s, o);
    } else if e.ReadErr? {
      ReadErrStep(s, e.r, o);
    } else if e.Reconnect? {
      ReconnectStep(s, e.o, o);
    } else {
      OtherStep(s, e, o);
      UntouchedStep(s, e, t, o);
    }
  }

  // In every step of every run, for every operation: a value is sent exactly if the batch
  // handled has a response the handler waits for on its behalf and it had none; its channel
  // is closed, with the cause as its error, exactly if the handler that waits for it is
  // closed; the loop of a subscription is launched exactly by a success whose ID can be
  // read, which alone leaves it without error.
  lemma ChannelsExactly(limit: nat, events: seq<Event>, states: seq<State>, k: nat, o: OpRef)
    requires Run(limit, events, states) && k < |events| && o in states[k].index.ops
    ensures OpStep(states[k], events[k], states[k + 1], o)
  {
    RunInv(limit, events, states, k);
    StepExactly(states[k], events[k], states[k + 1], o);
  }

  // ---------- Reading ----------

  predicate Consumes(e: Event) {
    e.ReadOp? || e.DrainMsg?
  }

  // The list has been read, and nothing has been taken from the read loop since.
  ghost predicate ReadLast(events: seq<Event>, k: nat, i: int, batch: Batch)
    requires k <= |events|
  {
    0 <= i < k && events[i] == Read(0, batch) && forall j :: i < j < k ==> !Consumes(events[j])
  }

  // The read loop has a list to hand over.
  predicate Offers(s: State) {
    s.readers != [] && s.readers[0].got.Some? && s.readers[0].got.value.Msgs?
  }

  predicate TakesOffer(e: Event) {
    e.ReadOp? || e.DrainMsg? || e.ReadErr? || e.DrainErr?
  }

  lemma NothingOffered(s: State, e: Event)
    requires Inv(s) && Enabled(s, e) && TakesOffer(e)
    ensures !Offers(Apply(s, e))
  {
  }

  lemma OfferedByDispatch(s: State, e: Event)
    requires Inv(s) && Enabled(s, e) && ByDispatch(e) && !TakesOffer(e) && Offers(Apply(s, e))
    ensures Offers(s) && Apply(s, e).readers[0].got == s.readers[0].got
  {
  }

  lemma OfferedOutside(s: State, e: Event)
    requires Inv(s) && Enabled(s, e) && !ByDispatch(e) && Offers(Apply(s, e))
    ensures !Consumes(e)
    ensures if e.Read? then e == Read(0, Apply(s, e).readers[0].got.value.batch)
            else Offers(s) && Apply(s, e).readers[0].got == s.readers[0].got
  {
  }

  lemma OffersStep(s: State, e: Event, t: State)
    requires Inv(s) && Next(s, e, t) && Offers(t)
    ensures !Consumes(e)
    ensures e == Read(0, t.readers[0].got.value.batch) || (Offers(s) && t.readers[0].got == s.readers[0].got)
  {
    if TakesOffer(e) {
      NothingOffered(s, e);
    } else if ByDispatch(e) {
      OfferedByDispatch(s, e);
    } else {
      OfferedOutside(s, e);
    }
  }

  lemma {:induction false} OfferedWasRead(limit: nat, events: seq<Event>, states: seq<State>, k: nat) returns (i: nat)
    requires Run(limit, events, states) && k < |states| && Offers(states[k])
    ensures ReadLast(events, k, i, states[k].readers[0].got.value.batch)
  {
    assert k > 0;
    RunInv(limit, events, states, k - 1);
    OffersStep(states[k - 1], events[k - 1], states[k]);
    if events[k - 1] == Read(0, states[k].readers[0].got.value.batch) {
      i := k - 1;
    } else {
      i := OfferedWasRead(limit, events, states, k - 1);
    }
  }

  // In every run, a message list that is handled has been read, and is handled once.
  lemma HandledOnce(limit: nat, events: seq<Event>, states: seq<State>, k: nat) returns (i: nat)
    requires Run(limit, events, states) && k < |events| && events[k].ReadOp?
    ensures Offers(states[k]) && events[k].r == 0
    ensures ReadLast(events, k, i, states[k].readers[0].got.value.batch)
  {
    RunInv(limit, events, states, k);
    assert Next(states[k], events[k], states[k + 1]);
    i := OfferedWasRead(limit, events, states, k);
  }
}
