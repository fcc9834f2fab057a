// The client requests a handler waits for (rpc/handler.go): registration, removal,
// cancellation, and the routing of a batch of incoming messages to them.
module RequestIndex {
  import opened Wrappers
  import opened Messages

  // Identity of a requestOp object.
  type OpRef = nat

  type Batch = seq<Message>

  // A requestOp. waits is false for a notification, which has no channel; resp is the
  // history of the channel; starts counts the launches of the forwarding loop of the
  // subscription.
  datatype Op = Op(
    ids: seq<Raw>, waits: bool, isSub: bool, err: Option<JsonError>, hadResponse: bool,
    resp: seq<ChanEvent<Batch>>, starts: nat)

  // The map respWait of one handler together with all requestOp objects.
  datatype Index = Index(respWait: map<Raw, OpRef>, ops: map<OpRef, Op>)

  // An ID maps only to an operation that lists it, and Subscribe sends a single request.
  ghost predicate WellIndexed(ix: Index) {
    && (forall id :: id in ix.respWait ==>
          ix.respWait[id] in ix.ops && id in ix.ops[ix.respWait[id]].ids)
    && (forall o :: o in ix.ops && ix.ops[o].isSub ==> |ix.ops[o].ids| == 1)
  }

  function IdSet(ids: seq<Raw>): set<Raw> {
    set id | id in ids
  }

  // ---------- What each operation has to achieve ----------

  function Added(ix: Index, o: OpRef): Index
    requires o in ix.ops
  {
    ix.(respWait := ix.respWait + map id | id in ix.ops[o].ids :: o)
  }

  function Removed(ix: Index, o: OpRef): Index
    requires o in ix.ops
  {
    ix.(respWait := ix.respWait - IdSet(ix.ops[o].ids))
  }

  function Cancelled(op: Op, err: JsonError): Op {
    op.(err := Some(err), resp := op.resp + [Close])
  }

  // Every registered operation but the one in flight is told about the error, once, and
  // nothing stays registered.
  function AllCancelled(ix: Index, err: JsonError, inflight: Option<OpRef>): Index {
    Index(map[], map o | o in ix.ops ::
      if o in ix.respWait.Values && Some(o) != inflight then Cancelled(ix.ops[o], err) else ix.ops[o])
  }

  const BAD_SUBSCRIPTION_ID := JsonError(0, "cannot unmarshal subscription id")

  // A response to a Subscribe request: the error it keeps, and whether its forwarding loop
  // is launched. The subscription id is decoded by a partial function of the result.
  function SubscribeAnswered(op: Op, msg: Message, decodes: Raw -> bool): Op {
    if msg.error.Some? then op.(err := msg.error)
    else if msg.result.Some? && decodes(msg.result.value) then op.(err := None, starts := op.starts + 1)
    else op.(err := Some(BAD_SUBSCRIPTION_ID))
  }

  function Delivered(op: Op, batch: Batch): Op {
    if op.hadResponse then op else op.(hadResponse := true, resp := op.resp + [Send(batch)])
  }

  // The IDs answered by a batch, and the first answer to an ID.
  function ResponseIds(batch: Batch): set<Raw> {
    set m | m in batch && m.IsResponse() :: m.id.value
  }

  function FirstResponse(batch: Batch, id: Raw): Option<Message> {
    if batch == [] then None
    else
      var earlier := FirstResponse(batch[..|batch| - 1], id);
      var last := batch[|batch| - 1];
      if earlier.Some? then earlier
      else if last.IsResponse() && last.id == Some(id) then Some(last)
      else None
  }

  // The operations a batch answers.
  function Resolved(ix: Index, batch: Batch): set<OpRef> {
    set id | id in ix.respWait && id in ResponseIds(batch) :: ix.respWait[id]
  }

  // An operation after a batch that answers it.
  function Answered(op: Op, seen: Batch, batch: Batch, decodes: Raw -> bool): Op {
    var first := if op.isSub && |op.ids| == 1 then FirstResponse(seen, op.ids[0]) else None;
    Delivered(if first.Some? then SubscribeAnswered(op, first.value, decodes) else op, batch)
  }

  // An operation of the set asks for the ID.
  predicate Listed(ops: map<OpRef, Op>, os: set<OpRef>, id: Raw) {
    exists o :: o in os && o in ops && id in ops[o].ids
  }

  function OpRouted(ix: Index, o: OpRef, seen: Batch, batch: Batch, decodes: Raw -> bool): (op: Op)
    requires o in ix.ops
    ensures op.ids == ix.ops[o].ids && op.isSub == ix.ops[o].isSub && op.waits == ix.ops[o].waits
  {
    if o in Resolved(ix, seen) then Answered(ix.ops[o], seen, batch, decodes) else ix.ops[o]
  }

  // The state after a batch: the operations it answers get it, once, and lose all their
  // registrations; everything else is as before.
  function Routed(ix: Index, batch: Batch, decodes: Raw -> bool): Index {
    var resolved := Resolved(ix, batch);
    Index(
      map id | id in ix.respWait && !Listed(ix.ops, resolved, id) :: ix.respWait[id],
      map o | o in ix.ops :: OpRouted(ix, o, batch, batch, decodes))
  }

  // What is left for handleCall, in order.
  function CallsOf(batch: Batch): Batch {
    if batch == [] then []
    else
      var last := batch[|batch| - 1];
      CallsOf(batch[..|batch| - 1])
        + if last.IsResponse() || last.IsSubscriptionResult() then [] else [last]
  }

  lemma CallsOfSnoc(batch: Batch, msg: Message)
    ensures CallsOf(batch + [msg]) == CallsOf(batch) + if msg.IsResponse() || msg.IsSubscriptionResult() then [] else [msg]
  {
    assert (batch + [msg])[..|batch|] == batch;
  }

  // handleCall gets every message of the batch that is neither a response nor a
  // subscription result, as often and in the order in which they stand.
  lemma {:induction false} CallsInOrder(a: Batch, msg: Message, b: Batch)
    ensures CallsOf(a + b) == CallsOf(a) + CallsOf(b)
    ensures CallsOf([msg]) ==
            if msg.IsResponse() || (msg.IsNotification() && HasSuffix(msg.methodName, "_subscription")) then [] else [msg]
  {
    assert [msg][..0] == [];
    if b == [] {
      assert a + b == a;
    } else {
      CallsInOrder(a, msg, b[..|b| - 1]);
      assert (a + b)[..|a + b| - 1] == a + b[..|b| - 1];
    }
  }

  // No two operations ask for the same ID.
  ghost predicate DistinctIds(ops: map<OpRef, Op>) {
    forall o, p, id :: o in ops && p in ops && id in ops[o].ids && id in ops[p].ids ==> o == p
  }

  // The index invariant survives a batch.
  lemma RouterKeepsIndex(ix: Index, batch: Batch, decodes: Raw -> bool)
    requires WellIndexed(ix)
    ensures WellIndexed(Routed(ix, batch, decodes))
  {
    var r := Routed(ix, batch, decodes);
    forall o | o in ix.ops ensures r.ops[o].ids == ix.ops[o].ids && r.ops[o].isSub == ix.ops[o].isSub {
      assert r.ops[o] == OpRouted(ix, o, batch, batch, decodes);
    }
  }

  // An operation named in the batch is not waited for any more, under any of its IDs;
  // with distinct IDs all other registrations are untouched.
  lemma RouterDeregisters(ix: Index, batch: Batch, decodes: Raw -> bool)
    requires WellIndexed(ix)
    ensures forall o, id :: o in Resolved(ix, batch) && id in ix.ops[o].ids ==>
              id !in Routed(ix, batch, decodes).respWait
    ensures DistinctIds(ix.ops) ==>
              forall id :: id in ix.respWait && ix.respWait[id] !in Resolved(ix, batch) ==>
                id in Routed(ix, batch, decodes).respWait && Routed(ix, batch, decodes).respWait[id] == ix.respWait[id]
  {
    var resolved := Resolved(ix, batch);
    forall o, id | o in resolved && id in ix.ops[o].ids
      ensures id !in Routed(ix, batch, decodes).respWait
    {
      assert Listed(ix.ops, resolved, id);
    }
  }

  // Each operation named in the batch has an answer in it and gets the batch, unless it
  // was answered before; no other operation changes.
  lemma RouterDelivers(ix: Index, batch: Batch, decodes: Raw -> bool, o: OpRef)
    requires WellIndexed(ix) && o in ix.ops
    ensures var op, next := ix.ops[o], Routed(ix, batch, decodes).ops[o];
            if o in Resolved(ix, batch)
            then
              && (exists m :: m in batch && m.IsResponse() && m.id.value in op.ids)
              && next.hadResponse
              && next.resp == op.resp + if op.hadResponse then [] else [Send(batch)]
            else next == op
  {
    assert Routed(ix, batch, decodes).ops[o] == OpRouted(ix, o, batch, batch, decodes);
    if o in Resolved(ix, batch) {
      var id :| id in ix.respWait && id in ResponseIds(batch) && ix.respWait[id] == o;
      var m :| m in batch && m.IsResponse() && m.id.value == id;
      assert m.id.value in ix.ops[o].ids;
    }
  }

  // ---------- What a response means to its operation ----------

  // The k-th message is the first response under the ID.
  predicate FirstAt(batch: Batch, id: Raw, k: int) {
    && 0 <= k < |batch| && batch[k].IsResponse() && batch[k].id == Some(id)
    && forall j :: 0 <= j < k ==> !(batch[j].IsResponse() && batch[j].id == Some(id))
  }

  // The first response under the ID is a success with a subscription ID that can be read.
  ghost predicate Establishes(batch: Batch, id: Raw, decodes: Raw -> bool) {
    exists k :: FirstAt(batch, id, k) && batch[k].error == None && decodes(batch[k].result.value)
  }

  lemma {:induction false} FirstResponseAt(batch: Batch, id: Raw, k: nat)
    requires FirstAt(batch, id, k)
    ensures FirstResponse(batch, id) == Some(batch[k])
  {
    var front := batch[..|batch| - 1];
    if k < |batch| - 1 {
      assert forall j :: 0 <= j < k ==> front[j] == batch[j];
      FirstResponseAt(front, id, k);
    } else {
      FirstResponseExists(front, id);
    }
  }

  lemma {:induction false} FirstAtExists(batch: Batch, id: Raw) returns (k: nat)
    requires id in ResponseIds(batch)
    ensures FirstAt(batch, id, k)
  {
    var front := batch[..|batch| - 1];
    assert batch == front + [batch[|batch| - 1]];
    if id in ResponseIds(front) {
      k := FirstAtExists(front, id);
      assert forall j :: 0 <= j <= k ==> front[j] == batch[j];
    } else {
      k := |batch| - 1;
      assert forall j :: 0 <= j < k ==> batch[j] == front[j] && front[j] in front;
    }
  }

  lemma EstablishesAt(batch: Batch, id: Raw, decodes: Raw -> bool, k: nat)
    requires FirstAt(batch, id, k)
    ensures Establishes(batch, id, decodes) <==> batch[k].error == None && decodes(batch[k].result.value)
  {
    if Establishes(batch, id, decodes) {
      var j :| FirstAt(batch, id, j) && batch[j].error == None && decodes(batch[j].result.value);
      FirstAtUnique(batch, id, j, k);
    }
  }

  lemma FirstAtUnique(batch: Batch, id: Raw, j: int, k: int)
    requires FirstAt(batch, id, j) && FirstAt(batch, id, k)
    ensures j == k
  {
  }

  // A Subscribe operation named in a batch is decided by the first response under its ID:
  // the forwarding loop is launched, once, exactly if that is a success whose subscription
  // ID can be read, and then there is no error; otherwise the operation has an error, the
  // server's if it sent one.
  lemma SubscribeSettled(ix: Index, batch: Batch, decodes: Raw -> bool, o: OpRef, k: nat)
    requires WellIndexed(ix) && o in Resolved(ix, batch) && ix.ops[o].isSub
    requires FirstAt(batch, ix.ops[o].ids[0], k)
    ensures var op, next, m := ix.ops[o], Routed(ix, batch, decodes).ops[o], batch[k];
            && next.starts == op.starts + (if m.error == None && decodes(m.result.value) then 1 else 0)
            && (m.error.Some? ==> next.err == m.error)
            && (m.error == None && decodes(m.result.value) ==> next.err == None)
            && (m.error == None && !decodes(m.result.value) ==> next.err.Some?)
  {
    FirstResponseAt(batch, ix.ops[o].ids[0], k);
    assert Routed(ix, batch, decodes).ops[o] == OpRouted(ix, o, batch, batch, decodes);
  }

  // The error of any other operation, and its launches, are left alone.
  lemma OthersUndecided(ix: Index, batch: Batch, decodes: Raw -> bool, o: OpRef)
    requires WellIndexed(ix) && o in ix.ops && (!ix.ops[o].isSub || o !in Resolved(ix, batch))
    ensures var op, next := ix.ops[o], Routed(ix, batch, decodes).ops[o];
            next.err == op.err && next.starts == op.starts
  {
    assert Routed(ix, batch, decodes).ops[o] == OpRouted(ix, o, batch, batch, decodes);
  }

  // The operation waits for a response in the batch.
  ghost predicate NamedIn(ix: Index, batch: Batch, o: OpRef) {
    exists m :: m in batch && m.IsResponse() && m.id.value in ix.respWait && ix.respWait[m.id.value] == o
  }

  lemma NamedIsResolved(ix: Index, batch: Batch, o: OpRef)
    ensures o in Resolved(ix, batch) <==> NamedIn(ix, batch, o)
  {
    if NamedIn(ix, batch, o) {
      var m :| m in batch && m.IsResponse() && m.id.value in ix.respWait && ix.respWait[m.id.value] == o;
      assert m.id.value in ResponseIds(batch);
    }
  }

  // The same in terms of the batch as a whole.
  lemma EstablishedIff(ix: Index, batch: Batch, decodes: Raw -> bool, o: OpRef)
    requires WellIndexed(ix) && o in ix.ops
    ensures var op, next := ix.ops[o], Routed(ix, batch, decodes).ops[o];
            if op.isSub && NamedIn(ix, batch, o)
            then
              && next.starts == op.starts + (if Establishes(batch, op.ids[0], decodes) then 1 else 0)
              && (next.err == None <==> Establishes(batch, op.ids[0], decodes))
              && (forall k :: FirstAt(batch, op.ids[0], k) && batch[k].error.Some? ==> next.err == batch[k].error)
            else next.starts == op.starts && next.err == op.err
  {
    NamedIsResolved(ix, batch, o);
    if ix.ops[o].isSub && o in Resolved(ix, batch) {
      SubscribeOnce(ix, batch, o);
      var k := FirstAtExists(batch, ix.ops[o].ids[0]);
      SubscribeSettled(ix, batch, decodes, o, k);
      EstablishesAt(batch, ix.ops[o].ids[0], decodes, k);
      forall j | FirstAt(batch, ix.ops[o].ids[0], j) ensures j == k {
        FirstAtUnique(batch, ix.ops[o].ids[0], j, k);
      }
    } else {
      OthersUndecided(ix, batch, decodes, o);
    }
  }

  // ---------- The handler ----------

  class Handler {
    var respWait: map<Raw, OpRef>
    // The requestOp objects, which outlive the handler.
    var ops: map<OpRef, Op>

    ghost function State(): Index
      reads this
    {
      Index(respWait, ops)
    }

    constructor (ops: map<OpRef, Op>)
      ensures State() == Index(map[], ops)
    {
      this.respWait, this.ops := map[], ops;
    }

    method AddRequestOp(o: OpRef)
      requires o in ops
      modifies this`respWait
      ensures State() == Added(old(State()), o)
    {
      var ids := ops[o].ids;
      for k := 0 to |ids|
        invariant respWait == old(respWait) + map id | id in ids[..k] :: o
      {
        respWait := respWait[ids[k] := o];
        assert ids[..k + 1] == ids[..k] + [ids[k]];
      }
      assert ids[..|ids|] == ids;
    }

    method RemoveRequestOp(o: OpRef)
      requires o in ops
      modifies this`respWait
      ensures State() == Removed(old(State()), o)
    {
      var ids := ops[o].ids;
      for k := 0 to |ids|
        invariant respWait == old(respWait) - IdSet(ids[..k])
      {
        respWait := respWait - {ids[k]};
        assert ids[..k + 1] == ids[..k] + [ids[k]];
      }
      assert ids[..|ids|] == ids;
    }

    // The map is walked in an arbitrary order; didClose keeps an operation with several
    // IDs from being closed again.
    method CancelAllRequests(err: JsonError, inflightReq: Option<OpRef>)
      requires WellIndexed(State())
      modifies this
      ensures State() == AllCancelled(old(State()), err, inflightReq)
    {
      ghost var start, closed := State(), {};
      var didClose := if inflightReq.Some? then {inflightReq.value} else {};
      while respWait != map[]
        invariant Cancelling(start, State(), closed, err, inflightReq)
        invariant forall o :: o in didClose <==> o in closed || Some(o) == inflightReq
        decreases |respWait|
      {
        var id :| id in respWait;
        var o := respWait[id];
        CancelStep(start, State(), closed, err, inflightReq, id);
        respWait := respWait - {id};
        if o !in didClose {
          ops := ops[o := Cancelled(ops[o], err)];
          closed := closed + {o};
          didClose := didClose + {o};
        }
      }
      CancelEnd(start, State(), closed, err, inflightReq);
    }

    // One response: unsolicited ones change nothing.
    method HandleResp(msg: Message, batch: Batch, decodes: Raw -> bool) returns (o: Option<OpRef>)
      requires WellIndexed(State()) && msg.IsResponse()
      modifies this
      ensures o == if msg.id.value in old(respWait) then Some(old(respWait)[msg.id.value]) else None
      ensures State() == OneResponse(old(State()), msg, batch, decodes)
    {
      if msg.id.value !in respWait {
        return None;
      }
      var op := respWait[msg.id.value];
      o := Some(op);
      respWait := respWait - {msg.id.value};
      if ops[op].isSub {
        if msg.error.Some? {
          ops := ops[op := ops[op].(err := msg.error)];
        } else if !decodes(msg.result.value) {
          ops := ops[op := ops[op].(err := Some(BAD_SUBSCRIPTION_ID))];
        } else {
          ops := ops[op := ops[op].(err := None, starts := ops[op].starts + 1)];
        }
      }
      if !ops[op].hadResponse {
        ops := ops[op := ops[op].(hadResponse := true, resp := ops[op].resp + [Send(batch)])];
      }
    }

    // The loop over the batch; the operations found stay to be deregistered.
    method MatchResponses(batch: Batch, decodes: Raw -> bool) returns (resolvedops: seq<OpRef>, calls: Batch)
      requires WellIndexed(State())
      modifies this
      ensures HalfRouted(old(State()), batch, batch, decodes, State(), resolvedops)
      ensures calls == CallsOf(batch)
    {
      resolvedops, calls := [], [];
      HalfStart(State(), batch, decodes);
      for k := 0 to |batch|
        invariant HalfRouted(old(State()), batch[..k], batch, decodes, State(), resolvedops)
        invariant calls == CallsOf(batch[..k])
      {
        var msg := batch[k];
        KeepsShape(old(State()), batch[..k], batch, decodes, State(), resolvedops);
        if msg.IsResponse() && msg.id.value in respWait {
          HalfHit(old(State()), batch[..k], msg, batch, decodes, State(), resolvedops);
        } else {
          HalfMiss(old(State()), batch[..k], msg, batch, decodes, State(), resolvedops);
        }
        assert batch[..k + 1] == batch[..k] + [msg];
        CallsOfSnoc(batch[..k], msg);
        if msg.IsResponse() {
          var o := HandleResp(msg, batch, decodes);
          if o.Some? {
            resolvedops := resolvedops + [o.value];
          }
        } else if !msg.IsSubscriptionResult() {
          calls := calls + [msg];
        }
      }
      assert batch[..|batch|] == batch;
    }

    // calls are the messages handed to handleCall.
    method HandleResponses(batch: Batch, decodes: Raw -> bool) returns (calls: Batch)
      requires WellIndexed(State())
      modifies this
      ensures State() == Routed(old(State()), batch, decodes)
      ensures calls == CallsOf(batch)
    {
      var resolvedops;
      resolvedops, calls := MatchResponses(batch, decodes);
      ghost var half := State();
      HalfEnd(old(State()), batch, decodes, half, resolvedops);
      RemoveAll(resolvedops);
    }

    method RemoveAll(resolvedops: seq<OpRef>)
      requires forall o :: o in resolvedops ==> o in ops
      modifies this`respWait
      ensures respWait == WithoutIds(old(State()), resolvedops)
    {
      for k := 0 to |resolvedops|
        invariant forall id :: id in respWait <==> id in WithoutIds(old(State()), resolvedops[..k])
        invariant forall id :: id in respWait ==> respWait[id] == old(respWait)[id]
      {
        assert resolvedops[k] in resolvedops;
        RemoveRequestOp(resolvedops[k]);
        assert resolvedops[..k + 1] == resolvedops[..k] + [resolvedops[k]];
      }
      assert resolvedops[..|resolvedops|] == resolvedops;
    }
  }

  function OneResponse(ix: Index, msg: Message, batch: Batch, decodes: Raw -> bool): Index
    requires msg.IsResponse()
    requires msg.id.value in ix.respWait ==> ix.respWait[msg.id.value] in ix.ops
  {
    if msg.id.value !in ix.respWait then ix
    else
      var o := ix.respWait[msg.id.value];
      var op := ix.ops[o];
      var op' := Delivered(if op.isSub then SubscribeAnswered(op, msg, decodes) else op, batch);
      Index(ix.respWait - {msg.id.value}, ix.ops[o := op'])
  }

  // The registrations no operation of the list asks to remove.
  function WithoutIds(ix: Index, os: seq<OpRef>): map<Raw, OpRef> {
    map id | id in ix.respWait && !Listed(ix.ops, (set o | o in os), id) :: ix.respWait[id]
  }

  // Part way through a batch.
  ghost predicate HalfRouted(
    start: Index, seen: Batch, batch: Batch, decodes: Raw -> bool, ix: Index, resolved: seq<OpRef>)
  {
    && WellIndexed(start)
    && ix.respWait == start.respWait - ResponseIds(seen)
    && (set o | o in resolved) == Resolved(start, seen)
    && ix.ops.Keys == start.ops.Keys
    && (forall o :: o in start.ops ==> ix.ops[o] == OpRouted(start, o, seen, batch, decodes))
  }

  lemma HalfStart(start: Index, batch: Batch, decodes: Raw -> bool)
    requires WellIndexed(start)
    ensures HalfRouted(start, batch[..0], batch, decodes, start, [])
  {
    assert ResponseIds(batch[..0]) == {};
  }

  lemma {:induction false} FirstResponseExists(batch: Batch, id: Raw)
    ensures FirstResponse(batch, id).Some? <==> id in ResponseIds(batch)
  {
    if batch != [] {
      FirstResponseExists(batch[..|batch| - 1], id);
      assert batch == batch[..|batch| - 1] + [batch[|batch| - 1]];
    }
  }

  function FirstOf(seen: Batch, msg: Message, id: Raw): Option<Message> {
    if id in ResponseIds(seen) then FirstResponse(seen, id)
    else if msg.IsResponse() && msg.id == Some(id) then Some(msg)
    else None
  }

  lemma SeenOneMore(start: Index, seen: Batch, msg: Message)
    ensures ResponseIds(seen + [msg]) ==
            ResponseIds(seen) + if msg.IsResponse() then {msg.id.value} else {}
    ensures Resolved(start, seen + [msg]) == Resolved(start, seen)
      + if msg.IsResponse() && msg.id.value in start.respWait then {start.respWait[msg.id.value]} else {}
    ensures forall id :: FirstResponse(seen + [msg], id) == FirstOf(seen, msg, id)
  {
    assert (seen + [msg])[..|seen|] == seen;
    forall id {
      FirstResponseExists(seen, id);
    }
  }

  // A Subscribe operation that has been answered is not registered any more.
  lemma SubscribeOnce(start: Index, seen: Batch, o: OpRef)
    requires WellIndexed(start) && o in start.ops && start.ops[o].isSub
    requires o in Resolved(start, seen)
    ensures start.ops[o].ids[0] in ResponseIds(seen)
    ensures forall id :: id in start.respWait && start.respWait[id] == o ==> id in ResponseIds(seen)
  {
    var id :| id in start.respWait && id in ResponseIds(seen) && start.respWait[id] == o;
  }

  // The entry of one operation after a message that is not a response to it.
  lemma OpUnaffected(start: Index, seen: Batch, msg: Message, batch: Batch, decodes: Raw -> bool, o: OpRef)
    requires WellIndexed(start) && o in start.ops
    requires !(msg.IsResponse() && msg.id.value in start.respWait - ResponseIds(seen)
               && start.respWait[msg.id.value] == o)
    ensures OpRouted(start, o, seen + [msg], batch, decodes) == OpRouted(start, o, seen, batch, decodes)
  {
    SeenOneMore(start, seen, msg);
    assert o in Resolved(start, seen + [msg]) <==> o in Resolved(start, seen) by {
      if msg.IsResponse() && msg.id.value in ResponseIds(seen) && msg.id.value in start.respWait {
        assert start.respWait[msg.id.value] in Resolved(start, seen);
      }
    }
    if o in Resolved(start, seen) && start.ops[o].isSub {
      SubscribeOnce(start, seen, o);
    }
  }

  // The entry of the operation a response matches.
  lemma OpAnswered(start: Index, seen: Batch, msg: Message, batch: Batch, decodes: Raw -> bool, o: OpRef)
    requires WellIndexed(start) && o in start.ops && msg.IsResponse()
    requires msg.id.value in start.respWait && start.respWait[msg.id.value] == o
    requires msg.id.value !in ResponseIds(seen)
    ensures
      var op := OpRouted(start, o, seen, batch, decodes);
      OpRouted(start, o, seen + [msg], batch, decodes)
      == Delivered(if op.isSub then SubscribeAnswered(op, msg, decodes) else op, batch)
  {
    SeenOneMore(start, seen, msg);
    if o in Resolved(start, seen) && start.ops[o].isSub {
      SubscribeOnce(start, seen, o);
    }
  }

  lemma HalfMiss(
    start: Index, seen: Batch, msg: Message, batch: Batch, decodes: Raw -> bool, ix: Index, resolved: seq<OpRef>)
    requires HalfRouted(start, seen, batch, decodes, ix, resolved)
    requires !(msg.IsResponse() && msg.id.value in ix.respWait)
    ensures HalfRouted(start, seen + [msg], batch, decodes, ix, resolved)
  {
    SeenOneMore(start, seen, msg);
    forall o | o in start.ops
      ensures OpRouted(start, o, seen + [msg], batch, decodes) == OpRouted(start, o, seen, batch, decodes)
    {
      OpUnaffected(start, seen, msg, batch, decodes, o);
    }
    if msg.IsResponse() && msg.id.value in start.respWait {
      assert start.respWait[msg.id.value] in Resolved(start, seen);
    }
  }

  lemma HalfHit(
    start: Index, seen: Batch, msg: Message, batch: Batch, decodes: Raw -> bool, ix: Index, resolved: seq<OpRef>)
    requires HalfRouted(start, seen, batch, decodes, ix, resolved)
    requires msg.IsResponse() && msg.id.value in ix.respWait
    ensures ix.respWait[msg.id.value] in ix.ops
    ensures HalfRouted(start, seen + [msg], batch, decodes, OneResponse(ix, msg, batch, decodes),
              resolved + [ix.respWait[msg.id.value]])
  {
    SeenOneMore(start, seen, msg);
    var hit := ix.respWait[msg.id.value];
    OpAnswered(start, seen, msg, batch, decodes, hit);
    forall o | o in start.ops && o != hit
      ensures OpRouted(start, o, seen + [msg], batch, decodes) == OpRouted(start, o, seen, batch, decodes)
    {
      OpUnaffected(start, seen, msg, batch, decodes, o);
    }
  }

  lemma KeepsShape(
    start: Index, seen: Batch, batch: Batch, decodes: Raw -> bool, ix: Index, resolved: seq<OpRef>)
    requires HalfRouted(start, seen, batch, decodes, ix, resolved)
    ensures WellIndexed(ix)
    ensures forall o :: o in start.ops ==> ix.ops[o].ids == start.ops[o].ids && ix.ops[o].isSub == start.ops[o].isSub
  {
  }

  // What the removals at the end leave registered: an ID answered by the batch belongs to
  // one of the operations found.
  lemma HalfEnd(start: Index, batch: Batch, decodes: Raw -> bool, half: Index, resolved: seq<OpRef>)
    requires HalfRouted(start, batch, batch, decodes, half, resolved)
    ensures Routed(start, batch, decodes) == Index(WithoutIds(half, resolved), half.ops)
    ensures forall o :: o in resolved ==> o in half.ops
  {
    KeepsShape(start, batch, batch, decodes, half, resolved);
    var os := Resolved(start, batch);
    forall id | id in start.respWait
      ensures Listed(start.ops, os, id) == Listed(half.ops, os, id)
      ensures id in ResponseIds(batch) ==> Listed(start.ops, os, id)
    {
      if id in ResponseIds(batch) {
        assert start.respWait[id] in os;
      }
    }
    assert Routed(start, batch, decodes).respWait == WithoutIds(half, resolved);
    assert Routed(start, batch, decodes).ops == half.ops;
    forall o | o in resolved ensures o in half.ops {
      assert o in os;
    }
  }

  // ---------- Cancellation, part way ----------

  function WithClosed(ops: map<OpRef, Op>, closed: set<OpRef>, err: JsonError): map<OpRef, Op> {
    map o | o in ops :: if o in closed then Cancelled(ops[o], err) else ops[o]
  }

  // Part way through the map: the operations in closed have been told, and they are those
  // met so far, but for the one in flight.
  ghost predicate Cancelling(
    start: Index, ix: Index, closed: set<OpRef>, err: JsonError, inflight: Option<OpRef>)
  {
    && WellIndexed(start)
    && (forall id :: id in ix.respWait ==> id in start.respWait && ix.respWait[id] == start.respWait[id])
    && (forall o :: o in closed ==> o in start.respWait.Values && Some(o) != inflight)
    && (forall id :: id in start.respWait && id !in ix.respWait ==>
          start.respWait[id] in closed || Some(start.respWait[id]) == inflight)
    && ix.ops == WithClosed(start.ops, closed, err)
  }

  lemma CancelStep(
    start: Index, ix: Index, closed: set<OpRef>, err: JsonError, inflight: Option<OpRef>, id: Raw)
    requires Cancelling(start, ix, closed, err, inflight) && id in ix.respWait
    ensures ix.respWait[id] in ix.ops
    ensures var o, rest := ix.respWait[id], ix.respWait - {id};
            if o in closed || Some(o) == inflight
            then Cancelling(start, Index(rest, ix.ops), closed, err, inflight)
            else Cancelling(start, Index(rest, ix.ops[o := Cancelled(ix.ops[o], err)]), closed + {o}, err, inflight)
  {
    var o := ix.respWait[id];
    assert start.respWait[id] == o;
    if !(o in closed || Some(o) == inflight) {
      assert ix.ops[o := Cancelled(ix.ops[o], err)] == WithClosed(start.ops, closed + {o}, err);
    }
  }

  lemma CancelEnd(
    start: Index, ix: Index, closed: set<OpRef>, err: JsonError, inflight: Option<OpRef>)
    requires Cancelling(start, ix, closed, err, inflight) && ix.respWait == map[]
    ensures ix == AllCancelled(start, err, inflight)
  {
    forall o ensures o in closed <==> o in start.respWait.Values && Some(o) != inflight {
      if o in start.respWait.Values && Some(o) != inflight {
        var id :| id in start.respWait && start.respWait[id] == o;
        assert id !in ix.respWait;
      }
    }
  }
}
