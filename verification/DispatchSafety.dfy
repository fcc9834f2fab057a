// What holds in every run of the dispatch loop.
module DispatchSafety {
  import opened Wrappers
  import opened Messages
  import opened RequestIndex
  import opened Dispatch

  // ---------- The invariant ----------

  // reqInit takes and reqSent releases the write lock; lastOp is its holder, or has left
  // its result in the one buffer slot.
  ghost predicate LockInv(s: State) {
    && (s.reqInitOpen <==> s.lastOp == None)
    && |s.reqSent| <= 1
    && (s.lastOp == None ==> s.reqSent == [])
    && (s.lastOp.Some? ==> s.lastOp.value in s.phases && s.phases[s.lastOp.value] != Ready
                           && (InWrite(s.phases[s.lastOp.value]) <==> s.reqSent == [])
                           && (s.reqSent != [] && s.reqSent[0] ==> s.phases[s.lastOp.value] == Done))
    && (forall o :: o in s.phases && InWrite(s.phases[o]) ==> s.lastOp == Some(o))
    && (s.loop.Draining? ==> s.lastOp.Some?)
    && s.loop != Panicked
  }

  // One live read loop while reading, on the current connection.
  ghost predicate ReaderInv(s: State) {
    && (if s.loop == Stopped then s.readers == []
        else |s.readers| == (if s.reading then 1 else 0))
    && (forall r :: 0 <= r < |s.readers| ==> s.readers[r].codec == s.conn)
    && (s.loop.Draining? || s.loop == Quitting ==> s.reading)
    && (forall i :: 0 <= i < |s.handled| ==> s.handled[i].0 == s.handled[i].1)
  }

  // Connections are made one after the other, and written to only while current.
  ghost predicate ConnInv(s: State) {
    var latest := if s.loop.Draining? then s.loop.newcodec else s.conn;
    && s.conn <= latest < s.nextCodec
    && (s.loop.Draining? ==> s.conn < latest)
    && (s.writeConn.Some? ==> s.writeConn.value == latest)
    && (forall o :: o in s.phases && s.phases[o].Dialed? ==> latest < s.phases[o].codec < s.nextCodec)
  }

  predicate Closed(op: Op) {
    op.resp != [] && op.resp[|op.resp| - 1].Close?
  }

  ghost predicate RespondsTo(batch: Batch, ids: seq<Raw>) {
    exists m :: m in batch && m.IsResponse() && m.id.value in ids
  }

  // The history of one response channel: what is sent on it answers the operation, and
  // whoever finds it closed finds an error.
  ghost predicate OpInv(op: Op) {
    && AtMostOneSendThenClose(op.resp)
    && (op.hadResponse <==> op.resp != [] && op.resp[0].Send?)
    && (op.hadResponse ==> RespondsTo(op.resp[0].value, op.ids))
    && (Closed(op) ==> op.err.Some?)
  }

  ghost predicate Registered(ix: Index, o: OpRef) {
    exists id :: id in ix.respWait && ix.respWait[id] == o
  }

  // Whatever could still be answered has not been closed.
  ghost predicate IndexInv(ix: Index) {
    && WellIndexed(ix)
    && (forall o :: o in ix.ops ==> OpInv(ix.ops[o]))
    && (forall id :: id in ix.respWait ==> !Closed(ix.ops[ix.respWait[id]]))
  }

  // A request that has not been accepted is not waited for.
  ghost predicate ReadyInv(s: State) {
    && s.phases.Keys == s.index.ops.Keys
    && (forall o :: o in s.phases && s.phases[o] == Ready ==>
          s.index.ops[o].resp == [] && !Registered(s.index, o))
  }

  ghost predicate ChanInv(s: State) {
    && ReadyInv(s)
    && IndexInv(s.index)
    && (s.lastOp.Some? && (s.loop == Running || s.loop.Draining?) ==>
          s.lastOp.value in s.index.ops && !Closed(s.index.ops[s.lastOp.value]))
  }

  ghost predicate Inv(s: State) {
    LockInv(s) && ReaderInv(s) && ConnInv(s) && ChanInv(s)
  }

  // ---------- Channels: one lemma per index operation ----------

  // ix' differs from ix in operations registered in ix only.
  ghost predicate TouchesRegistered(ix: Index, ix': Index) {
    && ix'.ops.Keys == ix.ops.Keys
    && (forall o :: o in ix.ops && !Registered(ix, o) ==> ix'.ops[o] == ix.ops[o])
  }

  // ... closes nothing, and registers nothing new.
  ghost predicate LosesOnly(ix: Index, ix': Index) {
    && TouchesRegistered(ix, ix')
    && (forall o :: o in ix.ops && !Closed(ix.ops[o]) ==> !Closed(ix'.ops[o]))
    && (forall o :: Registered(ix', o) ==> Registered(ix, o))
  }

  lemma AddedChannels(ix: Index, o: OpRef)
    requires IndexInv(ix) && o in ix.ops && !Closed(ix.ops[o])
    ensures IndexInv(Added(ix, o))
    ensures forall p :: Registered(Added(ix, o), p) ==> Registered(ix, p) || p == o
  {
    var r := Added(ix, o).respWait;
    forall id | id in r && r[id] != o ensures id in ix.respWait && r[id] == ix.respWait[id] {
    }
  }

  lemma SubmittedChannels(ix: Index, o: OpRef, op: Op)
    requires IndexInv(ix) && o !in ix.ops && op.resp == [] && !op.hadResponse
    requires op.isSub ==> |op.ids| == 1
    ensures IndexInv(Index(ix.respWait, ix.ops[o := op]))
    ensures forall p :: Registered(Index(ix.respWait, ix.ops[o := op]), p) ==> Registered(ix, p) && p != o
  {
    var ix' := Index(ix.respWait, ix.ops[o := op]);
    forall p | Registered(ix', p) ensures Registered(ix, p) && p != o {
      var id :| id in ix.respWait && ix.respWait[id] == p;
      assert ix.respWait[id] in ix.ops;
    }
    forall id | id in ix'.respWait ensures ix'.ops[ix.respWait[id]] == ix.ops[ix.respWait[id]] {
    }
  }

  lemma RemovedChannels(ix: Index, o: OpRef)
    requires IndexInv(ix) && o in ix.ops
    ensures IndexInv(Removed(ix, o))
    ensures LosesOnly(ix, Removed(ix, o))
  {
    var r := Removed(ix, o).respWait;
    forall id | id in r ensures id in ix.respWait && r[id] == ix.respWait[id] {
    }
  }

  lemma RoutedOp(ix: Index, batch: Batch, decodes: Raw -> bool, o: OpRef)
    requires IndexInv(ix) && o in ix.ops
    ensures var next := Routed(ix, batch, decodes).ops[o];
            && (!Registered(ix, o) ==> next == ix.ops[o])
            && OpInv(next)
            && (!Closed(ix.ops[o]) ==> !Closed(next))
  {
    RouterDelivers(ix, batch, decodes, o);
    assert OpInv(ix.ops[o]);
    if o in Resolved(ix, batch) {
      var id :| id in ix.respWait && id in ResponseIds(batch) && ix.respWait[id] == o;
      assert Registered(ix, o) && !Closed(ix.ops[o]);
      NotClosedYet(ix.ops[o]);
    }
  }

  lemma RoutedChannels(ix: Index, batch: Batch, decodes: Raw -> bool)
    requires IndexInv(ix)
    ensures IndexInv(Routed(ix, batch, decodes))
    ensures LosesOnly(ix, Routed(ix, batch, decodes))
  {
    var r := Routed(ix, batch, decodes);
    RouterKeepsIndex(ix, batch, decodes);
    RoutedKeys(ix, batch, decodes);
    forall o | o in ix.ops
      ensures !Registered(ix, o) ==> r.ops[o] == ix.ops[o]
      ensures OpInv(r.ops[o]) && (!Closed(ix.ops[o]) ==> !Closed(r.ops[o]))
    {
      RoutedOp(ix, batch, decodes, o);
    }
  }

  lemma RoutedKeys(ix: Index, batch: Batch, decodes: Raw -> bool)
    ensures Routed(ix, batch, decodes).ops.Keys == ix.ops.Keys
    ensures forall id :: id in Routed(ix, batch, decodes).respWait ==>
              id in ix.respWait && Routed(ix, batch, decodes).respWait[id] == ix.respWait[id]
    ensures forall p :: Registered(Routed(ix, batch, decodes), p) ==> Registered(ix, p)
  {
    var r := Routed(ix, batch, decodes).respWait;
    forall id | id in r ensures id in ix.respWait && r[id] == ix.respWait[id] {
    }
  }

  lemma NotClosedYet(op: Op)
    requires OpInv(op) && !Closed(op)
    ensures op.resp == [] || (|op.resp| == 1 && op.resp[0].Send? && op.hadResponse)
  {
  }

  lemma CancelledOp(ix: Index, err: JsonError, inflight: Option<OpRef>, o: OpRef)
    requires IndexInv(ix) && o in ix.ops
    ensures var next := AllCancelled(ix, err, inflight).ops[o];
            && OpInv(next) && next.ids == ix.ops[o].ids && next.isSub == ix.ops[o].isSub
            && (!Registered(ix, o) || Some(o) == inflight ==> next == ix.ops[o])
  {
    assert OpInv(ix.ops[o]);
    if o in ix.respWait.Values && Some(o) != inflight {
      assert Registered(ix, o) && !Closed(ix.ops[o]);
      NotClosedYet(ix.ops[o]);
    }
  }

  lemma CancelledChannels(ix: Index, err: JsonError, inflight: Option<OpRef>)
    requires IndexInv(ix)
    ensures IndexInv(AllCancelled(ix, err, inflight))
    ensures TouchesRegistered(ix, AllCancelled(ix, err, inflight))
    ensures inflight.Some? && inflight.value in ix.ops ==>
              AllCancelled(ix, err, inflight).ops[inflight.value] == ix.ops[inflight.value]
    ensures forall p :: !Registered(AllCancelled(ix, err, inflight), p)
  {
    forall o | o in ix.ops {
      CancelledOp(ix, err, inflight, o);
    }
  }

  // ---------- Every step keeps the invariant ----------

  // The handler of a fresh connection waits for the operation in flight only.
  lemma AttachChannels(ix: Index, o: OpRef)
    requires IndexInv(ix) && o in ix.ops && !Closed(ix.ops[o])
    ensures IndexInv(Added(Index(map[], ix.ops), o))
    ensures forall p :: Registered(Added(Index(map[], ix.ops), o), p) ==> p == o
  {
    var bare := Index(map[], ix.ops);
    AddedChannels(bare, o);
    assert forall p :: !Registered(bare, p);
  }

  lemma LosingKeepsInv(s: State, ix: Index)
    requires Inv(s) && IndexInv(ix) && LosesOnly(s.index, ix)
    ensures Inv(s.(index := ix))
  {
  }

  // Moves of a goroutine that neither holds the write lock nor takes it.
  lemma PhaseMoveKeepsInv(s: State, o: OpRef, p: Phase)
    requires Inv(s) && o in s.phases && !InWrite(s.phases[o]) && s.phases[o] != Done
    requires !InWrite(p) && p != Ready
    ensures Inv(SetPhase(s, o, p))
  {
  }

  lemma FinishWriteKeepsInv(s: State, o: OpRef, failed: bool)
    requires Inv(s) && o in s.phases && InWrite(s.phases[o])
    ensures Inv(FinishWrite(s, o, failed))
  {
  }

  lemma WriteFailsKeepsInv(s: State, o: OpRef)
    requires Inv(s) && IsWriting(s, o)
    ensures Inv(s.(writeConn := None))
    ensures Inv(SetPhase(s.(writeConn := None), o, Writing(true)))
  {
  }

  lemma DialOkKeepsInv(s: State, o: OpRef)
    requires Inv(s) && Enabled(s, DialOk(o))
    ensures Inv(Apply(s, DialOk(o)))
  {
  }

  // The steps below that replace the index are each proved for any index with the
  // properties that matter, and then for the one at hand.
  lemma SubmitWith(s: State, o: OpRef, ix: Index)
    requires Inv(s) && o !in s.phases && o !in s.index.ops
    requires IndexInv(ix) && ix.ops.Keys == s.index.ops.Keys + {o} && ix.ops[o].resp == []
    requires forall p :: p in s.index.ops ==> ix.ops[p] == s.index.ops[p]
    requires forall p :: Registered(ix, p) ==> Registered(s.index, p) && p != o
    ensures ChanInv(SetPhase(s, o, Ready).(index := ix))
  {
  }

  lemma SubmitKeepsRest(s: State, o: OpRef, ix: Index)
    requires Inv(s) && o !in s.phases
    ensures var t := SetPhase(s, o, Ready).(index := ix);
            LockInv(t) && ReaderInv(t) && ConnInv(t)
  {
  }

  lemma SubmitKeepsInv(s: State, o: OpRef, ids: seq<Raw>, waits: bool, isSub: bool)
    requires Inv(s) && Enabled(s, Submit(o, ids, waits, isSub))
    ensures Inv(Apply(s, Submit(o, ids, waits, isSub)))
  {
    var op := Op(ids, waits, isSub, None, false, [], 0);
    SubmittedChannels(s.index, o, op);
    SubmitWith(s, o, Index(s.index.respWait, s.index.ops[o := op]));
    SubmitKeepsRest(s, o, Index(s.index.respWait, s.index.ops[o := op]));
  }

  lemma ReaderMoveKeepsInv(s: State, r: nat, got: Option<ReadResult>)
    requires Inv(s) && r < |s.readers|
    ensures Inv(SetReader(s, r, got))
  {
  }

  lemma ReqInitKeepsInv(s: State, o: OpRef)
    requires Inv(s) && Enabled(s, ReqInit(o))
    ensures Inv(Apply(s, ReqInit(o)))
  {
    AddedChannels(s.index, o);
  }

  // Nothing is registered in ix, and the operation in flight is as before.
  ghost predicate ClearedFor(s: State, ix: Index) {
    && IndexInv(ix) && TouchesRegistered(s.index, ix)
    && (forall p :: !Registered(ix, p))
    && (s.lastOp.Some? && s.lastOp.value in s.index.ops ==> ix.ops[s.lastOp.value] == s.index.ops[s.lastOp.value])
  }

  // Only the operation in flight is registered in ix, and no operation has changed.
  ghost predicate AttachedFor(s: State, ix: Index) {
    && IndexInv(ix) && ix.ops == s.index.ops
    && (forall p: OpRef :: Registered(ix, p) ==> s.lastOp == Some(p))
  }

  function StartDrain(s: State, o: OpRef, ix: Index): State
    requires IsDialed(s, o)
  {
    var codec := s.phases[o].codec;
    SetPhase(s, o, Writing(s.phases[o].retry)).(writeConn := Some(codec), index := ix, loop := Draining(codec))
  }

  lemma ReconnectReadingReady(s: State, o: OpRef, ix: Index)
    requires Inv(s) && Enabled(s, Reconnect(o)) && s.reading && ClearedFor(s, ix)
    ensures ReadyInv(StartDrain(s, o, ix))
  {
  }

  lemma ReconnectReadingWith(s: State, o: OpRef, ix: Index)
    requires Inv(s) && Enabled(s, Reconnect(o)) && s.reading && ClearedFor(s, ix)
    ensures ChanInv(StartDrain(s, o, ix))
  {
    ReconnectReadingReady(s, o, ix);
  }

  lemma ReconnectReadingRest(s: State, o: OpRef, ix: Index)
    requires Inv(s) && Enabled(s, Reconnect(o)) && s.reading
    ensures LockInv(StartDrain(s, o, ix)) && ReaderInv(StartDrain(s, o, ix)) && ConnInv(StartDrain(s, o, ix))
  {
  }

  lemma ReconnectBrokenWith(s: State, o: OpRef, ix: Index)
    requires Inv(s) && Enabled(s, Reconnect(o)) && !s.reading && AttachedFor(s, ix)
    ensures var codec := s.phases[o].codec;
            Inv(SetPhase(s, o, Writing(s.phases[o].retry)).(
              writeConn := Some(codec), readers := s.readers + [Reader(codec, None)], reading := true,
              conn := codec, index := ix, loop := Running))
  {
  }

  lemma ReconnectKeepsInv(s: State, o: OpRef)
    requires Inv(s) && Enabled(s, Reconnect(o))
    ensures Inv(Apply(s, Reconnect(o)))
  {
    if s.reading {
      CancelledChannels(s.index, RECONNECTED, s.lastOp);
      ReconnectReadingWith(s, o, AllCancelled(s.index, RECONNECTED, s.lastOp));
      ReconnectReadingRest(s, o, AllCancelled(s.index, RECONNECTED, s.lastOp));
    } else {
      AttachChannels(s.index, s.lastOp.value);
      ReconnectBrokenWith(s, o, Added(Index(map[], s.index.ops), s.lastOp.value));
    }
  }

  lemma ReqSentKeepsInv(s: State)
    requires Inv(s) && Enabled(s, ReqSent)
    ensures Inv(Apply(s, ReqSent))
  {
    if s.reqSent[0] {
      RemovedChannels(s.index, s.lastOp.value);
    }
  }

  lemma ReqTimeoutKeepsInv(s: State, o: OpRef)
    requires Inv(s) && Enabled(s, ReqTimeout(o))
    ensures Inv(Apply(s, ReqTimeout(o)))
  {
    RemovedChannels(s.index, o);
    PhaseMoveKeepsInv(s, o, Done);
    LosingKeepsInv(SetPhase(s, o, Done), Removed(s.index, o));
  }

  lemma HandleChannels(s: State, batch: Batch, decodes: Raw -> bool)
    requires IndexInv(s.index)
    ensures IndexInv(Handle(s, batch, decodes)) && LosesOnly(s.index, Handle(s, batch, decodes))
  {
    RoutedChannels(s.index, batch, decodes);
  }

  lemma HandledKeepsInv(s: State, r: nat, ix: Index)
    requires Inv(s) && r < |s.readers| && IndexInv(ix) && LosesOnly(s.index, ix)
    ensures Inv(SetReader(s, r, None).(index := ix, handled := s.handled + [(s.readers[r].codec, s.conn)]))
  {
    ReaderMoveKeepsInv(s, r, None);
    LosingKeepsInv(SetReader(s, r, None), ix);
  }

  lemma ReadOpKeepsInv(s: State, r: nat, decodes: Raw -> bool)
    requires Inv(s) && Enabled(s, ReadOp(r, decodes))
    ensures Inv(Apply(s, ReadOp(r, decodes)))
  {
    var batch := s.readers[r].got.value.batch;
    HandleChannels(s, batch, decodes);
    HandledKeepsInv(s, r, Handle(s, batch, decodes));
  }

  lemma ReadErrWith(s: State, r: nat, ix: Index)
    requires Inv(s) && Enabled(s, ReadErr(r)) && ClearedFor(s, ix)
    ensures Inv(RemoveReader(s, r).(index := ix, reading := false))
  {
  }

  lemma ReadErrKeepsInv(s: State, r: nat)
    requires Inv(s) && Enabled(s, ReadErr(r))
    ensures Inv(Apply(s, ReadErr(r)))
  {
    CancelledChannels(s.index, READ_ERROR, s.lastOp);
    ReadErrWith(s, r, AllCancelled(s.index, READ_ERROR, s.lastOp));
  }

  lemma DrainErrWith(s: State, r: nat, ix: Index)
    requires Inv(s) && Enabled(s, DrainErr(r)) && s.loop.Draining? && AttachedFor(s, ix)
    ensures Inv(s.(readers := [Reader(s.loop.newcodec, None)], reading := true,
                   conn := s.loop.newcodec, index := ix, loop := Running))
  {
  }

  lemma DrainErrKeepsInv(s: State, r: nat)
    requires Inv(s) && Enabled(s, DrainErr(r))
    ensures Inv(Apply(s, DrainErr(r)))
  {
    assert s.readers[..r] + s.readers[r + 1..] == [];
    if s.loop.Draining? {
      AttachChannels(s.index, s.lastOp.value);
      assert [] + [Reader(s.loop.newcodec, None)] == [Reader(s.loop.newcodec, None)];
      DrainErrWith(s, r, Added(Index(map[], s.index.ops), s.lastOp.value));
    }
  }

  lemma QuitKeepsInv(s: State)
    requires Inv(s) && Enabled(s, Quit)
    ensures Inv(Apply(s, Quit))
  {
    if s.reading {
      CancelledChannels(s.index, CLIENT_QUIT, None);
    }
  }

  predicate ByWriter(e: Event) {
    e.WriteOk? || e.WriteFails? || e.DialOk? || e.DialFails? || e.ReconnectTooLate?
  }

  predicate ByDispatch(e: Event) {
    || e.ReqInit? || e.Reconnect? || e.ReqSent? || e.ReqTimeout? || e.ReadOp? || e.ReadErr?
    || e.DrainMsg? || e.DrainErr? || e.Quit?
  }

  // Nothing but dispatch changes what the handlers wait for, or its own variables, or an
  // operation that exists.
  lemma OutsideFrame(s: State, e: Event)
    requires Enabled(s, e) && !ByDispatch(e)
    ensures var t := Apply(s, e);
            && t.index.respWait == s.index.respWait && t.lastOp == s.lastOp
            && t.loop == s.loop && t.reading == s.reading
            && forall o :: o in s.index.ops ==> o in t.index.ops && t.index.ops[o] == s.index.ops[o]
  {
  }

  lemma WriterKeepsInv(s: State, e: Event)
    requires Inv(s) && Enabled(s, e) && ByWriter(e)
    ensures Inv(Apply(s, e))
  {
    match e
    case WriteOk(o) => FinishWriteKeepsInv(s, o, false);
    case WriteFails(o) =>
      WriteFailsKeepsInv(s, o);
      FinishWriteKeepsInv(s.(writeConn := None), o, true);
    case DialOk(o) => DialOkKeepsInv(s, o);
    case DialFails(o) => FinishWriteKeepsInv(s, o, true);
    case ReconnectTooLate(o) => FinishWriteKeepsInv(s, o, true);
  }

  lemma OutsideKeepsInv(s: State, e: Event)
    requires Inv(s) && Enabled(s, e) && !ByWriter(e) && !ByDispatch(e)
    ensures Inv(Apply(s, e))
  {
    match e
    case Submit(o, ids, waits, isSub) => SubmitKeepsInv(s, o, ids, waits, isSub);
    case GiveUp(o) => PhaseMoveKeepsInv(s, o, Done);
    case NotifyReturns(o) => PhaseMoveKeepsInv(s, o, Done);
    case Receive(o) => PhaseMoveKeepsInv(s, o, Done);
    case Expire(o) => PhaseMoveKeepsInv(s, o, TimingOut);
    case TimeoutAbandoned(o) => PhaseMoveKeepsInv(s, o, Done);
    case Read(r, batch) => ReaderMoveKeepsInv(s, r, Some(Msgs(batch)));
    case ReadFails(r) => ReaderMoveKeepsInv(s, r, Some(Failed));
  }

  lemma DispatchKeepsInv(s: State, e: Event)
    requires Inv(s) && Enabled(s, e) && ByDispatch(e)
    ensures Inv(Apply(s, e))
  {
    match e
    case ReqInit(o) => ReqInitKeepsInv(s, o);
    case Reconnect(o) => ReconnectKeepsInv(s, o);
    case ReqSent => ReqSentKeepsInv(s);
    case ReqTimeout(o) => ReqTimeoutKeepsInv(s, o);
    case ReadOp(r, decodes) => ReadOpKeepsInv(s, r, decodes);
    case ReadErr(r) => ReadErrKeepsInv(s, r);
    case DrainMsg(r) => ReaderMoveKeepsInv(s, r, None);
    case DrainErr(r) => DrainErrKeepsInv(s, r);
    case Quit => QuitKeepsInv(s);
  }

  lemma StepKeepsInv(s: State, e: Event)
    requires Inv(s) && Enabled(s, e)
    ensures Inv(Apply(s, e))
  {
    if ByWriter(e) {
      WriterKeepsInv(s, e);
    } else if ByDispatch(e) {
      DispatchKeepsInv(s, e);
    } else {
      OutsideKeepsInv(s, e);
    }
  }

  lemma InitialInv(limit: nat)
    ensures Inv(Initial(limit))
  {
  }

  lemma {:induction false} RunInv(limit: nat, events: seq<Event>, states: seq<State>, k: nat)
    requires Run(limit, events, states) && k < |states|
    ensures Inv(states[k])
  {
    if k == 0 {
      InitialInv(limit);
    } else {
      RunInv(limit, events, states, k - 1);
      assert Next(states[k - 1], events[k - 1], states[k]);
      StepKeepsInv(states[k - 1], events[k - 1]);
    }
  }
}
