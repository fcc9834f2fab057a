// The client's dispatch loop (rpc/client.go) with any number of senders and one read loop
// per connection, as a transition system. One event is one rendezvous, buffered send or
// select case; the actions of dispatch between two selects are one step.
module Dispatch {
  import opened Wrappers
  import opened Messages
  import opened RequestIndex

  // A connection; numbers are never used twice.
  type Codec = nat

  // Where the goroutine of a request stands.
  datatype Phase =
    | Ready                               // at the select of send
    | Writing(retry: bool)                // in write, holding the write lock
    | Dialed(retry: bool, codec: Codec)   // in reconnect, offering the new connection
    | Waiting                             // in op.wait
    | TimingOut                           // in op.wait, reporting the timeout
    | Done

  predicate InWrite(p: Phase) {
    p.Writing? || p.Dialed?
  }

  // What a read loop wants to hand over next.
  datatype ReadResult = Msgs(batch: Batch) | Failed

  datatype Reader = Reader(codec: Codec, got: Option<ReadResult>)

  datatype Loop =
    | Running
    | Draining(newcodec: Codec)   // reconnected; waiting for the old read loop to exit
    | Quitting                    // the deferred drainRead
    | Stopped
    | Panicked                    // nil dereference

  datatype State = State(
    index: Index,                  // the current handler's respWait, and all requestOps
    phases: map<OpRef, Phase>,
    lastOp: Option<OpRef>,
    reqInitOpen: bool,             // reqInitLock is not nil
    reqSent: seq<bool>,            // the buffered channel; true stands for an error
    writeConn: Option<Codec>,
    conn: Codec,
    reading: bool,
    readers: seq<Reader>,          // live read loops
    nextCodec: Codec,
    loop: Loop,
    batchRequestLimit: nat,
    handled: seq<(Codec, Codec)>)  // for each message list handled: read from, handled by

  const READ_ERROR := JsonError(0, "read error")
  const RECONNECTED := JsonError(0, "client reconnected")
  const CLIENT_QUIT := JsonError(0, "client is closed")

  datatype Event =
    | Submit(o: OpRef, ids: seq<Raw>, waits: bool, isSub: bool)   // a call creates its requestOp
    | ReqInit(o: OpRef)                              // reqInit rendezvous
    | GiveUp(o: OpRef)                               // send leaves on ctx.Done or closing
    | WriteOk(o: OpRef)
    | WriteFails(o: OpRef)
    | DialOk(o: OpRef)
    | DialFails(o: OpRef)
    | Reconnect(o: OpRef)                            // reconnected rendezvous
    | ReconnectTooLate(o: OpRef)                     // reconnect leaves on didClose
    | ReqSent                                        // dispatch takes a write result
    | NotifyReturns(o: OpRef)                        // a notification waits for nothing
    | Receive(o: OpRef)                              // op.wait gets a value or a close
    | Expire(o: OpRef)                               // op.wait leaves on ctx.Done
    | ReqTimeout(o: OpRef)                           // reqTimeout rendezvous
    | TimeoutAbandoned(o: OpRef)                     // op.wait leaves on closing
    | Read(r: nat, batch: Batch)
    | ReadFails(r: nat)
    | ReadOp(r: nat, decodes: Raw -> bool)           // dispatch handles a message list
    | ReadErr(r: nat)
    | DrainMsg(r: nat)
    | DrainErr(r: nat)
    | Quit                                           // close rendezvous

  predicate InPhase(s: State, o: OpRef, p: Phase) {
    o in s.phases && o in s.index.ops && s.phases[o] == p
  }

  predicate IsWriting(s: State, o: OpRef) {
    o in s.phases && o in s.index.ops && s.phases[o].Writing?
  }

  predicate IsDialed(s: State, o: OpRef) {
    o in s.phases && o in s.index.ops && s.phases[o].Dialed?
  }

  predicate Got(s: State, r: nat) {
    r < |s.readers| && s.readers[r].got.Some?
  }

  predicate Enabled(s: State, e: Event) {
    match e
    case Submit(o, ids, waits, isSub) =>
      o !in s.index.ops && o !in s.phases && (isSub ==> waits && |ids| == 1) && (!waits ==> ids == [])
    case ReqInit(o) => s.loop == Running && s.reqInitOpen && InPhase(s, o, Ready)
    case GiveUp(o) => InPhase(s, o, Ready)
    case WriteOk(o) => IsWriting(s, o) && s.writeConn.Some?
    case WriteFails(o) => IsWriting(s, o) && s.writeConn.Some?
    case DialOk(o) => IsWriting(s, o) && s.writeConn == None
    case DialFails(o) => IsWriting(s, o) && s.writeConn == None
    case Reconnect(o) => s.loop == Running && IsDialed(s, o)
    case ReconnectTooLate(o) => s.loop == Stopped && IsDialed(s, o)
    case ReqSent => s.loop == Running && s.reqSent != []
    case NotifyReturns(o) => InPhase(s, o, Waiting) && !s.index.ops[o].waits
    case Receive(o) => InPhase(s, o, Waiting) && s.index.ops[o].waits && s.index.ops[o].resp != []
    case Expire(o) => InPhase(s, o, Waiting) && s.index.ops[o].waits
    case ReqTimeout(o) => s.loop == Running && InPhase(s, o, TimingOut)
    case TimeoutAbandoned(o) => (s.loop == Quitting || s.loop == Stopped) && InPhase(s, o, TimingOut)
    case Read(r, _) => r < |s.readers| && s.readers[r].got == None
    case ReadFails(r) => r < |s.readers| && s.readers[r].got == None
    case ReadOp(r, _) => s.loop == Running && Got(s, r) && s.readers[r].got.value.Msgs?
    case ReadErr(r) => s.loop == Running && Got(s, r) && s.readers[r].got.value == Failed
    case DrainMsg(r) => (s.loop.Draining? || s.loop == Quitting) && Got(s, r) && s.readers[r].got.value.Msgs?
    case DrainErr(r) => (s.loop.Draining? || s.loop == Quitting) && Got(s, r) && s.readers[r].got.value == Failed
    case Quit => s.loop == Running
  }

  function SetPhase(s: State, o: OpRef, p: Phase): State {
    s.(phases := s.phases[o := p])
  }

  // The write is over: release the write lock by sending its error on reqSent.
  function FinishWrite(s: State, o: OpRef, failed: bool): State {
    SetPhase(s, o, if failed then Done else Waiting).(reqSent := s.reqSent + [failed])
  }

  // conn.close(err, inflightReq)
  function CloseConn(s: State, err: JsonError, inflight: Option<OpRef>): State {
    s.(index := AllCancelled(s.index, err, inflight))
  }

  // The end of the reconnect case: a read loop and a handler for the new connection, on
  // which the operation in flight is registered.
  function Attach(s: State, codec: Codec): State {
    if s.lastOp == None || s.lastOp.value !in s.index.ops then s.(loop := Panicked)
    else s.(
      readers := s.readers + [Reader(codec, None)],
      reading := true,
      conn := codec,
      index := Added(Index(map[], s.index.ops), s.lastOp.value),
      loop := Running)
  }

  function RemoveReader(s: State, r: nat): State
    requires r < |s.readers|
  {
    s.(readers := s.readers[..r] + s.readers[r + 1..])
  }

  function SetReader(s: State, r: nat, got: Option<ReadResult>): State
    requires r < |s.readers|
  {
    s.(readers := s.readers[r := s.readers[r].(got := got)])
  }

  // handleMsg and handleBatch; a batch over the limit is not looked into.
  function Handle(s: State, batch: Batch, decodes: Raw -> bool): Index {
    if s.batchRequestLimit != 0 && |batch| > s.batchRequestLimit then s.index
    else Routed(s.index, batch, decodes)
  }

  function Apply(s: State, e: Event): State
    requires Enabled(s, e)
  {
    match e
    case Submit(o, ids, waits, isSub) =>
      var op := Op(ids, waits, isSub, None, false, [], 0);
      SetPhase(s, o, Ready).(index := Index(s.index.respWait, s.index.ops[o := op]))
    case ReqInit(o) =>
      SetPhase(s, o, Writing(false)).(reqInitOpen := false, lastOp := Some(o), index := Added(s.index, o))
    case GiveUp(o) => SetPhase(s, o, Done)
    case WriteOk(o) => FinishWrite(s, o, false)
    case WriteFails(o) =>
      var t := s.(writeConn := None);
      if s.phases[o].retry then FinishWrite(t, o, true) else SetPhase(t, o, Writing(true))
    case DialOk(o) =>
      SetPhase(s, o, Dialed(s.phases[o].retry, s.nextCodec)).(nextCodec := s.nextCodec + 1)
    case DialFails(o) => FinishWrite(s, o, true)
    case Reconnect(o) =>
      var codec := s.phases[o].codec;
      var t := SetPhase(s, o, Writing(s.phases[o].retry)).(writeConn := Some(codec));
      if s.reading then CloseConn(t, RECONNECTED, s.lastOp).(loop := Draining(codec))
      else Attach(t, codec)
    case ReconnectTooLate(o) => FinishWrite(s, o, true)
    case ReqSent =>
      if s.reqSent[0] && (s.lastOp == None || s.lastOp.value !in s.index.ops) then s.(loop := Panicked)
      else
        s.(reqSent := s.reqSent[1..], reqInitOpen := true, lastOp := None,
           index := if s.reqSent[0] then Removed(s.index, s.lastOp.value) else s.index)
    case NotifyReturns(o) => SetPhase(s, o, Done)
    case Receive(o) => SetPhase(s, o, Done)
    case Expire(o) => SetPhase(s, o, TimingOut)
    case ReqTimeout(o) => SetPhase(s, o, Done).(index := Removed(s.index, o))
    case TimeoutAbandoned(o) => SetPhase(s, o, Done)
    case Read(r, batch) => SetReader(s, r, Some(Msgs(batch)))
    case ReadFails(r) => SetReader(s, r, Some(Failed))
    case ReadOp(r, decodes) =>
      SetReader(s, r, None).(
        index := Handle(s, s.readers[r].got.value.batch, decodes),
        handled := s.handled + [(s.readers[r].codec, s.conn)])
    case ReadErr(r) => CloseConn(RemoveReader(s, r), READ_ERROR, s.lastOp).(reading := false)
    case DrainMsg(r) => SetReader(s, r, None)
    case DrainErr(r) =>
      var t := RemoveReader(s, r);
      if s.loop.Draining? then Attach(t, s.loop.newcodec) else t.(loop := Stopped)
    case Quit =>
      if s.reading then CloseConn(s, CLIENT_QUIT, None).(loop := Quitting) else s.(loop := Stopped)
  }

  // A client on connection 0.
  function Initial(limit: nat): State {
    State(Index(map[], map[]), map[], None, true, [], Some(0), 0, true, [Reader(0, None)], 1, Running, limit, [])
  }

  ghost predicate Next(s: State, e: Event, t: State) {
    Enabled(s, e) && t == Apply(s, e)
  }

  ghost predicate Path(events: seq<Event>, states: seq<State>) {
    && |states| == |events| + 1
    && forall i :: 0 <= i < |events| ==> Next(states[i], events[i], states[i + 1])
  }

  // states is what a client goes through on the given events.
  ghost predicate Run(limit: nat, events: seq<Event>, states: seq<State>) {
    Path(events, states) && states[0] == Initial(limit)
  }

  lemma PathSlice(events: seq<Event>, states: seq<State>, i: nat, k: nat)
    requires Path(events, states) && i <= k < |states|
    ensures Path(events[i..k], states[i..k + 1])
  {
    forall j | 0 <= j < k - i
      ensures Next(states[i..k + 1][j], events[i..k][j], states[i..k + 1][j + 1])
    {
      assert Next(states[i + j], events[i + j], states[i + j + 1]);
    }
  }

  lemma PathTail(events: seq<Event>, states: seq<State>)
    requires Path(events, states) && events != []
    ensures Next(states[0], events[0], states[1])
    ensures Path(events[1..], states[1..])
  {
    forall i | 0 <= i < |events[1..]| ensures Next(states[1..][i], events[1..][i], states[1..][i + 1]) {
      assert Next(states[i + 1], events[i + 1], states[i + 2]);
    }
  }

  lemma PathSnoc(events: seq<Event>, states: seq<State>, e: Event)
    requires Path(events, states) && Enabled(states[|events|], e)
    ensures Path(events + [e], states + [Apply(states[|events|], e)])
  {
    var all := states + [Apply(states[|events|], e)];
    forall i | 0 <= i < |events| ensures Next(all[i], (events + [e])[i], all[i + 1]) {
      assert Next(states[i], events[i], states[i + 1]);
    }
  }

  lemma PathJoin(d: seq<Event>, s: seq<State>, e: seq<Event>, t: seq<State>)
    requires Path(d, s) && Path(e, t) && s[|d|] == t[0]
    ensures Path(d + e, s + t[1..])
    ensures (s + t[1..])[|d + e|] == t[|e|]
  {
    var all := s + t[1..];
    forall i | 0 <= i < |d + e| ensures Next(all[i], (d + e)[i], all[i + 1]) {
      if i < |d| {
        assert Next(s[i], d[i], s[i + 1]);
      } else {
        assert Next(t[i - |d|], e[i - |d|], t[i - |d| + 1]);
      }
    }
  }
}
