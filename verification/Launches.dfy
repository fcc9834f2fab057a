// How often the client launches the forwarding loop of a subscription.
module Launches {
  import opened Wrappers
  import opened Messages
  import opened RequestIndex
  import opened Dispatch
  import opened DispatchSafety
  import opened DispatchTheorems

  // The step registers an operation again whose loop has been launched.
  ghost predicate ReRegistersLaunched(s: State, e: Event) {
    && Attaches(s, e)
    && s.lastOp.Some? && s.lastOp.value in s.index.ops && s.index.ops[s.lastOp.value].starts > 0
  }

  // A successful response to the request with the given id.
  function Reply(id: Raw): Message {
    Message(VSN, Some(id), "", None, None, Some("\"0x1\""))
  }

  // A loop is launched by a response to a Subscribe request.
  ghost predicate OpLaunched(op: Op) {
    && op.starts <= 1
    && (op.starts > 0 ==> op.hadResponse && op.isSub && |op.ids| == 1 && Reply(op.ids[0]).HasValidID())
  }

  // Operations with a launched loop are not waited for.
  ghost predicate LaunchInv(ix: Index) {
    && (forall o :: o in ix.ops ==> OpLaunched(ix.ops[o]))
    && (forall id :: id in ix.respWait ==> ix.respWait[id] in ix.ops && ix.ops[ix.respWait[id]].starts == 0)
  }

  lemma AnsweredLaunch(op: Op, batch: Batch, decodes: Raw -> bool)
    requires op.starts == 0
    ensures OpLaunched(Answered(op, batch, batch, decodes))
  {
    if op.isSub && |op.ids| == 1 && FirstResponse(batch, op.ids[0]).Some? {
      FirstResponseExists(batch, op.ids[0]);
      var m :| m in batch && m.IsResponse() && m.id.value == op.ids[0];
      assert Reply(op.ids[0]).HasValidID();
    }
  }

  lemma RoutedLaunch(ix: Index, batch: Batch, decodes: Raw -> bool, o: OpRef)
    requires IndexInv(ix) && LaunchInv(ix) && o in ix.ops
    ensures OpLaunched(Routed(ix, batch, decodes).ops[o])
  {
    assert Routed(ix, batch, decodes).ops[o] == OpRouted(ix, o, batch, batch, decodes);
    if o in Resolved(ix, batch) {
      var id :| id in ix.respWait && id in ResponseIds(batch) && ix.respWait[id] == o;
      AnsweredLaunch(ix.ops[o], batch, decodes);
    }
  }

  lemma StillWaiting(ix: Index, batch: Batch, decodes: Raw -> bool, id: Raw)
    requires IndexInv(ix) && LaunchInv(ix) && id in Routed(ix, batch, decodes).respWait
    ensures var r := Routed(ix, batch, decodes);
            r.respWait[id] in r.ops && r.ops[r.respWait[id]].starts == 0
  {
    var o := ix.respWait[id];
    RouterDelivers(ix, batch, decodes, o);
    assert o in Resolved(ix, batch) ==> Listed(ix.ops, Resolved(ix, batch), id);
  }

  lemma RoutedLaunches(ix: Index, batch: Batch, decodes: Raw -> bool)
    requires IndexInv(ix) && LaunchInv(ix)
    ensures LaunchInv(Routed(ix, batch, decodes))
  {
    var r := Routed(ix, batch, decodes);
    RoutedKeys(ix, batch, decodes);
    forall o | o in ix.ops ensures OpLaunched(r.ops[o]) {
      RoutedLaunch(ix, batch, decodes, o);
    }
    forall id | id in r.respWait ensures r.respWait[id] in r.ops && r.ops[r.respWait[id]].starts == 0 {
      StillWaiting(ix, batch, decodes, id);
    }
  }

  lemma CancelledLaunches(ix: Index, err: JsonError, inflight: Option<OpRef>)
    requires LaunchInv(ix)
    ensures LaunchInv(AllCancelled(ix, err, inflight))
  {
  }

  lemma AddedLaunches(ix: Index, o: OpRef)
    requires LaunchInv(ix) && o in ix.ops && ix.ops[o].starts == 0
    ensures LaunchInv(Added(ix, o)) && LaunchInv(Added(Index(map[], ix.ops), o))
  {
  }

  lemma LaunchClosing(s: State, e: Event)
    requires Inv(s) && LaunchInv(s.index) && Enabled(s, e) && Closing(e) && !ReRegistersLaunched(s, e)
    ensures LaunchInv(Apply(s, e).index)
  {
    match e
    case Reconnect(o) =>
      if s.reading {
        CancelledLaunches(s.index, RECONNECTED, s.lastOp);
      } else {
        AddedLaunches(s.index, s.lastOp.value);
      }
    case ReadErr(r) => CancelledLaunches(s.index, READ_ERROR, s.lastOp);
    case DrainErr(r) => if s.loop.Draining? { AddedLaunches(s.index, s.lastOp.value); }
    case Quit => CancelledLaunches(s.index, CLIENT_QUIT, None);
  }

  lemma LaunchInit(s: State, o: OpRef)
    requires Inv(s) && LaunchInv(s.index) && Enabled(s, ReqInit(o))
    ensures LaunchInv(Apply(s, ReqInit(o)).index)
  {
    assert OpInv(s.index.ops[o]) && OpLaunched(s.index.ops[o]);
    AddedLaunches(s.index, o);
  }

  lemma LaunchInLoop(s: State, e: Event)
    requires Inv(s) && LaunchInv(s.index) && Enabled(s, e)
    requires ByDispatch(e) && !Closing(e) && !e.ReqInit?
    ensures LaunchInv(Apply(s, e).index)
  {
    if e.ReadOp? {
      RoutedLaunches(s.index, s.readers[e.r].got.value.batch, e.decodes);
    }
  }

  lemma LaunchOutside(s: State, e: Event)
    requires Inv(s) && LaunchInv(s.index) && Enabled(s, e) && !ByDispatch(e)
    ensures LaunchInv(Apply(s, e).index)
  {
  }

  lemma LaunchNext(s: State, e: Event, t: State)
    requires Inv(s) && LaunchInv(s.index) && Next(s, e, t) && !ReRegistersLaunched(s, e)
    ensures LaunchInv(t.index)
  {
    if Closing(e) {
      LaunchClosing(s, e);
    } else if e.ReqInit? {
      LaunchInit(s, e.o);
    } else if ByDispatch(e) {
      LaunchInLoop(s, e);
    } else {
      LaunchOutside(s, e);
    }
  }

  lemma {:induction false} LaunchedOncePrefix(limit: nat, events: seq<Event>, states: seq<State>, k: nat)
    requires Run(limit, events, states) && k < |states|
    requires forall i :: 0 <= i < k ==> !ReRegistersLaunched(states[i], events[i])
    ensures LaunchInv(states[k].index)
  {
    if k > 0 {
      LaunchedOncePrefix(limit, events, states, k - 1);
      RunInv(limit, events, states, k - 1);
      LaunchNext(states[k - 1], events[k - 1], states[k]);
    }
  }

  // run is launched at most once for every subscription, up to the first step in which the
  // client reconnects on behalf of a subscription whose loop has been launched.
  lemma LaunchedOnce(limit: nat, events: seq<Event>, states: seq<State>, k: nat, o: OpRef)
    requires Run(limit, events, states) && k < |states| && o in states[k].index.ops
    requires forall i :: 0 <= i < k ==> !ReRegistersLaunched(states[i], events[i])
    ensures states[k].index.ops[o].starts <= 1
  {
    LaunchedOncePrefix(limit, events, states, k);
    assert OpLaunched(states[k].index.ops[o]);
  }

  function Always(): Raw -> bool {
    (r: Raw) => true
  }

  // Whoever is registered for the id of a successful reply has its loop launched, whether
  // or not it was answered before.
  lemma ReplyLaunches(ix: Index, o: OpRef, id: Raw)
    requires WellIndexed(ix) && id in ix.respWait && ix.respWait[id] == o
    requires ix.ops[o].isSub && Reply(id).HasValidID()
    ensures var next := Routed(ix, [Reply(id)], Always()).ops[o];
            && next.starts == ix.ops[o].starts + 1 && next.hadResponse
            && next.ids == ix.ops[o].ids && next.isSub
            && next.resp == ix.ops[o].resp + if ix.ops[o].hadResponse then [] else [Send([Reply(id)])]
  {
    var batch := [Reply(id)];
    assert Reply(id) in batch && id in ResponseIds(batch);
    assert o in Resolved(ix, batch);
    assert Routed(ix, batch, Always()).ops[o] == OpRouted(ix, o, batch, batch, Always());
    assert batch[..0] == [];
    assert ix.ops[o].ids == [id];
    assert FirstResponse(batch, id) == Some(Reply(id));
  }

  // The state after a re-registration, as far as the next reply is concerned: the
  // connection, and the handler.
  lemma ReRegisteredConn(s: State, e: Event)
    requires Inv(s) && Enabled(s, e) && ReRegistersLaunched(s, e)
    ensures var t := Apply(s, e);
            && t.loop == Running && t.readers == [Reader(t.conn, None)]
            && t.index == Added(Index(map[], s.index.ops), s.lastOp.value)
  {
    if e.DrainErr? {
      assert s.readers[..e.r] + s.readers[e.r + 1..] == [];
    }
  }

  lemma ReRegisteredIndex(ix: Index, o: OpRef)
    requires WellIndexed(ix) && LaunchInv(ix) && o in ix.ops && ix.ops[o].starts > 0
    ensures var next := Added(Index(map[], ix.ops), o);
            && WellIndexed(next) && next.ops == ix.ops && ix.ops[o].starts == 1
            && ix.ops[o].isSub && Reply(ix.ops[o].ids[0]).HasValidID()
            && ix.ops[o].ids[0] in next.respWait && next.respWait[ix.ops[o].ids[0]] == o
  {
    assert OpLaunched(ix.ops[o]);
    assert ix.ops[o].ids[0] in ix.ops[o].ids;
  }

  lemma ReRegistered(s: State, e: Event, t: State)
    requires Inv(s) && Next(s, e, t) && LaunchInv(s.index) && ReRegistersLaunched(s, e)
    ensures var o := s.lastOp.value;
            && t.loop == Running && t.readers == [Reader(t.conn, None)]
            && WellIndexed(t.index) && o in t.index.ops && t.index.ops[o].starts == 1
            && t.index.ops[o].isSub && Reply(t.index.ops[o].ids[0]).HasValidID()
            && t.index.ops[o].ids[0] in t.index.respWait && t.index.respWait[t.index.ops[o].ids[0]] == o
  {
    ReRegisteredConn(s, e);
    ReRegisteredIndex(s.index, s.lastOp.value);
  }

  // The read loop has the reply to hand over.
  function Offering(t: State, id: Raw): State {
    t.(readers := [Reader(t.conn, Some(Msgs([Reply(id)])))])
  }

  function ReplyHandled(t: State, id: Raw): State {
    t.(index := Routed(t.index, [Reply(id)], Always()), handled := t.handled + [(t.conn, t.conn)])
  }

  lemma TakeReply(t: State, id: Raw)
    requires t.loop == Running && t.readers == [Reader(t.conn, None)]
    ensures Next(t, Read(0, [Reply(id)]), Offering(t, id))
    ensures Next(Offering(t, id), ReadOp(0, Always()), ReplyHandled(t, id))
  {
  }

  lemma ReplyArrives(t: State, o: OpRef, id: Raw) returns (states: seq<State>)
    requires t.loop == Running && t.readers == [Reader(t.conn, None)]
    requires WellIndexed(t.index) && id in t.index.respWait && t.index.respWait[id] == o
    requires t.index.ops[o].isSub && Reply(id).HasValidID()
    ensures Path([Read(0, [Reply(id)]), ReadOp(0, Always())], states) && states[0] == t
    ensures states[2] == ReplyHandled(t, id) && states[2].index.ops.Keys == t.index.ops.Keys
    ensures var op, next := t.index.ops[o], states[2].index.ops[o];
            next.starts == op.starts + 1 && next.hadResponse && next.ids == op.ids && next.isSub
  {
    ReplyLaunches(t.index, o, id);
    RoutedKeys(t.index, [Reply(id)], Always());
    TakeReply(t, id);
    states := [t, Offering(t, id), ReplyHandled(t, id)];
  }

  // The condition of LaunchedOnce is exact: any run that comes to register an operation
  // again whose loop has been launched, for the first time in its last step, goes on to a
  // state in which that loop has been launched twice.
  lemma Relaunched(limit: nat, events: seq<Event>, states: seq<State>)
    returns (more: seq<Event>, all: seq<State>)
    requires Run(limit, events, states) && events != []
    requires forall i :: 0 <= i < |events| - 1 ==> !ReRegistersLaunched(states[i], events[i])
    requires ReRegistersLaunched(states[|events| - 1], events[|events| - 1])
    ensures Run(limit, events + more, all) && states <= all
    ensures var o := states[|events| - 1].lastOp.value;
            o in all[|events + more|].index.ops && all[|events + more|].index.ops[o].starts == 2
  {
    var n := |events| - 1;
    RunInv(limit, events, states, n);
    LaunchedOncePrefix(limit, events, states, n);
    assert Next(states[n], events[n], states[n + 1]);
    ReRegistered(states[n], events[n], states[n + 1]);
    var o, t := states[n].lastOp.value, states[n + 1];
    var id := t.index.ops[o].ids[0];
    var after := ReplyArrives(t, o, id);
    more := [Read(0, [Reply(id)]), ReadOp(0, Always())];
    PathJoin(events, states, more, after);
    all := states + after[1..];
  }

  // Operation 0 in flight on a connection, with an idle read loop.
  function InFlight(ix: Index, retry: bool, codec: Codec, handled: seq<(Codec, Codec)>): State {
    State(ix, map[0 := Writing(retry)], Some(0), false, [], Some(codec), codec, true,
          [Reader(codec, None)], codec + 1, Running, 0, handled)
  }

  function Sending(): seq<Event> {
    [Submit(0, ["1"], true, true), ReqInit(0)]
  }

  function Replying(): seq<Event> {
    [Read(0, [Reply("1")]), ReadOp(0, Always())]
  }

  function Failing(): seq<Event> {
    [WriteFails(0), DialOk(0), Reconnect(0)]
  }

  function Reattaching(): seq<Event> {
    [ReadFails(0), DrainErr(0)]
  }

  const SUBSCRIBE := Op(["1"], true, true, None, false, [], 0)

  lemma SendIt() returns (states: seq<State>)
    ensures Path(Sending(), states) && states[0] == Initial(0)
    ensures states[2] == InFlight(Index(map["1" := 0], map[0 := SUBSCRIBE]), false, 0, [])
  {
    var s := Initial(0);
    var t := Apply(s, Sending()[0]);
    var u := Apply(t, Sending()[1]);
    assert u.index.respWait == map["1" := 0] && u.index.ops == map[0 := SUBSCRIBE];
    states := [s, t, u];
  }

  lemma GetReply(s: State, ix: Index, retry: bool, codec: Codec, handled: seq<(Codec, Codec)>)
    returns (states: seq<State>)
    requires s == InFlight(ix, retry, codec, handled)
    requires WellIndexed(ix) && "1" in ix.respWait && ix.respWait["1"] == 0 && ix.ops[0].isSub && ix.ops.Keys == {0}
    ensures Path(Replying(), states) && states[0] == s
    ensures var u := states[2];
            && u == InFlight(u.index, retry, codec, handled + [(codec, codec)])
            && u.index.ops.Keys == {0}
            && u.index.ops[0].starts == ix.ops[0].starts + 1
            && u.index.ops[0].hadResponse && u.index.ops[0].ids == ["1"] && u.index.ops[0].isSub
  {
    states := ReplyArrives(s, 0, "1");
  }

  // The write fails and a new connection is made, while the old one is still read.
  lemma FailAndDial(s: State, ix: Index, handled: seq<(Codec, Codec)>) returns (states: seq<State>)
    requires s == InFlight(ix, false, 0, handled) && ix.ops.Keys == {0}
    ensures Path(Failing(), states) && states[0] == s
    ensures states[3] == Redialed(ix.ops, handled)
  {
    var t := Apply(s, WriteFails(0));
    var u := Apply(t, DialOk(0));
    var v := Apply(u, Reconnect(0));
    assert v.index.ops == ix.ops;
    assert v.phases == map[0 := Writing(true)];
    states := [s, t, u, v];
  }

  function Redialed(ops: map<OpRef, Op>, handled: seq<(Codec, Codec)>): State {
    State(Index(map[], ops), map[0 := Writing(true)], Some(0), false, [], Some(1), 0, true,
          [Reader(0, None)], 2, Draining(1), 0, handled)
  }

  // The old read loop ends, and the operation is registered on the new handler.
  lemma DrainAndAttach(s: State, ops: map<OpRef, Op>, handled: seq<(Codec, Codec)>) returns (states: seq<State>)
    requires s == Redialed(ops, handled) && ops.Keys == {0} && ops[0].ids == ["1"]
    ensures Path(Reattaching(), states) && states[0] == s
    ensures states[2] == InFlight(Index(map["1" := 0], ops), true, 1, handled)
  {
    var t := Apply(s, ReadFails(0));
    var u := Apply(t, DrainErr(0));
    assert u.index.respWait == map["1" := 0];
    states := [s, t, u];
  }

  // The condition of LaunchedOnce cannot be dropped: the server answers, the write of the
  // same request reports an error all the same, the client reconnects and sends it again,
  // and the server answers again.
  lemma LaunchedTwice() returns (events: seq<Event>, states: seq<State>)
    ensures Run(0, events, states)
    ensures 0 in states[|events|].index.ops && states[|events|].index.ops[0].starts == 2
  {
    var a := SendIt();
    var b := GetReply(a[2], a[2].index, false, 0, []);
    var s := b[2];
    var c := FailAndDial(s, s.index, s.handled);
    var d := DrainAndAttach(c[3], s.index.ops, s.handled);
    var e := GetReply(d[2], d[2].index, true, 1, s.handled);
    PathJoin(Sending(), a, Replying(), b);
    events, states := Sending() + Replying(), a + b[1..];
    PathJoin(events, states, Failing(), c);
    events, states := events + Failing(), states + c[1..];
    PathJoin(events, states, Reattaching(), d);
    events, states := events + Reattaching(), states + d[1..];
    PathJoin(events, states, Replying(), e);
    events, states := events + Replying(), states + e[1..];
  }
}
