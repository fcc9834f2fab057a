// Which of the requests that have been sent can still be answered, and which are lost: an
// exact condition on the state, for all states of all runs.
module LostRequests {
  import opened Wrappers
  import opened Messages
  import opened RequestIndex
  import opened Dispatch
  import opened DispatchSafety
  import opened DispatchTheorems
  import opened Launches
  import opened Stranding

  // The caller has returned from send, and may be waiting.
  predicate PastSend(s: State, o: OpRef) {
    o in s.index.ops && o in s.phases && s.phases[o] != Ready && !InWrite(s.phases[o])
  }

  // A handler that is being read from waits for the operation, or will do so after the
  // reconnect under way.
  ghost predicate Answerable(s: State, o: OpRef) {
    || (s.loop == Running && s.reading && Registered(s.index, o))
    || (s.loop.Draining? && s.lastOp == Some(o) && o in s.index.ops && s.index.ops[o].ids != [])
  }

  ghost predicate Lost(s: State, o: OpRef) {
    PastSend(s, o) && !Answerable(s, o)
  }

  // ---------- Lost for ever ----------

  ghost predicate StaysLost(s: State, t: State, o: OpRef) {
    Lost(t, o) && o in s.index.ops && t.index.ops[o].resp == s.index.ops[o].resp
  }

  lemma LostReconnect(s: State, p: OpRef, o: OpRef)
    requires Inv(s) && Enabled(s, Reconnect(p)) && Lost(s, o)
    ensures StaysLost(s, Apply(s, Reconnect(p)), o)
  {
    if s.reading {
      CancelledChannels(s.index, RECONNECTED, s.lastOp);
    } else {
      AttachChannels(s.index, s.lastOp.value);
    }
  }

  lemma LostDrainErr(s: State, r: nat, o: OpRef)
    requires Inv(s) && Enabled(s, DrainErr(r)) && Lost(s, o)
    ensures StaysLost(s, Apply(s, DrainErr(r)), o)
  {
    if s.loop.Draining? {
      AttachChannels(s.index, s.lastOp.value);
      var added := Added(Index(map[], s.index.ops), s.lastOp.value);
      assert s.index.ops[o].ids == [] ==> !Registered(added, o);
    }
  }

  lemma LostClosing(s: State, e: Event, o: OpRef)
    requires Inv(s) && Enabled(s, e) && Lost(s, o) && (e.ReadErr? || e.Quit?)
    ensures StaysLost(s, Apply(s, e), o)
  {
    assert e.ReadErr? ==> s.reading;
    if s.reading {
      CancelledChannels(s.index, if e.Quit? then CLIENT_QUIT else READ_ERROR, if e.Quit? then None else s.lastOp);
    }
  }

  lemma LostRead(s: State, r: nat, decodes: Raw -> bool, o: OpRef)
    requires Inv(s) && Enabled(s, ReadOp(r, decodes)) && Lost(s, o)
    ensures StaysLost(s, Apply(s, ReadOp(r, decodes)), o)
  {
    HandleChannels(s, s.readers[r].got.value.batch, decodes);
  }

  lemma LostInLoop(s: State, e: Event, o: OpRef)
    requires Inv(s) && Enabled(s, e) && Lost(s, o)
    requires e.ReqInit? || e.ReqSent? || e.ReqTimeout? || e.DrainMsg?
    ensures StaysLost(s, Apply(s, e), o)
  {
    match e
    case ReqInit(p) => AddedChannels(s.index, p);
    case ReqSent => if s.reqSent[0] { RemovedChannels(s.index, s.lastOp.value); }
    case ReqTimeout(p) => RemovedChannels(s.index, p);
    case DrainMsg(r) =>
  }

  lemma StaysPastSend(s: State, e: Event, o: OpRef)
    requires Enabled(s, e) && !ByDispatch(e) && PastSend(s, o)
    ensures PastSend(Apply(s, e), o)
  {
  }

  lemma LostOutside(s: State, e: Event, o: OpRef)
    requires Inv(s) && Enabled(s, e) && Lost(s, o) && !ByDispatch(e)
    ensures StaysLost(s, Apply(s, e), o)
  {
    OutsideFrame(s, e);
    StaysPastSend(s, e, o);
  }

  lemma LostNext(s: State, e: Event, t: State, o: OpRef)
    requires Inv(s) && Next(s, e, t) && Lost(s, o)
    ensures StaysLost(s, t, o)
  {
    if e.Reconnect? {
      LostReconnect(s, e.o, o);
    } else if e.DrainErr? {
      LostDrainErr(s, e.r, o);
    } else if e.ReadErr? || e.Quit? {
      LostClosing(s, e, o);
    } else if e.ReadOp? {
      LostRead(s, e.r, e.decodes, o);
    } else if ByDispatch(e) {
      LostInLoop(s, e, o);
    } else {
      LostOutside(s, e, o);
    }
  }

  // The channel of a lost request is never used again, whatever the server, the
  // connections and the user do.
  lemma {:induction false} LostForever(events: seq<Event>, states: seq<State>, o: OpRef)
    requires Path(events, states) && Inv(states[0]) && Lost(states[0], o)
    ensures StaysLost(states[0], states[|events|], o)
  {
    if events != [] {
      PathTail(events, states);
      StepKeepsInv(states[0], events[0]);
      LostNext(states[0], events[0], states[1], o);
      LostForever(events[1..], states[1..], o);
    }
  }

  // ---------- Still answerable ----------

  // What is on the channel of o does not change, and a handler being read waits for it.
  ghost predicate Awaited(s: State, t: State, o: OpRef) {
    && t.loop == Running && t.reading && Registered(t.index, o)
    && o in s.index.ops && o in t.index.ops && t.index.ops[o] == s.index.ops[o]
  }

  // The end of a reconnect on behalf of the operation.
  lemma Reattach(s: State, o: OpRef)
    requires Inv(s) && s.loop.Draining? && s.lastOp == Some(o) && s.index.ops[o].ids != []
    requires s.readers == [Reader(s.conn, Some(Failed))]
    ensures Enabled(s, DrainErr(0)) && Awaited(s, Apply(s, DrainErr(0)), o)
  {
    var t := Apply(s, DrainErr(0));
    var id := s.index.ops[o].ids[0];
    assert id in t.index.respWait && t.index.respWait[id] == o;
  }

  // Draining, at whatever point the old read loop is.
  lemma DrainAndReattach(s: State, o: OpRef) returns (events: seq<Event>, states: seq<State>)
    requires Inv(s) && s.loop.Draining? && s.lastOp == Some(o) && s.index.ops[o].ids != []
    ensures Path(events, states) && states[0] == s && Awaited(s, states[|events|], o)
    decreases if s.readers[0].got == None then 1 else if s.readers[0].got.value.Msgs? then 2 else 0
  {
    var e := if s.readers[0].got == None then ReadFails(0)
             else if s.readers[0].got.value.Msgs? then DrainMsg(0) else DrainErr(0);
    var t := Apply(s, e);
    if e == DrainErr(0) {
      assert s.readers == [s.readers[0]];
      Reattach(s, o);
      events, states := [e], [s, t];
    } else {
      StepKeepsInv(s, e);
      var more, after := DrainAndReattach(t, o);
      events, states := [e] + more, [s] + after;
      PathJoin([e], [s, t], more, after);
      assert [s, t] + after[1..] == states;
    }
  }

  lemma QuitAfter(s: State, o: OpRef)
    requires Inv(s) && Awaited(s, s, o)
    ensures Next(s, Quit, Apply(s, Quit))
    ensures o in Apply(s, Quit).index.ops && Apply(s, Quit).index.ops[o].resp == s.index.ops[o].resp + [Close]
  {
    assert o in s.index.respWait.Values;
  }

  // The continuation puts something on the channel of the operation.
  ghost predicate Delivers(s: State, events: seq<Event>, states: seq<State>, o: OpRef) {
    && Path(events, states) && states[0] == s && o in s.index.ops && o in states[|events|].index.ops
    && states[|events|].index.ops[o].resp != s.index.ops[o].resp
  }

  ghost predicate CanBeAnswered(s: State, o: OpRef) {
    exists events: seq<Event>, states: seq<State> :: Delivers(s, events, states, o)
  }

  lemma CloseAnswers(s: State, events: seq<Event>, states: seq<State>, o: OpRef)
    requires Path(events, states) && states[0] == s && Inv(states[|events|])
    requires Awaited(s, states[|events|], o)
    ensures CanBeAnswered(s, o)
  {
    var t := states[|events|];
    QuitAfter(t, o);
    PathSnoc(events, states, Quit);
    assert Delivers(s, events + [Quit], states + [Apply(t, Quit)], o);
  }

  lemma {:induction false} PathKeepsInv(events: seq<Event>, states: seq<State>)
    requires Path(events, states) && Inv(states[0])
    ensures Inv(states[|events|])
  {
    if events != [] {
      PathTail(events, states);
      StepKeepsInv(states[0], events[0]);
      PathKeepsInv(events[1..], states[1..]);
    }
  }

  lemma AnswerableIsAnswered(s: State, o: OpRef)
    requires Inv(s) && PastSend(s, o) && Answerable(s, o)
    ensures CanBeAnswered(s, o)
  {
    if s.loop == Running {
      CloseAnswers(s, [], [s], o);
    } else {
      var events, states := DrainAndReattach(s, o);
      PathKeepsInv(events, states);
      CloseAnswers(s, events, states, o);
    }
  }

  lemma LostIsNotAnswered(s: State, o: OpRef)
    requires Inv(s) && Lost(s, o)
    ensures !CanBeAnswered(s, o)
  {
    forall events: seq<Event>, states: seq<State> | Path(events, states) && states[0] == s
      ensures !Delivers(s, events, states, o)
    {
      LostForever(events, states, o);
    }
  }

  // In every state of every run, for every request past send: something can still be put
  // on its channel, a value or a close, if and only if a handler that is being read from
  // waits for it, or the reconnect under way is for it. The others are lost.
  lemma LostExactly(limit: nat, events: seq<Event>, states: seq<State>, k: nat, o: OpRef)
    requires Run(limit, events, states) && k < |states| && PastSend(states[k], o)
    ensures CanBeAnswered(states[k], o) <==> Answerable(states[k], o)
  {
    RunInv(limit, events, states, k);
    if Answerable(states[k], o) {
      AnswerableIsAnswered(states[k], o);
    } else {
      LostIsNotAnswered(states[k], o);
    }
  }

  // ---------- A lost request that is still registered ----------

  function BreakingFirst(): seq<Event> {
    [ReadFails(0), ReadErr(0)]
  }

  function SendingUnread(): seq<Event> {
    [Submit(0, ["1"], true, false), ReqInit(0)]
  }

  function WritingUnread(): seq<Event> {
    [WriteOk(0), ReqSent]
  }

  const CALL := Op(["1"], true, false, None, false, [], 0)

  // Before the request, and while it is being written.
  function Unread(): State {
    State(Index(map[], map[]), map[], None, true, [], Some(0), 0, false, [], 1, Running, 0, [])
  }

  function UnreadWriting(): State {
    State(Index(map["1" := 0], map[0 := CALL]), map[0 := Writing(false)], Some(0), false, [], Some(0), 0, false,
          [], 1, Running, 0, [])
  }

  lemma BreakFirst() returns (states: seq<State>)
    ensures Path(BreakingFirst(), states) && states[0] == Initial(0) && states[2] == Unread()
  {
    var t := Apply(Initial(0), ReadFails(0));
    var u := Apply(t, ReadErr(0));
    assert u.index == Index(map[], map[]) && u.readers == [];
    states := [Initial(0), t, u];
  }

  lemma SendUnread() returns (states: seq<State>)
    ensures Path(SendingUnread(), states) && states[0] == Unread() && states[2] == UnreadWriting()
  {
    var s := Apply(Unread(), SendingUnread()[0]);
    var t := Apply(s, ReqInit(0));
    assert t.index == Index(map["1" := 0], map[0 := CALL]);
    states := [Unread(), s, t];
  }

  lemma WriteUnread() returns (states: seq<State>)
    ensures Path(WritingUnread(), states) && states[0] == UnreadWriting()
    ensures var s := states[2];
            && s.loop == Running && !s.reading && InPhase(s, 0, Waiting)
            && s.index == UnreadWriting().index
  {
    var s := Apply(UnreadWriting(), WriteOk(0));
    var t := Apply(s, ReqSent);
    states := [UnreadWriting(), s, t];
  }

  // A request can be lost though the handler it was sent under still waits for it: the
  // read side of the connection had ended before, the write succeeded all the same, and
  // Close does not close a handler that is not read from.
  lemma RegisteredButLost() returns (events: seq<Event>, states: seq<State>)
    ensures Run(0, events, states)
    ensures var s := states[|events|];
            && Lost(s, 0) && Registered(s.index, 0) && !Stranded(s, 0)
            && s.phases[0] == Waiting && s.index.ops[0].resp == []
  {
    var a := BreakFirst();
    var b := SendUnread();
    var c := WriteUnread();
    PathJoin(BreakingFirst(), a, SendingUnread(), b);
    events, states := BreakingFirst() + SendingUnread(), a + b[1..];
    PathJoin(events, states, WritingUnread(), c);
    events, states := events + WritingUnread(), states + c[1..];
    assert c[2].index.respWait["1"] == 0;
  }

  // ---------- Closing the client ----------

  // Closing the client ends the wait of an unanswered operation exactly when a connection
  // is being read and its handler waits for the operation.
  lemma QuitAnswers(s: State, o: OpRef)
    requires Inv(s) && s.loop == Running && o in s.index.ops && s.index.ops[o].resp == []
    ensures Closed(Apply(s, Quit).index.ops[o]) <==> s.reading && Registered(s.index, o)
  {
    assert Enabled(s, Quit);
    if s.reading && Registered(s.index, o) {
      assert o in s.index.respWait.Values;
    }
  }

  // After that no channel changes any more.
  lemma {:induction false} NothingAfterQuit(events: seq<Event>, states: seq<State>, o: OpRef)
    requires Path(events, states) && (states[0].loop == Quitting || states[0].loop == Stopped)
    requires o in states[0].index.ops
    ensures var s := states[|events|];
            && (s.loop == Quitting || s.loop == Stopped)
            && o in s.index.ops && s.index.ops[o] == states[0].index.ops[o]
  {
    if events != [] {
      PathTail(events, states);
      NothingAfterQuit(events[1..], states[1..], o);
    }
  }
}
