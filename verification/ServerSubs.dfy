// The subscriptions a handler serves (rpc/handler.go, serverSubs), each with the error
// channel its owner watches (rpc/subscription.go, Subscription).
module ServerSubs {
  import opened Wrappers

  type SubRef = nat

  // added says that addSubscriptions has seen the subscription; err is the history of its
  // channel.
  datatype Sub = Sub(id: SubId, added: bool, err: seq<ChanEvent<Error>>)

  datatype Subs = Subs(serverSubs: map<SubId, SubRef>, subs: map<SubRef, Sub>)

  // ---------- Effect of each operation ----------

  function AddedOne(s: Subs, r: SubRef): Subs
    requires r in s.subs
  {
    Subs(s.serverSubs[s.subs[r].id := r], s.subs[r := s.subs[r].(added := true)])
  }

  // The subscriptions of the notifiers that made one.
  function AllAdded(s: Subs, taken: seq<Option<SubRef>>): Subs
    requires forall r :: Some(r) in taken ==> r in s.subs
  {
    if taken == [] then s
    else
      var t := AllAdded(s, taken[..|taken| - 1]);
      var last := taken[|taken| - 1];
      if last.Some? && last.value in t.subs then AddedOne(t, last.value) else t
  }

  function Unsubscribed(s: Subs, id: SubId): Subs {
    if id in s.serverSubs && s.serverSubs[id] in s.subs then
      var r := s.serverSubs[id];
      Subs(s.serverSubs - {id}, s.subs[r := s.subs[r].(err := s.subs[r].err + [Close])])
    else s
  }

  function Ended(sub: Sub, err: Error): Sub {
    sub.(err := sub.err + [Send(err), Close])
  }

  function AllCancelled(s: Subs, err: Error): Subs {
    Subs(map[], map r | r in s.subs :: if r in s.serverSubs.Values then Ended(s.subs[r], err) else s.subs[r])
  }

  // ---------- The invariant ----------

  ghost predicate SubOk(sub: Sub) {
    && AtMostOneSendThenClose(sub.err)
    && (!sub.added ==> sub.err == [])
    && (sub.err != [] ==> sub.err[|sub.err| - 1] == Close)
  }

  // A registered subscription is registered under its own ID and has not been ended.
  ghost predicate Valid(s: Subs) {
    && (forall r :: r in s.subs ==> SubOk(s.subs[r]))
    && (forall id :: id in s.serverSubs ==>
          && s.serverSubs[id] in s.subs
          && s.subs[s.serverSubs[id]].id == id
          && s.subs[s.serverSubs[id]].added
          && s.subs[s.serverSubs[id]].err == [])
  }

  // What addSubscriptions is given: notifiers are passed to it once, and each has its own
  // subscription.
  ghost predicate Takeable(s: Subs, taken: seq<Option<SubRef>>) {
    && (forall r :: Some(r) in taken ==> r in s.subs && !s.subs[r].added)
    && (forall i, j :: 0 <= i < j < |taken| && taken[i].Some? ==> taken[i] != taken[j])
  }

  lemma AddedOneKeepsValid(s: Subs, r: SubRef)
    requires Valid(s) && r in s.subs && !s.subs[r].added
    ensures Valid(AddedOne(s, r))
  {
    assert SubOk(s.subs[r]);
  }

  lemma {:induction false} AllAddedKeepsValid(s: Subs, taken: seq<Option<SubRef>>)
    requires Valid(s) && Takeable(s, taken)
    ensures Valid(AllAdded(s, taken))
    ensures AllAdded(s, taken).subs.Keys == s.subs.Keys
    ensures forall r :: r in s.subs ==>
              AllAdded(s, taken).subs[r] == s.subs[r].(added := s.subs[r].added || Some(r) in taken)
  {
    if taken != [] {
      var front, last := taken[..|taken| - 1], taken[|taken| - 1];
      assert forall r :: Some(r) in front ==> Some(r) in taken;
      assert taken == front + [last];
      AllAddedKeepsValid(s, front);
      if last.Some? {
        assert last in taken && last !in front;
        AddedOneKeepsValid(AllAdded(s, front), last.value);
      }
    }
  }

  lemma UnsubscribedKeepsValid(s: Subs, id: SubId)
    requires Valid(s)
    ensures Valid(Unsubscribed(s, id))
  {
  }

  lemma CancelledKeepsValid(s: Subs, err: Error)
    requires Valid(s)
    ensures Valid(AllCancelled(s, err)) && AllCancelled(s, err).serverSubs == map[]
  {
    forall r | r in s.subs ensures SubOk(AllCancelled(s, err).subs[r]) {
      assert SubOk(s.subs[r]);
      if r in s.serverSubs.Values {
        assert exists id :: id in s.serverSubs && s.serverSubs[id] == r;
      }
    }
  }

  // ---------- The handler; subLock makes each method one step ----------

  class Handler {
    var serverSubs: map<SubId, SubRef>
    var subs: map<SubRef, Sub>

    ghost function State(): Subs
      reads this
    {
      Subs(serverSubs, subs)
    }

    method AddSubscriptions(taken: seq<Option<SubRef>>)
      requires Valid(State()) && Takeable(State(), taken)
      modifies this
      ensures Valid(State()) && State() == AllAdded(old(State()), taken)
    {
      ghost var start := State();
      AllAddedKeepsValid(start, taken);
      for k := 0 to |taken|
        invariant forall r :: Some(r) in taken[..k] ==> r in start.subs
        invariant State() == AllAdded(start, taken[..k])
        invariant subs.Keys == start.subs.Keys
      {
        assert taken[..k + 1][..k] == taken[..k];
        assert taken[..k + 1] == taken[..k] + [taken[k]];
        if taken[k].Some? {
          var r := taken[k].value;
          assert Some(r) in taken;
          serverSubs := serverSubs[subs[r].id := r];
          subs := subs[r := subs[r].(added := true)];
        }
      }
      assert taken[..|taken|] == taken;
    }

    method Unsubscribe(id: SubId) returns (found: bool)
      requires Valid(State())
      modifies this
      ensures Valid(State()) && State() == Unsubscribed(old(State()), id)
      ensures found <==> id in old(serverSubs)
    {
      UnsubscribedKeepsValid(State(), id);
      if id !in serverSubs {
        return false;
      }
      var r := serverSubs[id];
      subs := subs[r := subs[r].(err := subs[r].err + [Close])];
      serverSubs := serverSubs - {id};
      return true;
    }

    // The map is walked in an arbitrary order.
    method CancelServerSubscriptions(err: Error)
      requires Valid(State())
      modifies this
      ensures Valid(State()) && State() == AllCancelled(old(State()), err)
    {
      ghost var start, done := State(), {};
      while serverSubs != map[]
        invariant Cancelling(start, State(), done, err)
        decreases |serverSubs|
      {
        var id :| id in serverSubs;
        var r := serverSubs[id];
        CancelStep(start, State(), done, err, id);
        subs := subs[r := Ended(subs[r], err)];
        serverSubs := serverSubs - {id};
        done := done + {r};
      }
      CancelEnd(start, State(), done, err);
      CancelledKeepsValid(start, err);
    }
  }

  ghost predicate Cancelling(start: Subs, s: Subs, done: set<SubRef>, err: Error) {
    && Valid(start)
    && (forall id :: id in s.serverSubs ==> id in start.serverSubs && s.serverSubs[id] == start.serverSubs[id])
    && (forall id :: id in start.serverSubs ==> (id in s.serverSubs <==> start.serverSubs[id] !in done))
    && (forall r :: r in done ==> r in start.serverSubs.Values)
    && s.subs == map r | r in start.subs :: if r in done then Ended(start.subs[r], err) else start.subs[r]
  }

  lemma CancelStep(start: Subs, s: Subs, done: set<SubRef>, err: Error, id: SubId)
    requires Cancelling(start, s, done, err) && id in s.serverSubs
    ensures s.serverSubs[id] in s.subs
    ensures var r := s.serverSubs[id];
            Cancelling(start, Subs(s.serverSubs - {id}, s.subs[r := Ended(s.subs[r], err)]), done + {r}, err)
  {
    var r := s.serverSubs[id];
    assert start.serverSubs[id] == r && start.subs[r].id == id;
    assert forall other :: other in start.serverSubs && start.serverSubs[other] == r ==> other == id;
  }

  lemma CancelEnd(start: Subs, s: Subs, done: set<SubRef>, err: Error)
    requires Cancelling(start, s, done, err) && s.serverSubs == map[]
    ensures s == AllCancelled(start, err)
  {
    forall r ensures r in done <==> r in start.serverSubs.Values {
      if r in start.serverSubs.Values {
        var id :| id in start.serverSubs && start.serverSubs[id] == r;
        assert id !in s.serverSubs;
      }
    }
  }

  // ---------- Runs ----------

  datatype Event = Add(taken: seq<Option<SubRef>>) | Remove(id: SubId) | CloseHandler(err: Error)

  ghost predicate Next(s: Subs, e: Event, t: Subs) {
    match e
    case Add(taken) => Takeable(s, taken) && t == AllAdded(s, taken)
    case Remove(id) => t == Unsubscribed(s, id)
    case CloseHandler(err) => t == AllCancelled(s, err)
  }

  // The subscriptions that will ever be made, none of them added yet.
  ghost predicate Start(s: Subs) {
    s.serverSubs == map[] && forall r :: r in s.subs ==> !s.subs[r].added && s.subs[r].err == []
  }

  ghost predicate Run(events: seq<Event>, states: seq<Subs>) {
    && |states| == |events| + 1
    && Start(states[0])
    && forall i :: 0 <= i < |events| ==> Next(states[i], events[i], states[i + 1])
  }

  ghost predicate DistinctIds(s: Subs) {
    forall r, q :: r in s.subs && q in s.subs && s.subs[r].id == s.subs[q].id ==> r == q
  }

  // Every subscription added is registered, or has been ended.
  ghost predicate Tracked(s: Subs) {
    forall r :: r in s.subs && s.subs[r].added && s.subs[r].err == [] ==>
      s.subs[r].id in s.serverSubs && s.serverSubs[s.subs[r].id] == r
  }

  lemma {:induction false} AddedTracked(s: Subs, taken: seq<Option<SubRef>>)
    requires Valid(s) && Takeable(s, taken) && DistinctIds(s) && Tracked(s)
    ensures DistinctIds(AllAdded(s, taken)) && Tracked(AllAdded(s, taken))
  {
    if taken != [] {
      var front := taken[..|taken| - 1];
      assert taken == front + [taken[|taken| - 1]];
      assert forall r :: Some(r) in front ==> Some(r) in taken;
      AddedTracked(s, front);
      AllAddedKeepsValid(s, front);
      AllAddedKeepsValid(s, taken);
    }
  }

  lemma StepKeepsAll(s: Subs, e: Event, t: Subs)
    requires Valid(s) && Next(s, e, t)
    ensures Valid(t)
    ensures DistinctIds(s) && Tracked(s) ==> DistinctIds(t) && Tracked(t)
  {
    match e
    case Add(taken) =>
      AllAddedKeepsValid(s, taken);
      if DistinctIds(s) && Tracked(s) {
        AddedTracked(s, taken);
      }
    case Remove(id) => UnsubscribedKeepsValid(s, id);
    case CloseHandler(err) =>
      CancelledKeepsValid(s, err);
      if DistinctIds(s) && Tracked(s) {
        CancelledTracked(s, err);
      }
  }

  lemma CancelledTracked(s: Subs, err: Error)
    requires Valid(s) && DistinctIds(s) && Tracked(s)
    ensures DistinctIds(AllCancelled(s, err))
    ensures forall r :: r in s.subs && s.subs[r].added ==> AllCancelled(s, err).subs[r].err != []
    ensures Tracked(AllCancelled(s, err))
  {
    forall r | r in s.subs && s.subs[r].added ensures AllCancelled(s, err).subs[r].err != [] {
      if s.subs[r].err == [] {
        assert s.serverSubs[s.subs[r].id] == r && r in s.serverSubs.Values;
      }
    }
  }

  // Over every run: each error channel gets at most one value, without blocking, and is
  // closed at most once; and with distinct IDs no subscription is lost.
  lemma {:induction false} ErrorChannels(events: seq<Event>, states: seq<Subs>, k: nat)
    requires Run(events, states) && k < |states|
    ensures Valid(states[k])
    ensures forall r :: r in states[k].subs ==> AtMostOneSendThenClose(states[k].subs[r].err)
    ensures DistinctIds(states[0]) ==> DistinctIds(states[k]) && Tracked(states[k])
  {
    if k > 0 {
      ErrorChannels(events, states, k - 1);
      assert Next(states[k - 1], events[k - 1], states[k]);
      StepKeepsAll(states[k - 1], events[k - 1], states[k]);
    }
    forall r | r in states[k].subs ensures AtMostOneSendThenClose(states[k].subs[r].err) {
      assert SubOk(states[k].subs[r]);
    }
  }

  // Closing the handler leaves nothing registered and, IDs being distinct, no subscription
  // ever added with an open error channel.
  lemma ClosedCompletely(events: seq<Event>, states: seq<Subs>, k: nat)
    requires Run(events, states) && k < |events| && events[k].CloseHandler?
    ensures states[k + 1].serverSubs == map[]
    ensures DistinctIds(states[0]) ==> AllEnded(states[k + 1])
  {
    ErrorChannels(events, states, k);
    ErrorChannels(events, states, k + 1);
    assert Next(states[k], events[k], states[k + 1]);
    if DistinctIds(states[0]) {
      CancelledTracked(states[k], events[k].err);
      EndedIsClosed(states[k + 1]);
    }
  }

  // What the owner of a subscription that was added and is still open finds on its channel
  // after a step: nothing new, a close if its client unsubscribed, or the error and a close
  // if the handler is closed.
  function OwnerSees(sub: Sub, e: Event): seq<ChanEvent<Error>> {
    match e
    case Add(_) => []
    case Remove(id) => if id == sub.id then [Close] else []
    case CloseHandler(err) => [Send(err), Close]
  }

  lemma EndsAs(s: Subs, e: Event, t: Subs, r: SubRef)
    requires Valid(s) && DistinctIds(s) && Tracked(s) && Next(s, e, t) && r in s.subs
    ensures r in t.subs
    ensures t.subs[r].err == s.subs[r].err
              + if s.subs[r].added && s.subs[r].err == [] then OwnerSees(s.subs[r], e) else []
  {
    match e
    case Add(taken) => AllAddedKeepsValid(s, taken);
    case Remove(id) =>
    case CloseHandler(err) =>
      if s.subs[r].added && s.subs[r].err == [] {
        assert s.serverSubs[s.subs[r].id] == r && r in s.serverSubs.Values;
      }
  }

  // In every run, with distinct IDs: each step ends exactly the subscriptions it is meant
  // for, and tells their owners what happened; the others it leaves alone.
  lemma OwnersTold(events: seq<Event>, states: seq<Subs>, k: nat, r: SubRef)
    requires Run(events, states) && k < |events| && DistinctIds(states[0]) && r in states[k].subs
    ensures r in states[k + 1].subs
    ensures states[k + 1].subs[r].err == states[k].subs[r].err
              + if states[k].subs[r].added && states[k].subs[r].err == []
                then OwnerSees(states[k].subs[r], events[k]) else []
  {
    ErrorChannels(events, states, k);
    assert Next(states[k], events[k], states[k + 1]);
    EndsAs(states[k], events[k], states[k + 1], r);
  }

  ghost predicate AllEnded(s: Subs) {
    forall r :: r in s.subs && s.subs[r].added ==> Close in s.subs[r].err
  }

  lemma EndedIsClosed(s: Subs)
    requires Valid(s) && forall r :: r in s.subs && s.subs[r].added ==> s.subs[r].err != []
    ensures AllEnded(s)
  {
    forall r | r in s.subs && s.subs[r].added ensures Close in s.subs[r].err {
      assert SubOk(s.subs[r]);
    }
  }
}
