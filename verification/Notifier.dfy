// The server side of a subscription (rpc/subscription.go, Notifier): notifications are
// held back until the answer to the subscribe call has been written.
module Notifiers {
  import opened Wrappers

  type Data = string

  // The fields of a Notifier, with the history of the data passed to Notify and of the
  // data it tried to write to the connection.
  datatype NotifierState = NotifierState(
    sub: Option<SubId>, buffer: seq<Data>, callReturned: bool, activated: bool,
    notified: seq<Data>, attempted: seq<Data>, activateCalled: bool)

  const NEW_NOTIFIER := NotifierState(None, [], false, false, [], [], false)

  datatype Panic = Panic(reason: string)

  // Notifications reach the wire in order and without gaps or duplicates; before
  // activation none does, and after a successful one all do.
  ghost predicate InOrder(n: NotifierState) {
    && n.attempted <= n.notified
    && (!n.activateCalled ==> n.attempted == [] && n.buffer == n.notified && !n.activated)
    && (n.activated ==> n.attempted == n.notified)
    && (n.sub == None ==> n.notified == [])
  }

  // ---------- Effect of each method ----------

  function Created(n: NotifierState, id: SubId): NotifierState {
    n.(sub := Some(id))
  }

  function Notified(n: NotifierState, data: Data): NotifierState {
    if n.activated
    then n.(attempted := n.attempted + [data], notified := n.notified + [data])
    else n.(buffer := n.buffer + [data], notified := n.notified + [data])
  }

  function Taken(n: NotifierState): NotifierState {
    n.(callReturned := true)
  }

  // The buffer is written until one write fails; good writes come before that.
  function Activated(n: NotifierState, good: nat): NotifierState {
    if good < |n.buffer|
    then n.(attempted := n.attempted + n.buffer[..good + 1], activateCalled := true)
    else n.(attempted := n.attempted + n.buffer, activated := true, activateCalled := true)
  }

  lemma CreatedKeepsOrder(n: NotifierState, id: SubId)
    requires InOrder(n)
    ensures InOrder(Created(n, id))
  {
  }

  lemma NotifiedKeepsOrder(n: NotifierState, data: Data)
    requires InOrder(n) && n.sub.Some?
    ensures InOrder(Notified(n, data))
    ensures Notified(n, data).notified == n.notified + [data]
    ensures !n.activateCalled ==> Notified(n, data).attempted == n.attempted
  {
  }

  lemma ActivatedKeepsOrder(n: NotifierState, good: nat)
    requires InOrder(n) && !n.activateCalled
    ensures InOrder(Activated(n, good))
    ensures Activated(n, good).activated <==> good >= |n.notified|
    ensures Activated(n, good).attempted == if good < |n.notified| then n.notified[..good + 1] else n.notified
    ensures Activated(n, good).notified == n.notified
  {
    assert n.attempted + n.buffer == n.buffer;
    assert good < |n.buffer| ==> n.attempted + n.buffer[..good + 1] == n.buffer[..good + 1];
  }

  // ---------- The object; mu makes each method one step ----------

  class Notifier {
    var sub: Option<SubId>
    var buffer: seq<Data>
    var callReturned: bool
    var activated: bool
    ghost var notified: seq<Data>
    ghost var attempted: seq<Data>
    ghost var activateCalled: bool

    ghost function State(): NotifierState
      reads this
    {
      NotifierState(sub, buffer, callReturned, activated, notified, attempted, activateCalled)
    }

    ghost predicate Valid()
      reads this
    {
      InOrder(State())
    }

    constructor ()
      ensures Valid() && State() == NEW_NOTIFIER
    {
      sub, buffer, callReturned, activated := None, [], false, false;
      notified, attempted, activateCalled := [], [], false;
    }

    // One subscription per subscribe call, and only while the call runs.
    method CreateSubscription(id: SubId) returns (r: Result<SubId, Panic>)
      requires Valid()
      modifies this
      ensures Valid()
      ensures r.Ok? <==> old(sub) == None && !old(callReturned)
      ensures r.Ok? ==> r.value == id && sub == Some(id)
      ensures State() == if r.Ok? then Created(old(State()), id) else old(State())
    {
      if sub.Some? {
        return Err(Panic("can't create multiple subscriptions with Notifier"));
      } else if callReturned {
        return Err(Panic("can't create subscription after subscribe call has returned"));
      }
      sub := Some(id);
      CreatedKeepsOrder(old(State()), id);
      return Ok(id);
    }

    // ok is the outcome of the write, if there is one.
    method Notify(id: SubId, data: Data, ok: bool) returns (r: Result<bool, Panic>)
      requires Valid()
      modifies this
      ensures Valid()
      ensures r.Ok? <==> old(sub) == Some(id)
      ensures r.Ok? ==> r.value == (ok || !old(activated))
      ensures State() == if r.Ok? then Notified(old(State()), data) else old(State())
    {
      if sub == None {
        return Err(Panic("can't Notify before subscription is created"));
      } else if sub.value != id {
        return Err(Panic("Notify with wrong ID"));
      }
      NotifiedKeepsOrder(State(), data);
      notified := notified + [data];
      if activated {
        attempted := attempted + [data];
        return Ok(ok);
      }
      buffer := buffer + [data];
      return Ok(true);
    }

    method TakeSubscription() returns (r: Option<SubId>)
      requires Valid()
      modifies this
      ensures Valid() && r == old(sub) && State() == Taken(old(State()))
    {
      callReturned := true;
      r := sub;
    }

    // Called once, after the answer; sends says which write would fail.
    method Activate(sends: nat -> bool) returns (ok: bool, ghost good: nat)
      requires Valid() && !activateCalled
      modifies this
      ensures Valid()
      ensures State() == Activated(old(State()), good)
      ensures forall i: nat :: i < good && i < |old(buffer)| ==> sends(i)
      ensures good < |old(buffer)| ==> !sends(good)
      ensures ok <==> good >= |old(buffer)|
    {
      ghost var before := State();
      activateCalled := true;
      for i := 0 to |buffer|
        invariant buffer == before.buffer
        invariant sub == before.sub && callReturned == before.callReturned && activated == before.activated
        invariant notified == before.notified && activateCalled
        invariant attempted == before.attempted + buffer[..i]
        invariant forall j: nat :: j < i ==> sends(j)
      {
        attempted := attempted + [buffer[i]];
        assert buffer[..i + 1] == buffer[..i] + [buffer[i]];
        if !sends(i) {
          ActivatedKeepsOrder(before, i);
          return false, i;
        }
      }
      assert buffer[..|buffer|] == buffer;
      ActivatedKeepsOrder(before, |buffer|);
      activated := true;
      return true, |buffer|;
    }
  }
}
