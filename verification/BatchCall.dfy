// The client side of a batch (rpc/client.go, BatchCallContext): giving out request IDs and
// matching the replies to the elements.
module BatchCall {
  import opened Wrappers
  import opened Messages
  import opened Quantities

  datatype ElemError = ServerError(err: JsonError) | ErrNoResult | BadResult(err': Error) | ErrMissingBatchResponse

  // result is what has been decoded into the Result variable.
  datatype BatchElem = BatchElem(methodName: string, result: Option<Raw>, error: Option<ElemError>)

  // ---------- What an element has to become ----------

  // string(resp.ID): a nil ID is the empty text.
  function IdText(m: Message): Raw {
    if m.id.Some? then m.id.value else ""
  }

  // The first reply that is not null and carries the ID.
  function FirstReply(replies: seq<Option<Message>>, id: Raw): Option<Message> {
    if replies == [] then None
    else
      var earlier, last := FirstReply(replies[..|replies| - 1], id), replies[|replies| - 1];
      if earlier.Some? then earlier
      else if last.Some? && IdText(last.value) == id then last
      else None
  }

  function Settled(elem: BatchElem, resp: Message, decode: Raw -> Option<Error>): BatchElem {
    if resp.error.Some? then elem.(error := Some(ServerError(resp.error.value)))
    else if resp.result == None then elem.(error := Some(ErrNoResult))
    else
      match decode(resp.result.value)
      case Some(err) => elem.(error := Some(BadResult(err)))
      case None => elem.(error := None, result := resp.result)
  }

  function Outcome(elem: BatchElem, reply: Option<Message>, decode: Raw -> Option<Error>): BatchElem {
    if reply.Some? then Settled(elem, reply.value, decode) else elem.(error := Some(ErrMissingBatchResponse))
  }

  // What the caller finds in an element. Only a result that can be decoded leaves no error,
  // and only then does Result change.
  lemma OutcomeMeans(elem: BatchElem, reply: Option<Message>, decode: Raw -> Option<Error>)
    ensures var after := Outcome(elem, reply, decode);
            && after.methodName == elem.methodName
            && (reply == None ==> after.error == Some(ErrMissingBatchResponse))
            && (reply.Some? && reply.value.error.Some? ==> after.error == Some(ServerError(reply.value.error.value)))
            && (reply.Some? && reply.value.error == None && reply.value.result == None ==>
                  after.error == Some(ErrNoResult))
            && (reply.Some? && reply.value.error == None && reply.value.result.Some? ==>
                  (match decode(reply.value.result.value)
                   case Some(err) => after.error == Some(BadResult(err))
                   case None => after.error == None && after.result == reply.value.result))
            && (after.error.Some? ==> after.result == elem.result)
  {
  }

  // Replies after the first to an ID, and replies to other IDs, do not count.
  lemma {:induction false} FirstReplyConcat(a: seq<Option<Message>>, c: seq<Option<Message>>, id: Raw)
    ensures FirstReply(a + c, id) == if FirstReply(a, id).Some? then FirstReply(a, id) else FirstReply(c, id)
  {
    if c == [] {
      assert a + c == a;
    } else {
      FirstReplyConcat(a, c[..|c| - 1], id);
      assert (a + c)[..|a + c| - 1] == a + c[..|c| - 1];
    }
  }

  // Where an ID has one reply, the order of the replies does not matter.
  lemma {:induction false} FirstReplyUnique(replies: seq<Option<Message>>, resp: Message)
    requires Some(resp) in replies
    requires forall m :: Some(m) in replies && IdText(m) == IdText(resp) ==> m == resp
    ensures FirstReply(replies, IdText(resp)) == Some(resp)
  {
    var front, last := replies[..|replies| - 1], replies[|replies| - 1];
    assert replies == front + [last];
    if Some(resp) in front {
      FirstReplyUnique(front, resp);
    } else {
      OwnReply(front, IdText(resp));
    }
  }

  lemma {:induction false} OwnReply(replies: seq<Option<Message>>, id: Raw)
    ensures var r := FirstReply(replies, id); r.Some? ==> r in replies && IdText(r.value) == id
  {
    if replies != [] {
      OwnReply(replies[..|replies| - 1], id);
    }
  }

  // The counter values the requests get: other goroutines may take some in between, but
  // fewer than 2^32 are given out meanwhile.
  ghost predicate Stamps(stamps: seq<nat>) {
    && (forall i, j :: 0 <= i < j < |stamps| ==> stamps[i] < stamps[j])
    && (stamps != [] ==> stamps[|stamps| - 1] - stamps[0] < UINT32)
  }

  function Ids(stamps: seq<nat>): seq<Raw> {
    seq(|stamps|, i requires 0 <= i < |stamps| => RequestId(stamps[i]))
  }

  lemma IdsDistinct(stamps: seq<nat>, i: nat, j: nat)
    requires Stamps(stamps) && i < j < |stamps|
    ensures Ids(stamps)[i] != Ids(stamps)[j]
  {
    assert stamps[0] <= stamps[i] && stamps[j] <= stamps[|stamps| - 1];
    RequestIdsDiffer(stamps[i], stamps[j]);
  }

  // ---------- The method ----------

  // byID maps the IDs of those of the first n elements that have no reply yet.
  ghost predicate Indexes(byID: map<Raw, nat>, ids: seq<Raw>, n: nat, seen: seq<Option<Message>>) {
    && n <= |ids|
    && (forall i :: 0 <= i < n && FirstReply(seen, ids[i]) == None ==> ids[i] in byID && byID[ids[i]] == i)
    && (forall id :: id in byID ==> byID[id] < n && ids[byID[id]] == id && FirstReply(seen, id) == None)
  }

  // The requests are numbered and indexed, unless the parameters of one cannot be encoded.
  method NewMessages(n: nat, stamps: seq<nat>, encodes: seq<bool>) returns (byID: Option<map<Raw, nat>>)
    requires |stamps| == |encodes| == n && Stamps(stamps)
    ensures byID.Some? <==> false !in encodes
    ensures byID.Some? ==> Indexes(byID.value, Ids(stamps), n, [])
  {
    var m: map<Raw, nat> := map[];
    for i := 0 to n
      invariant Indexes(m, Ids(stamps), i, [])
      invariant false !in encodes[..i]
    {
      if !encodes[i] {
        return None;
      }
      var id := RequestId(stamps[i]);
      assert Ids(stamps)[i] == id;
      forall k: nat | k < i ensures Ids(stamps)[k] != id {
        IdsDistinct(stamps, k, i);
      }
      m := m[id := i];
    }
    return Some(m);
  }

  function Element(before: BatchElem, seen: seq<Option<Message>>, id: Raw, decode: Raw -> Option<Error>): BatchElem {
    if FirstReply(seen, id).Some? then Settled(before, FirstReply(seen, id).value, decode) else before
  }

  // Part way through the replies: the elements answered so far are settled by their first
  // reply and not waited for any more; writes counts the assignments to their errors.
  ghost predicate Matched(
    b: seq<BatchElem>, writes: seq<nat>, before: seq<BatchElem>, byID: map<Raw, nat>, ids: seq<Raw>,
    seen: seq<Option<Message>>, decode: Raw -> Option<Error>)
  {
    && |b| == |writes| == |before| == |ids|
    && Indexes(byID, ids, |ids|, seen)
    && (forall i :: 0 <= i < |ids| ==> b[i] == Element(before[i], seen, ids[i], decode))
    && (forall i :: 0 <= i < |ids| ==> writes[i] == if ids[i] in byID then 0 else 1)
  }

  lemma FirstReplySnoc(seen: seq<Option<Message>>, resp: Option<Message>, id: Raw)
    ensures FirstReply(seen + [resp], id) ==
            if FirstReply(seen, id).Some? then FirstReply(seen, id)
            else if resp.Some? && IdText(resp.value) == id then resp else None
  {
    assert (seen + [resp])[..|seen|] == seen;
  }

  // A null reply, a repeated one and one with an unknown ID change nothing.
  lemma MatchSkip(
    b: seq<BatchElem>, writes: seq<nat>, before: seq<BatchElem>, byID: map<Raw, nat>, ids: seq<Raw>,
    seen: seq<Option<Message>>, resp: Option<Message>, decode: Raw -> Option<Error>)
    requires Matched(b, writes, before, byID, ids, seen, decode)
    requires resp == None || IdText(resp.value) !in byID
    ensures Matched(b, writes, before, byID, ids, seen + [resp], decode)
  {
    forall id {
      FirstReplySnoc(seen, resp, id);
    }
  }

  lemma MatchHit(
    b: seq<BatchElem>, writes: seq<nat>, before: seq<BatchElem>, byID: map<Raw, nat>, ids: seq<Raw>,
    seen: seq<Option<Message>>, resp: Message, decode: Raw -> Option<Error>)
    requires Matched(b, writes, before, byID, ids, seen, decode)
    requires IdText(resp) in byID
    ensures var k := byID[IdText(resp)];
            && k < |b| && writes[k] == 0
            && Matched(b[k := Settled(b[k], resp, decode)], writes[k := 1], before, byID - {IdText(resp)}, ids,
                 seen + [Some(resp)], decode)
  {
    var k := byID[IdText(resp)];
    assert ids[k] == IdText(resp);
    forall id {
      FirstReplySnoc(seen, Some(resp), id);
    }
  }

  method MatchReplies(
    b: array<BatchElem>, byID0: map<Raw, nat>, ghost ids: seq<Raw>,
    batchresp: seq<Option<Message>>, decode: Raw -> Option<Error>)
    returns (byID: map<Raw, nat>, ghost writes: seq<nat>)
    requires |ids| == b.Length && Indexes(byID0, ids, b.Length, [])
    modifies b
    ensures Matched(b[..], writes, old(b[..]), byID, ids, batchresp, decode)
  {
    ghost var before := b[..];
    byID := byID0;
    writes := seq(b.Length, i => 0);
    assert batchresp[..0] == [];
    for n := 0 to |batchresp|
      invariant Matched(b[..], writes, before, byID, ids, batchresp[..n], decode)
    {
      var resp := batchresp[n];
      assert batchresp[..n + 1] == batchresp[..n] + [resp];
      if resp == None || IdText(resp.value) !in byID {
        MatchSkip(b[..], writes, before, byID, ids, batchresp[..n], resp, decode);
      } else {
        MatchHit(b[..], writes, before, byID, ids, batchresp[..n], resp.value, decode);
        var k := byID[IdText(resp.value)];
        ghost var was := b[..];
        byID := byID - {IdText(resp.value)};
        b[k] := Settled(b[k], resp.value, decode);
        writes := writes[k := writes[k] + 1];
        assert b[..] == was[k := Settled(was[k], resp.value, decode)];
      }
    }
    assert batchresp[..|batchresp|] == batchresp;
  }

  // The elements left in byID are walked in an arbitrary order.
  method MarkMissing(b: array<BatchElem>, byID0: map<Raw, nat>, ghost ids: seq<Raw>, ghost writes0: seq<nat>)
    returns (ghost writes: seq<nat>)
    requires |ids| == |writes0| == b.Length
    requires forall id :: id in byID0 ==> byID0[id] < b.Length && ids[byID0[id]] == id
    requires forall i :: 0 <= i < |ids| && ids[i] in byID0 ==> byID0[ids[i]] == i
    modifies b
    ensures |writes| == b.Length
    ensures forall i :: 0 <= i < b.Length ==>
              && b[i] == (if ids[i] in byID0 then old(b[i]).(error := Some(ErrMissingBatchResponse)) else old(b[i]))
              && writes[i] == writes0[i] + if ids[i] in byID0 then 1 else 0
  {
    var byID := byID0;
    writes := writes0;
    while byID != map[]
      invariant byID.Keys <= byID0.Keys && |writes| == b.Length
      invariant forall id :: id in byID ==> byID[id] == byID0[id]
      invariant forall i :: 0 <= i < b.Length ==>
        && b[i] == (if ids[i] in byID0.Keys - byID.Keys then old(b[i]).(error := Some(ErrMissingBatchResponse)) else old(b[i]))
        && writes[i] == writes0[i] + if ids[i] in byID0.Keys - byID.Keys then 1 else 0
      decreases |byID|
    {
      var id :| id in byID;
      var k := byID[id];
      b[k] := b[k].(error := Some(ErrMissingBatchResponse));
      writes := writes[k := writes[k] + 1];
      byID := byID - {id};
    }
  }

  // reply is the outcome of sending the batch and waiting; decode is the error of decoding
  // a result, if any. Without a reply list nothing is touched; with one, every element is
  // settled exactly once, by the first reply that is its own.
  method BatchCallContext(
    b: array<BatchElem>, stamps: seq<nat>, encodes: seq<bool>,
    reply: Result<seq<Option<Message>>, Error>, decode: Raw -> Option<Error>)
    returns (ok: bool, ghost writes: seq<nat>)
    requires |stamps| == |encodes| == b.Length && Stamps(stamps)
    modifies b
    ensures ok <==> false !in encodes && reply.Ok?
    ensures !ok ==> b[..] == old(b[..])
    ensures ok ==> forall i :: 0 <= i < b.Length ==>
              b[i] == Outcome(old(b[i]), FirstReply(reply.value, RequestId(stamps[i])), decode)
    ensures ok ==> |writes| == b.Length && forall i :: 0 <= i < b.Length ==> writes[i] == 1
  {
    ghost var ids := Ids(stamps);
    var index := NewMessages(b.Length, stamps, encodes);
    if index == None || reply.Err? {
      return false, [];
    }
    var byID;
    byID, writes := MatchReplies(b, index.value, ids, reply.value, decode);
    writes := MarkMissing(b, byID, ids, writes);
    return true, writes;
  }
}
