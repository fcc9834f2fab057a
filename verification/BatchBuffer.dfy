// The call buffer of a batch (rpc/handler.go, batchCallBuffer), shared by the goroutine
// that executes the calls and by the timeout.
module BatchBuffer {
  import opened Wrappers
  import opened Messages

  datatype Write = Write(content: seq<Message>, isErrorResponse: bool)

  // The fields of the buffer, and what it has written to the connection.
  datatype Buffer = Buffer(calls: seq<Message>, resp: seq<Message>, wrote: bool, wire: seq<Write>)

  // ---------- Effect of each method ----------

  // The error answers of respondWithError: one per message that is not a notification.
  function ErrorsFor(calls: seq<Message>, err: JsonError): seq<Message> {
    if calls == [] then []
    else
      var front, last := calls[..|calls| - 1], calls[|calls| - 1];
      ErrorsFor(front, err) + if last.IsNotification() then [] else [last.ErrorResponse(err)]
  }

  function Pushed(b: Buffer, answer: Option<Message>): Buffer
    requires b.calls != []
  {
    b.(calls := b.calls[1..], resp := b.resp + if answer.Some? then [answer.value] else [])
  }

  function Flushed(b: Buffer, isErrorResponse: bool): Buffer {
    if b.wrote then b
    else b.(wrote := true, wire := b.wire + if b.resp == [] then [] else [Write(b.resp, isErrorResponse)])
  }

  function RespondedWithError(b: Buffer, err: JsonError): Buffer {
    Flushed(b.(resp := b.resp + ErrorsFor(b.calls, err)), true)
  }

  // ---------- The object; mutex makes each method one step ----------

  class BatchCallBuffer {
    var calls: seq<Message>
    var resp: seq<Message>
    var wrote: bool
    ghost var wire: seq<Write>

    ghost function State(): Buffer
      reads this
    {
      Buffer(calls, resp, wrote, wire)
    }

    constructor (calls: seq<Message>)
      ensures State() == Buffer(calls, [], false, [])
    {
      this.calls, resp, wrote, wire := calls, [], false, [];
    }

    // The call stays in the buffer until its answer is pushed.
    method NextCall() returns (msg: Option<Message>)
      ensures msg == if calls == [] then None else Some(calls[0])
    {
      if |calls| == 0 {
        return None;
      }
      return Some(calls[0]);
    }

    method PushResponse(answer: Option<Message>)
      requires calls != []
      modifies this
      ensures State() == Pushed(old(State()), answer)
    {
      if answer.Some? {
        resp := resp + [answer.value];
      }
      calls := calls[1..];
    }

    method DoWrite(isErrorResponse: bool)
      modifies this
      ensures State() == Flushed(old(State()), isErrorResponse)
    {
      if wrote {
        return;
      }
      wrote := true;
      if |resp| > 0 {
        wire := wire + [Write(resp, isErrorResponse)];
      }
    }

    method WriteResponses()
      modifies this
      ensures State() == Flushed(old(State()), false)
    {
      DoWrite(false);
    }

    method RespondWithError(err: JsonError)
      modifies this
      ensures State() == RespondedWithError(old(State()), err)
    {
      for k := 0 to |calls|
        invariant State() == old(State()).(resp := old(resp) + ErrorsFor(old(calls)[..k], err))
      {
        assert calls[..k + 1][..k] == calls[..k];
        if !calls[k].IsNotification() {
          resp := resp + [calls[k].ErrorResponse(err)];
        }
      }
      assert calls[..|calls|] == calls;
      DoWrite(true);
    }
  }

  // ---------- Answers in order ----------

  // What calling the messages one after the other has answered so far.
  function Collected(answers: seq<Option<Message>>): seq<Message> {
    if answers == [] then []
    else
      var front, last := answers[..|answers| - 1], answers[|answers| - 1];
      Collected(front) + if last.Some? then [last.value] else []
  }

  // rs answers ms: in order, exactly one answer per message that is not a notification
  // (section 6 of the JSON-RPC 2.0 Specification).
  ghost predicate AnswersInOrder(ms: seq<Message>, rs: seq<Message>) {
    if ms == [] then rs == []
    else
      var m, rest := ms[|ms| - 1], ms[..|ms| - 1];
      if m.IsNotification() then AnswersInOrder(rest, rs)
      else rs != [] && Answers(rs[|rs| - 1], m) && AnswersInOrder(rest, rs[..|rs| - 1])
  }

  function CountCalls(ms: seq<Message>): nat {
    if ms == [] then 0
    else CountCalls(ms[..|ms| - 1]) + if ms[|ms| - 1].IsNotification() then 0 else 1
  }

  lemma {:induction false} AnswersCount(ms: seq<Message>, rs: seq<Message>)
    requires AnswersInOrder(ms, rs)
    ensures |rs| == CountCalls(ms)
  {
    if ms != [] {
      AnswersCount(ms[..|ms| - 1], if ms[|ms| - 1].IsNotification() then rs else rs[..|rs| - 1]);
    }
  }

  // Each message that expects an answer has one in the list.
  lemma {:induction false} AnswerPresent(ms: seq<Message>, rs: seq<Message>, i: nat)
    requires AnswersInOrder(ms, rs) && i < |ms| && !ms[i].IsNotification()
    ensures exists r :: r in rs && Answers(r, ms[i])
  {
    var last := |ms| - 1;
    if i == last {
      assert rs[|rs| - 1] in rs;
    } else {
      var rest := if ms[last].IsNotification() then rs else rs[..|rs| - 1];
      AnswerPresent(ms[..last], rest, i);
      var r :| r in rest && Answers(r, ms[..last][i]);
      assert r in rs;
    }
  }

  // One answer per executed call, or none for a notification.
  ghost predicate AnswersTo(answers: seq<Option<Message>>, ms: seq<Message>) {
    && |answers| == |ms|
    && forall i :: 0 <= i < |ms| ==> AnswerTo(answers[i], ms[i])
  }

  predicate AnswerTo(answer: Option<Message>, m: Message) {
    && (answer == None <==> m.IsNotification())
    && (answer.Some? ==> Answers(answer.value, m))
  }

  lemma {:induction false} ExecutedAnswers(answers: seq<Option<Message>>, ms: seq<Message>)
    requires AnswersTo(answers, ms)
    ensures AnswersInOrder(ms, Collected(answers))
  {
    if ms != [] {
      var last := |ms| - 1;
      assert AnswerTo(answers[last], ms[last]);
      forall i | 0 <= i < last ensures AnswerTo(answers[..last][i], ms[..last][i]) {
        assert AnswerTo(answers[i], ms[i]);
      }
      ExecutedAnswers(answers[..last], ms[..last]);
      var rs, front := Collected(answers), Collected(answers[..last]);
      if answers[last].Some? {
        assert rs == front + [answers[last].value];
        assert rs[..|rs| - 1] == front;
      } else {
        assert rs == front;
      }
    }
  }

  // Executed calls followed by error answers for the others.
  lemma {:induction false} CutShortAnswers(done: seq<Message>, rest: seq<Message>, rs: seq<Message>, err: JsonError)
    requires AnswersInOrder(done, rs)
    ensures AnswersInOrder(done + rest, rs + ErrorsFor(rest, err))
  {
    if rest == [] {
      assert done + rest == done && rs + ErrorsFor(rest, err) == rs;
    } else {
      var front, m := rest[..|rest| - 1], rest[|rest| - 1];
      CutShortAnswers(done, front, rs, err);
      assert (done + rest)[..|done + rest| - 1] == done + front;
      var all := rs + ErrorsFor(rest, err);
      assert (done + rest)[|done + rest| - 1] == m;
      if m.IsNotification() {
        assert all == rs + ErrorsFor(front, err);
      } else {
        assert all == rs + ErrorsFor(front, err) + [m.ErrorResponse(err)];
        assert all[..|all| - 1] == rs + ErrorsFor(front, err);
      }
    }
  }
}
