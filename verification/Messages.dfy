// JSON-RPC messages and their classes (rpc/json.go), with the answer to a call message
// (rpc/handler.go, handleCallMsg).
module Messages {
  import opened Wrappers

  const VSN := "2.0"
  const NULL: Raw := "null"
  const NOTIFICATION_SUFFIX := "_subscription"
  const SUBSCRIBE_SUFFIX := "_subscribe"

  const ERRCODE_TIMEOUT := -32002
  const ERRCODE_RESPONSE_TOO_LARGE := -32003
  const ERRCODE_INVALID_REQUEST := -32600

  datatype JsonError = JsonError(code: int, message: string)

  const TIMEOUT_ERROR := JsonError(ERRCODE_TIMEOUT, "request timed out")
  const TOO_LARGE_ERROR := JsonError(ERRCODE_RESPONSE_TOO_LARGE, "response too large")
  const INVALID_REQUEST := JsonError(ERRCODE_INVALID_REQUEST, "invalid request")

  // None stands for a nil RawMessage or pointer. A JSON null id decodes to the text
  // "null", not to nil.
  datatype Message = Message(
    version: string, id: Option<Raw>, methodName: string, params: Option<Raw>,
    error: Option<JsonError>, result: Option<Raw>) {

    predicate HasValidVersion() {
      version == VSN
    }

    predicate HasValidID() {
      id.Some? && |id.value| > 0 && id.value[0] != '{' && id.value[0] != '['
    }

    predicate IsNotification() {
      HasValidVersion() && id == None && methodName != ""
    }

    predicate IsCall() {
      HasValidVersion() && HasValidID() && methodName != ""
    }

    predicate IsResponse() {
      && HasValidVersion() && HasValidID() && methodName == "" && params == None
      && (result.Some? || error.Some?)
    }

    predicate IsSubscribe() {
      HasSuffix(methodName, SUBSCRIBE_SUFFIX)
    }

    // A notification the client takes for a subscription result.
    predicate IsSubscriptionResult() {
      IsNotification() && HasSuffix(methodName, NOTIFICATION_SUFFIX)
    }

    function ErrorResponse(err: JsonError): Message {
      ErrorMessage(err).(id := id)
    }
  }

  predicate HasSuffix(s: string, suffix: string) {
    |s| >= |suffix| && s[|s| - |suffix|..] == suffix
  }

  function ErrorMessage(err: JsonError): Message {
    Message(VSN, Some(NULL), "", None, Some(err), None)
  }

  // What running a method comes to: an encoded result, or an error (which covers a failed
  // lookup, bad parameters, an error from the method and a result that cannot be encoded).
  type Outcome = Result<Raw, JsonError>

  function Response(msg: Message, outcome: Outcome): Message {
    match outcome
    case Ok(encoded) => Message(VSN, msg.id, "", None, None, Some(encoded))
    case Err(err) => msg.ErrorResponse(err)
  }

  // handleCallMsg; the outcome is the one of the method, had it to be run.
  function HandleCallMsg(msg: Message, outcome: Outcome): Option<Message> {
    if msg.IsNotification() then None
    else if msg.IsCall() then Some(Response(msg, outcome))
    else if msg.HasValidID() then Some(msg.ErrorResponse(INVALID_REQUEST))
    else Some(ErrorMessage(INVALID_REQUEST))
  }

  // r answers m: a result or an error, never both, under the id of m where m has one
  // (section 5 of the JSON-RPC 2.0 Specification).
  predicate Answers(r: Message, m: Message) {
    && r.version == VSN && r.methodName == "" && r.params == None
    && (r.result.Some? <==> r.error == None)
    && (m.HasValidID() ==> r.id == m.id)
  }

  // The classes exclude each other, and what is not JSON-RPC 2.0 is in none. A message with
  // a method is a notification if it has no ID at all (section 4.1 of the JSON-RPC 2.0
  // Specification), and a call if it has a string, a number or null as its ID; one without
  // is a response if it has such an ID, no parameters, and a result or an error.
  lemma Classes(msg: Message)
    ensures !(msg.IsNotification() && msg.IsCall())
    ensures !(msg.IsResponse() && (msg.IsNotification() || msg.IsCall()))
    ensures msg.version != "2.0" ==> !msg.IsNotification() && !msg.IsCall() && !msg.IsResponse()
    ensures msg.version == "2.0" && msg.methodName != "" ==>
              && (msg.IsNotification() <==> msg.id == None)
              && (msg.IsCall() <==> msg.id.Some? && msg.id.value != "" && msg.id.value[0] !in "{[")
    ensures msg.version == "2.0" && msg.methodName == "" ==>
              (msg.IsResponse() <==>
               && msg.id.Some? && msg.id.value != "" && msg.id.value[0] !in "{["
               && msg.params == None && !(msg.result == None && msg.error == None))
  {
  }

  // Every message that is not a notification is answered, and only those are.
  lemma CallMsgAnswered(msg: Message, outcome: Outcome)
    ensures HandleCallMsg(msg, outcome) == None <==> msg.IsNotification()
    ensures !msg.IsNotification() ==> Answers(HandleCallMsg(msg, outcome).value, msg)
  {
  }

  // r carries what running the method of m came to, or that m is invalid.
  predicate Carries(r: Message, m: Message, outcome: Outcome) {
    if !m.IsCall() then r.result == None && r.error == Some(INVALID_REQUEST)
    else
      match outcome
      case Ok(encoded) => r.result == Some(encoded) && r.error == None
      case Err(err) => r.result == None && r.error == Some(err)
  }

  // The answer to a call has the method's result or its error; any other message that is
  // answered is told that it is invalid.
  lemma AnswerCarries(msg: Message, outcome: Outcome)
    requires !msg.IsNotification()
    ensures HandleCallMsg(msg, outcome).Some? && Carries(HandleCallMsg(msg, outcome).value, msg, outcome)
  {
  }

  // What errorResponse says, and to whom.
  lemma ErrorResponseCarries(msg: Message, err: JsonError)
    ensures var r := msg.ErrorResponse(err);
            r.error == Some(err) && r.result == None && r.id == msg.id && r.version == VSN && r.methodName == ""
  {
  }

  // An answer to a message with a valid id is a response for whoever receives it, and no
  // message is in two classes at once.
  lemma AnswerIsResponse(r: Message, m: Message)
    requires Answers(r, m) && m.HasValidID()
    ensures r.IsResponse() && !r.IsCall() && !r.IsNotification()
  {
  }

  // An invalid message can be rejected in two ways: by handleCallMsg when it is executed,
  // and by errorResponse when an error takes its place in a batch. They agree on the ID
  // exactly if the message has a valid one. Otherwise handleCallMsg answers under null, and
  // errorResponse repeats what is there: no ID, an empty one, an object or an array.
  lemma RejectionIds(msg: Message, outcome: Outcome, err: JsonError)
    requires !msg.IsNotification()
    ensures HandleCallMsg(msg, outcome).value.id == msg.ErrorResponse(err).id <==> msg.HasValidID()
    ensures !msg.HasValidID() ==> HandleCallMsg(msg, outcome).value.id == Some(NULL)
    ensures msg.ErrorResponse(err).id == msg.id
  {
  }
}
