# A verified model of the JSON-RPC engine and the attestation lists

The project models two parts of the repository and proves what they promise.

**The JSON-RPC engine** (`rpc/`). One dispatch loop owns the current connection's
handler; any number of goroutines send requests, taking a write lock by a pair of channel
messages; one read loop runs per connection; the loop survives reconnects while a request
is being written. On top of it sit the routing of replies, the batch server with its
timeout, the single-message server, the server's notifier and subscription table, the
client's subscription protocol and the client side of a batch. Each concurrent part is a
labelled transition system with one event per rendezvous or `select` case; `Inv` is its
inductive invariant, and `RunInv` or `PathInv` carries it over all runs. Objects whose
methods update fields are classes (`RequestIndex.Handler`, `BatchBuffer.BatchCallBuffer`,
`Notifiers.Notifier`, `ServerSubs.Handler`); each method is proved equal to a function on
states, and the transition systems use the same functions.

**The attestation lists** (`types/atts.go`). `Dedup` removes in place, on arrays, with two
indices that step back; `SortByProfitabilityUsingMaxCover` groups, selects, sorts and
concatenates. A bitlist is a length with a set of bit indices.

| file | models |
|---|---|
| `Wrappers.dfy`, `Messages.dfy` | channel histories; message classes and answers |
| `RequestIndex.dfy` | `respWait`: registration, cancellation, routing of replies |
| `Dispatch.dfy`, `DispatchSafety.dfy`, `DispatchTheorems.dfy` | the dispatch loop, its invariant, its promises |
| `Channels.dfy`, `Writes.dfy` | exactly what each step does to an operation, and to a request being written |
| `Launches.dfy`, `Stranding.dfy`, `LostRequests.dfy` | where dispatch fails: loops started twice, registrations dropped, requests lost |
| `BatchBuffer.dfy`, `BatchRun.dfy`, `BatchSafety.dfy`, `BatchTheorems.dfy`, `BatchAnswers.dfy` | serving a batch |
| `SingleCall.dfy` | serving one message |
| `Notifier.dfy`, `ServerSubs.dfy` | server subscriptions |
| `Subscription.dfy`, `SubscriptionEnd.dfy` | the client's subscriptions |
| `BatchCall.dfy`, `Quantities.dfy` | matching batch replies; request and subscription IDs |
| `Attestations.dfy`, `Deduplication.dfy`, `DedupTheorems.dfy`, `Profitability.dfy` | the attestation lists |

## Assumptions

- Request IDs are distinct where a result says so. `RequestIndex.DistinctIds` asks it of all
  operations of a run, that is, fewer than 2^32 requests, as the counter is a uint32;
  `BatchCall.Stamps` asks it of one batch. `Quantities.RequestIdsDiffer` shows the bound is
  exact.
- Server subscription IDs are distinct where a result says `ServerSubs.DistinctIds`.
- Outcomes of reads, writes, dialling, method calls, decoding and max-cover are arbitrary.
  A timer is a step that may happen once armed.
- Connections are numbered and never reused. What dispatch does between two selects, and
  whatever runs under one mutex, is one step.
- In `Subscription`, `run` is started once; `Launches.LaunchedOnce` says when the client
  keeps to that.
- Go map iteration is an arbitrary order; `sort.Slice` yields some sorted permutation.

## Where the code does less than it says

- **Accepted requests can be lost.** The comment at rpc/client.go:358 says that dispatch
  will close the channel of an accepted request when it quits. `LostExactly` says when that
  fails, for every state of every run: nothing can ever reach the channel of a request past
  `send`, neither a value nor a close, unless a handler that is being read from waits for it
  or the reconnect under way is for it and it has an ID. Two runs from a fresh client lose a written request:
  in `RequestStranded` its connection breaks during the write, and closing the handler skips
  it as in flight; in `RegisteredButLost` the read side had ended before, as at the end of
  the input of a stdio connection, and `Close` does not close a handler that is not read
  from. `StrandedExactly` accounts for the registrations that are dropped, by two kinds of
  step (`ForgottenExactly`).
- **A batch call of an empty list waits for ever** unless its context ends: it has no ID to
  be answered under (`NoIdsNoAnswer`).
- **`Unsubscribe` can wait for ever**: it returns only after the call that unsubscribes on
  the server, which has no deadline (`UnsubscribeWaitsForServer`) and may be lost like any
  other request.
- **A subscription's loop can be started twice**, if the server answers a subscribe request
  whose write then fails, so that the reconnect registers it again (`LaunchedTwice`).
  `LaunchedOnce` proves that only the re-registration of a subscription whose loop runs can
  lead to this, and `Relaunched` that every run can go on to a second start right after the
  first such step.
- **A timed-out batch can leave calls unanswered**, because the worker's own write can win
  against the timer's (`TimeoutUnanswered`). `FullyAnswered` has the exact condition over all
  runs, and `ResponseLimit` what is written when nothing times out or is cancelled.
- **A subscribe answer can precede the registration of its subscription**, when
  `respondWithError` writes a batch (`AnsweredBeforeRegistered`, exact condition in
  `RegisteredAtReply`). Notifications still follow the answer.
- **A notification is answered when it times out** as a single message
  (`NotificationAnswered`, `AnsweredOnce`), contrary to section 4.1 of the JSON-RPC 2.0
  Specification. Batches follow section 6 in this respect.
- **An invalid message is rejected under two different IDs** exactly when it has no valid ID
  (`RejectionIds`): executed, it gets the ID null; when an error ends its batch it gets its own
  back, which is none, empty, an object or an array.
- **`Dedup` keeps a single attestation even when its data root cannot be computed**, but
  drops such attestations from lists of two or more (`Unhashable`).

## Model

| member | source | states |
|---|---|---|
| Messages.CallMsgAnswered | rpc/handler.go:460-490 | exactly the messages that are not notifications are answered, each under its own ID, with a result or an error and never both |
| Messages.Classes | rpc/json.go:60-78 | the classes exclude each other and need version 2.0; which one a message is in follows from its method, ID, parameters, result and error |
| Messages.AnswerCarries | rpc/handler.go:460-490 | the answer to a call has the result or the error its method came to; any other message answered is told that it is invalid, whatever the method would have done |
| Messages.ErrorResponseCarries | rpc/json.go:98-126 | an error response carries that error, no result, and the ID of the message as it stands |
| Messages.AnswerIsResponse | rpc/json.go:60-78 | an answer to a message with a valid ID is a response for its receiver and in no other class |
| Messages.RejectionIds | rpc/handler.go:484-489 | the two ways of rejecting an invalid message agree on the ID if and only if it has a valid one; otherwise null stands against whatever the message has |
| RequestIndex.Handler.AddRequestOp | rpc/handler.go:320-324 | the operation is registered under all its IDs and nothing else changes |
| RequestIndex.Handler.RemoveRequestOp | rpc/handler.go:327-331 | all its IDs are unregistered and nothing else changes |
| RequestIndex.Handler.CancelAllRequests | rpc/handler.go:334-349 | in any map order, every registered operation but the one in flight gets the error and one close, even under several IDs; nothing stays registered |
| RequestIndex.Handler.HandleResp | rpc/handler.go:393-421 | one response: unsolicited ones change nothing, others settle their operation once |
| RequestIndex.Handler.MatchResponses | rpc/handler.go:423-440 | after the loop, the index is the start without the answered IDs, each operation found is settled by its first response, and the calls are the rest in order |
| RequestIndex.Handler.HandleResponses | rpc/handler.go:391-445 | the loop and the removals leave exactly the routed state defined from the batch as a whole; calls are passed on in order |
| RequestIndex.RouterKeepsIndex | rpc/handler.go:391-445 | an ID still maps only to an operation that lists it |
| RequestIndex.RouterDeregisters | rpc/handler.go:442-444 | no ID of an operation named in the batch stays registered; the registrations of the others are untouched |
| RequestIndex.RouterDelivers | rpc/handler.go:417-420 | an operation named in the batch has a response in it and gets the batch unless it was answered before; no other operation changes |
| RequestIndex.SubscribeSettled | rpc/handler.go:402-415 | a Subscribe operation is decided by the first response under its ID: the loop is launched, once, exactly if that has no error and a readable ID, and then there is no error; otherwise the operation has the server's error, or one of its own |
| RequestIndex.OthersUndecided | rpc/handler.go:402-420 | errors and launches of all other operations are left alone |
| RequestIndex.CallsInOrder | rpc/handler.go:423-440 | the messages passed on are those that are neither responses nor subscription results, as often and in the order in which they stand |
| DispatchSafety.StepKeepsInv | rpc/client.go:560-724 | every event of every goroutine keeps the whole invariant |
| DispatchSafety.RunInv | rpc/client.go:620-697 | the invariant holds in every state of every run |
| DispatchTheorems.ResponseChannels | rpc/client.go:620-697 | over every run, each response channel gets at most one value, one close, nothing after it; a value contains a response to its operation, a closed channel has its error set |
| DispatchTheorems.WriteLock | rpc/client.go:560-615 | at most one goroutine is inside write; the operation in flight is its own, so a reconnect never registers nil; the slot of reqSent is free |
| DispatchTheorems.LockFree | rpc/client.go:676-691 | reqInit is offered exactly when no operation is in flight, reqSent never overflows, dispatch never dereferences nil |
| DispatchTheorems.ReadLoops | rpc/client.go:623-724 | one live read loop while reading and none otherwise, always of the current connection; drainRead has a partner; messages are handled by their own connection's handler |
| DispatchTheorems.InFlightRegistered | rpc/client.go:671-691 | through reconnects, a request being written on a read connection and not yet answered is registered under all its IDs |
| Channels.ChannelsExactly | rpc/client.go:639-696 | in every step of every run: a value is sent exactly if the batch handled, within the limit on its size, has a response the handler waits for on the operation's behalf and it had none; its channel is closed, with the cause as its error, exactly if its handler is closed and it is not in flight; its loop is launched, and it is left without error, exactly by a success with a readable ID |
| Channels.HandledOnce | rpc/client.go:645-650 | in every run, a message list that is handled has been read, and nothing has been taken from the read loop since |
| Writes.WriteResults | rpc/client.go:560-615 | in every run, a request comes to wait exactly by its write succeeding; a failed dial, quitting, or a second failed write ends it with an error for the caller and for dispatch; a first failed write leads to a new connection |
| Writes.FailsRun | rpc/client.go:575-590 | no request fails to be written more than twice |
| Writes.FailedDeregistered | rpc/client.go:683-691 | once dispatch has taken the error of a failed write, no handler waits for the request, in any continuation |
| Writes.WrittenOn | rpc/client.go:575-615 | requests are written to the connection being read, whose handler already waits for them, or to the one about to be read, and after a reconnect to the new one |
| Writes.CallerReturns | rpc/client.go:145-164 | a caller returns in exactly the listed steps; a waiting one only with something on its channel, or from a notification; otherwise after its context has ended |
| Stranding.TimedOutForGood | rpc/client.go:693-694 | a request given up is registered by no handler in any continuation, and its channel is not used again |
| Launches.LaunchedOnce | rpc/handler.go:405-415 | in every run, up to the first re-registration of a subscription whose loop has been launched, each loop is launched at most once |
| Launches.Relaunched | rpc/client.go:671-674 | every run that ends with the first such step goes on to a state in which that loop has been launched twice |
| Launches.LaunchedTwice | rpc/client.go:575-590 | a run of a fresh client in which one subscription's loop is launched twice |
| LostRequests.LostExactly | rpc/client.go:620-697 | in every state of every run, for a request past send: some continuation puts a value or a close on its channel if and only if a handler being read from waits for it, or the reconnect under way is for it and it has an ID |
| LostRequests.LostForever | rpc/client.go:620-697 | a request for which that does not hold stays so, its channel unchanged, in every continuation |
| LostRequests.RegisteredButLost | rpc/client.go:627-655 | a run that loses a written request though its handler waits for it: the read side had ended before |
| Stranding.StrandedExactly | rpc/client.go:645-691 | in every state of every run, a waiting and unanswered request is registered nowhere and not in flight if and only if an earlier step forgot it while it waited or came to wait |
| Stranding.ForgottenExactly | rpc/client.go:645-691 | a waiting request becomes so in a step exactly when its write is reported done while no handler waits for it, or when a new handler is set up for another request |
| Stranding.NoIdsNoAnswer | rpc/client.go:398-430 | in every run, an operation without IDs gets neither a value nor a close |
| Stranding.StrandedForever | rpc/client.go:333-375 | such a request stays so, and its channel is never used again |
| Stranding.RequestStranded | rpc/client.go:652-655 | a run that strands an accepted request whose write succeeded |
| LostRequests.QuitAnswers | rpc/client.go:627-634 | closing the client ends the wait of an unanswered request exactly when a connection is read and its handler waits for the request |
| LostRequests.NothingAfterQuit | rpc/client.go:627-634 | after that no operation changes |
| BatchBuffer.BatchCallBuffer.PushResponse | rpc/handler.go:122-130 | the whole new state: the first call goes, its answer is kept |
| BatchBuffer.BatchCallBuffer.DoWrite | rpc/handler.go:156-164 | the whole new state: the first write counts, and an empty one writes nothing |
| BatchBuffer.BatchCallBuffer.RespondWithError | rpc/handler.go:142-152 | the whole new state: one error per call left that is not a notification, in order, then the write |
| BatchBuffer.ExecutedAnswers | rpc/handler.go:217-228 | the answers of executed calls answer them in order, one each |
| BatchBuffer.CutShortAnswers | rpc/handler.go:142-152 | answers to a first part followed by its errors answer the whole batch in order |
| BatchSafety.NoPanic | rpc/handler.go:122-130 | popping never meets an empty buffer |
| BatchSafety.StepKeepsInv | rpc/handler.go:195-246 | every step of the worker, the timer and the notifiers keeps the invariant |
| BatchSafety.RunInv | rpc/handler.go:195-246 | the invariant holds in every state of every run |
| BatchTheorems.BatchServed | rpc/handler.go:195-246 | over every run: one write at most; it answers in order what it covers; it answers the whole batch if and only if an error made it or only notifications were left; executed calls but the last are within the limit |
| BatchTheorems.BatchReply | rpc/handler.go:100-164 | at most one write, in call order, one answer for each message covered that is not a notification |
| BatchTheorems.FullyAnswered | rpc/handler.go:208-242 | over every run: some answer is missing if and only if the worker made its own write, before any error, on a cancelled context with calls left that expect an answer |
| BatchTheorems.ResponseLimit | rpc/handler.go:216-236 | over every run without timeout or cancellation: what is written is the answers of the executed calls, then, if the results exceed the limit, the too-large error for every other message that expects an answer, in its place; otherwise all calls are executed |
| BatchAnswers.WhatIsWritten | rpc/handler.go:216-242 | over every run: what is written carries in order the result or error of each executed call, then the error that ended the batch for each message left that expects an answer; the bytes counted are those of the results |
| BatchAnswers.ReplyMaker | rpc/handler.go:209-242 | over every run: the reply is made by the timeout with its error, by results too large with theirs, or by the worker at its end with none |
| BatchAnswers.CancelStops | rpc/handler.go:217-225 | over every run: once the context has ended, at most the call at hand is executed |
| BatchAnswers.TimerStops | rpc/handler.go:202-239 | over every run: no timer fires without a timeout or after the worker has stopped it; the context has ended when the worker is done |
| BatchAnswers.NotifiersOwned | rpc/handler.go:531-560 | over every run: a notifier belongs to a subscribe call, and to each at most one |
| BatchTheorems.NotificationsFollowResponse | rpc/handler.go:241-245 | over every run: notifications are a prefix of what was passed to Notify, and none precedes the response to the subscribe call |
| BatchTheorems.RegisteredAtReply | rpc/handler.go:241-242 | over every run: when the reply is made, by whomever, the subscriptions made by the batch are coupled exactly if the worker stands at its own write, or there are none |
| BatchTheorems.AnsweredBeforeRegistered | rpc/handler.go:228-242 | a run in which the answer precedes the registration |
| BatchTheorems.TimeoutUnanswered | rpc/handler.go:208-242 | a run in which a timed-out call is never answered |
| SingleCall.RunInv | rpc/handler.go:273-308 | the invariant of serving a single message holds in every state of every run |
| SingleCall.AnsweredOnce | rpc/handler.go:273-308 | at most one answer, under the message's ID; always one to a call; one to a notification exactly when it timed out |
| SingleCall.AnswerIsOutcome | rpc/handler.go:286-304 | over every run: what is written is the timeout's error after the timer has fired, or what the method came to; a stopped timer does not fire |
| SingleCall.NotificationsFollowResponse | rpc/handler.go:299-307 | registered before its own answer, notifications in order and after the answer |
| SingleCall.NotificationAnswered | rpc/handler.go:286-292 | the run in which a notification is answered |
| Notifiers.Notifier.CreateSubscription | rpc/subscription.go:117-128 | succeeds exactly once and only before the call has returned |
| Notifiers.Notifier.Notify | rpc/subscription.go:132-151 | written when activated, held back otherwise; only for the notifier's own ID |
| Notifiers.Notifier.TakeSubscription | rpc/subscription.go:161-166 | the subscription, if any, and none can be made later |
| Notifiers.Notifier.Activate | rpc/subscription.go:171-182 | the buffer is written in order up to the first failure, and later data goes out exactly if there was none |
| Notifiers.NotifiedKeepsOrder | rpc/subscription.go:132-151 | what reaches the wire stays a prefix of the data notified |
| Notifiers.ActivatedKeepsOrder | rpc/subscription.go:171-182 | activation keeps that, and completes it if no write fails |
| ServerSubs.Handler.AddSubscriptions | rpc/handler.go:356-365 | each taken subscription is registered under its ID |
| ServerSubs.Handler.Unsubscribe | rpc/handler.go:573-584 | found exactly if registered; then closed and removed |
| ServerSubs.Handler.CancelServerSubscriptions | rpc/handler.go:368-377 | in any map order, each registered subscription gets the error and one close; none stays registered |
| ServerSubs.StepKeepsAll | rpc/handler.go:356-377 | every operation keeps the table valid and loses no subscription |
| ServerSubs.ErrorChannels | rpc/handler.go:356-377 | over every run: at most one value, without blocking, one close, nothing after it; with distinct IDs every open subscription is registered |
| ServerSubs.OwnersTold | rpc/handler.go:368-377 | over every run, with distinct IDs: an open subscription gets a bare close exactly when its client unsubscribes, the error and a close exactly when the handler is closed, and nothing otherwise |
| ServerSubs.ClosedCompletely | rpc/handler.go:312-317 | closing leaves an empty table and, with distinct IDs, no open subscription |
| Subscription.Forward | rpc/subscription.go:329-375 | delivered values followed by the buffer are the decoded values accepted, for every sequence of choices; overflow only at a full buffer |
| Subscription.SelectedFaithful | rpc/subscription.go:349-374 | every choice keeps values in order, none lost or doubled, at most 20000 waiting |
| Subscription.StepKeepsInv | rpc/subscription.go:271-325 | every step of run, the dispatcher and the callers keeps the invariant |
| Subscription.Channels | rpc/subscription.go:271-325 | over all interleavings: sub.err holds at most one value, fixed by the way the loop ended, then at most one close; both signals are closed at most once |
| SubscriptionEnd.EndsAsAsked | rpc/subscription.go:302-325 | over every run: the server is asked to unsubscribe, once, exactly if the loop was ended by Unsubscribe, by an undecodable value or by overflow; what sub.err gets is fixed by the event that ended the loop |
| SubscriptionEnd.EndsOnce | rpc/subscription.go:349-368 | only the first such event counts |
| Subscription.OverflowExactly | rpc/subscription.go:360-368 | the overflow error if and only if a decodable value meets a full buffer |
| Subscription.SilentAfterUnsubscribe | rpc/subscription.go:271-280 | after any Unsubscribe has returned, no value is delivered in any continuation |
| Subscription.DispatcherNeverStuck | rpc/subscription.go:283-309 | a dispatcher in deliver or close has a step, or gets one when run closes forwardDone |
| Subscription.UnsubscribeNeverStuck | rpc/subscription.go:271-325 | a caller of Unsubscribe has a step, or waits for the first caller, for a step of run, or for run's call to the server |
| Subscription.UnsubscribeWaitsForServer | rpc/subscription.go:311-314 | while that call has not returned, no Unsubscribe does, in any continuation |
| BatchCall.NewMessages | rpc/client.go:407-415 | distinct IDs, each indexed to its element, unless one cannot be encoded |
| BatchCall.MatchReplies | rpc/client.go:433-457 | after the loop, exactly the elements with a reply of their own are settled, once, by the first |
| BatchCall.MarkMissing | rpc/client.go:460-463 | in any map order, exactly the elements left get the missing-response error |
| BatchCall.BatchCallContext | rpc/client.go:398-466 | with a reply list every element's error is set exactly once, from the first non-null reply with its ID or as missing; without one no element changes |
| BatchCall.OutcomeMeans | rpc/client.go:447-463 | what an element's error means; it is nil, and Result changes, exactly for a result that decodes |
| BatchCall.FirstReplyConcat | rpc/client.go:433-445 | replies after the first to an ID have no effect on it |
| BatchCall.FirstReplyUnique | rpc/client.go:433-445 | an ID with one reply gets it wherever it stands |
| BatchCall.IdsDistinct | rpc/client.go:281-284 | the IDs of one batch are distinct |
| Quantities.DecimalRoundTrip | rpc/client.go:281-284 | the decimal ID read back is the counter value |
| Quantities.RequestIdsDiffer | rpc/client.go:281-284 | IDs of requests fewer than 2^32 apart differ; 2^32 apart they are equal |
| Quantities.EncodedQuantity | rpc/subscription.go:83-90 | "0x" and the minimal hex form, no leading zero but for zero, whose value is that of the bytes |
| Quantities.EncodeIdInjective | rpc/subscription.go:83-90 | byte strings of one length with the same ID are equal |
| Deduplication.RemoveAt | types/atts.go:143-145 | the slot takes the last entry, the last is cleared |
| Deduplication.RemoveRedundant | types/atts.go:141-155 | removing an entry covered by another keeps every attestation of the group covered |
| Deduplication.DedupGroup | types/atts.go:135-158 | in place: terminates; succeeds exactly if the group has one bitlist length; the survivors are part of it, pairwise apart, and cover it |
| Deduplication.SurvivorsHaveOneLength | types/atts.go:135-158 | success forces one length, though not all pairs are compared |
| Deduplication.GroupByRoot | types/atts.go:124-131 | each data root maps to its attestations in list order; those without root are skipped |
| Deduplication.Dedup | types/atts.go:120-163 | in any map order, changing nothing in the input: an error exactly if some data root mixes lengths; otherwise a part of the input with the survivors of each root |
| DedupTheorems.SurvivorsAreMaximal | types/atts.go:117-119 | the survivors' patterns are exactly the maximal ones of the group, each once |
| DedupTheorems.PatternCount | types/atts.go:117-163 | each pattern of each root is in the result once if maximal and never otherwise |
| DedupTheorems.OrderIndependent | types/atts.go:120-163 | inputs that are permutations give the same patterns |
| DedupTheorems.FailureOrderIndependent | types/atts.go:139-149 | inputs that are permutations fail alike |
| DedupTheorems.SecondRunSucceeds | types/atts.go:120-163 | no result mixes lengths within a root, so running again on any result succeeds |
| DedupTheorems.Idempotent | types/atts.go:120-163 | running again keeps the same attestations |
| DedupTheorems.Unhashable | types/atts.go:121-129 | an attestation without data root stays exactly in lists below two entries |
| Profitability.PickPartition | types/atts.go:72-79 | whatever is selected, selection and rest make up the block |
| Profitability.PickExactly | types/atts.go:72-79 | every attestation is selected as often as it stands at a selected index, and left over as often as it stands at another |
| Profitability.MostBitsFirst | types/atts.go:80-86 | within the selected and within the others of a slot, more set bits come first |
| Profitability.SelectAtts | types/atts.go:55-89 | given what max-cover came to: untouched if it failed or did not run, otherwise the attestations at the selected indices first, then the others, each by non-increasing bit count; an error exactly if a bitlist of a block of two or more cannot be converted |
| Profitability.SeparateBySlot | types/atts.go:46-53 | each slot once, with its attestations in list order |
| Profitability.AssembleStep | types/atts.go:98-104 | appending the next block keeps the slots non-increasing and the earlier blocks as they are |
| Profitability.SortByProfitabilityUsingMaxCover | types/atts.go:44-107 | given what max-cover came to on each slot: a permutation with non-increasing slots, each block reordered by its own outcome; an error exactly if some block cannot be converted |
| Profitability.SortByProfitability | types/atts.go:35-40 | the same, for all lists |
| Profitability.LimitKeepsLatestSlots | types/atts.go:110-115 | the limit keeps a prefix of the right length, and no kept slot is below a dropped one |

## Left out

- That a request is ever answered, and any other liveness: time, scheduling and the length of timeouts are not modelled.
- The `clientSubs` map of the router: which subscription a notification goes to. What happens to it once delivered is modelled.
- Blocking of dispatch inside `handler.close` (waiting for call goroutines and for `sub.close`): closing is one step.
- The answers to an empty or too large batch; that a too large batch is not looked into for responses is modelled.
- HTTP sending, dialling and the transports; writing of parse errors by the read loop.
- JSON encoding and decoding, reflection, lookup and invocation of methods: a call yields an arbitrary result or error.
- Error data members, and the texts of errors where only their presence matters.
- Data races on `op.err`, and what a failing decoder leaves in a `Result` variable.
- The message list that `BatchCallContext` sends, beyond its IDs.
- Storage shared by `append` in the sort, which builds sequences, and the aliasing of the input and the result that `Dedup` returns for short lists.
- Which selection max-cover makes: its outcome on each block is a parameter.
- `Filter` of the attestation lists, which only calls the library.
- The attack policy, beacon clients, configuration, commands and metrics: short branches around network calls.
