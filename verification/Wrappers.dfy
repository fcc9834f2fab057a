// Types shared by the other modules.
module Wrappers {

  // Raw JSON text.
  type Raw = string

  // An error of which only the text matters.
  type Error = string

  // The ID of a subscription.
  type SubId = string

  datatype Option<+T> = None | Some(value: T)

  datatype Result<+T, +E> = Ok(value: T) | Err(error: E)

  // What happens to a Go channel: every value sent on it and every close, in order.
  datatype ChanEvent<+T> = Send(value: T) | Close

  // The history of a channel that is used correctly: at most one value is sent, it is
  // closed at most once, and nothing happens to it after the close. A channel with
  // such a history and one buffer slot never blocks its sender.
  ghost predicate AtMostOneSendThenClose<T(!new)>(history: seq<ChanEvent<T>>) {
    && |history| <= 2
    && (forall i :: 0 <= i < |history| - 1 ==> history[i].Send?)
    && (|history| == 2 ==> history[1].Close?)
  }
}
