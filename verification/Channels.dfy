/** Unbounded channels and the messages that travel between the two hosts. */
module Channels {

  datatype Option<T> = None | Some(value: T)

  /** What the receiving host tells the sending host about a file. */
  datatype Report = End(id: nat) | Failure(id: nat, reason: nat)

  class Channel<T> {
    var items: seq<T>

    constructor ()
      ensures items == []
    {
      items := [];
    }

    method Send(x: T)
      modifies this
      ensures items == old(items) + [x]
    {
      items := items + [x];
    }
  }
}
