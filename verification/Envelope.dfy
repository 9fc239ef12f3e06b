/** Raw envelopes as the recording queue sees them: include/recording/raw_message.hpp. */
module Envelope {
  import opened Base

  /** A received message with its index, the connection it came on, its receive time and its size in bytes. */
  datatype Record<+P> = Record(index: nat, connection: nat, mono: int, size: nat, payload: P)

  /** What the queue answers to a push. */
  datatype PushResult = Accepted | Full | Closed

  /** The last of n indexes counted from zero. */
  function LastOf(n: nat): (i: Option<nat>) { if n == 0 then None else Some(n - 1) }

  /** Indexes are 0, 1, 2, ... */
  predicate Numbered<P>(records: seq<Record<P>>)
  {
    forall i :: 0 <= i < |records| ==> records[i].index == i
  }
}
