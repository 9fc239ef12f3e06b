/** The status shared by market thread, writer thread and display: include/pipeline/runtime_status.hpp, and the
    critical sections of src/pipeline/runtime_status.cpp and src/pipeline/live_runtime.cpp that write it. */
module RuntimeStatus {
  import opened Base
  import opened Envelope
  import opened Tape

  datatype RuntimeState =
    | Starting | Running | Stopping | Stopped | StoppedRecordingError | StoppedQueueFull | StoppedProcessingError

  predicate IsFailure(s: RuntimeState)
  {
    s in {StoppedRecordingError, StoppedQueueFull, StoppedProcessingError}
  }

  /** Message counts, the last index of each stage, the lifecycle log, and how the runtime stands. */
  datatype Status = Status(
    state: RuntimeState, fatal: Option<string>,
    received: nat, enqueued: nat, processed: nat, written: nat,
    lastReceived: Option<nat>, lastEnqueued: Option<nat>, lastProcessed: Option<nat>, lastWritten: Option<nat>,
    lifecycle: seq<LifecycleEvent>)

  const NEW_STATUS: Status := Status(Starting, None, 0, 0, 0, 0, None, None, None, None, [])

  /** A failure is recorded only when none was recorded before. */
  function Failing(s: Status, error: string, state: RuntimeState): (t: Status)
  {
    if s.fatal.Some? then s else s.(fatal := Some(error), state := state)
  }

  function Wrote(s: Status, index: nat): (t: Status)
  {
    s.(written := s.written + 1, lastWritten := Some(index))
  }

  const QUEUE_FULL: string := "RAW_RECORDING_QUEUE_FULL"

  /** The publish callback: counters and, after a rejected push, the failure. */
  function Published(s: Status, rejected: bool, error: string,
                     received: Option<nat>, enqueued: Option<nat>, processed: Option<nat>): (t: Status)
  {
    var counted := if rejected then s.(received := s.received + 1)
                   else s.(received := s.received + 1, enqueued := s.enqueued + 1, processed := s.processed + 1);
    var failed := if rejected
                  then Failing(counted, error, if error == QUEUE_FULL then StoppedQueueFull else StoppedRecordingError)
                  else counted;
    failed.(lastReceived := received, lastEnqueued := enqueued, lastProcessed := processed)
  }

  /** While stopping, the state is Stopping unless a failure was recorded. */
  function Draining(s: Status): (t: Status) { if s.fatal.Some? then s else s.(state := Stopping) }

  function Ended(s: Status): (t: Status) { if s.fatal.Some? then s else s.(state := Stopped) }

  class SharedRuntime {
    var status: Status
    var writerReady: bool
    var writerDone: bool
    var marketDone: bool
    var posting: bool           // a post callback is registered
    var posted: seq<string>     // failures posted to the market thread

    constructor ()
      ensures status == NEW_STATUS && !writerReady && !writerDone && !marketDone && !posting && posted == []
    {
      status, writerReady, writerDone, marketDone, posting, posted := NEW_STATUS, false, false, false, false, [];
    }

    method RecordingFailed(error: string)
      modifies this`status, this`posted
      ensures status == Failing(old(status), error, StoppedRecordingError)
      ensures posted == if posting then old(posted) + [error] else old(posted)
    {
      if status.fatal.None? {
        status := status.(fatal := Some(error), state := StoppedRecordingError);
      }
      if posting {
        posted := posted + [error];
      }
    }

    method RecordWritten(index: nat)
      modifies this`status
      ensures status == Wrote(old(status), index)
    {
      status := status.(written := status.written + 1);
      status := status.(lastWritten := Some(index));
    }

    method Publish(rejected: bool, error: string, received: Option<nat>, enqueued: Option<nat>, processed: Option<nat>)
      modifies this`status
      ensures status == Published(old(status), rejected, error, received, enqueued, processed)
    {
      status := status.(received := status.received + 1);
      if !rejected {
        status := status.(enqueued := status.enqueued + 1, processed := status.processed + 1);
      } else if status.fatal.None? {
        status := status.(fatal := Some(error),
                          state := if error == QUEUE_FULL then StoppedQueueFull else StoppedRecordingError);
      }
      status := status.(lastReceived := received, lastEnqueued := enqueued, lastProcessed := processed);
    }

    method ProcessingFailed(error: string)
      modifies this`status, this`posting
      ensures status == Failing(old(status), error, StoppedProcessingError) && !posting
    {
      posting := false;
      if status.fatal.None? {
        status := status.(fatal := Some(error), state := StoppedProcessingError);
      }
    }

    /** The locked part of a tick that finds the market thread stopping. */
    method DrainTick() returns (done: bool)
      modifies this`status
      ensures done == writerDone
      ensures status == if done then old(status) else Draining(old(status))
    {
      if writerDone {
        return true;
      }
      if status.fatal.None? {
        status := status.(state := Stopping);
      }
      done := false;
    }

    method EndStatus()
      modifies this`status
      ensures status == Ended(old(status))
    {
      if status.fatal.None? {
        status := status.(state := Stopped);
      }
    }
  }
}
