/** Publishing a session and accepting it for replay: Capture::finalize and the completeness checks of replay in
    src/session/session.cpp. */
module Sessions {
  import opened Base
  import opened Envelope
  import opened Market
  import opened Tape
  import R = Recording
  import opened RuntimeStatus

  datatype SessionStatus = InProgress | Complete | RecordingFailure | QueueOverflow | ProcessingFailure | Interrupted

  /** What scanning the raw file gave. */
  datatype Scanned = Missing | Unreadable | Scan(records: nat, connections: nat)

  /** What the manifest says about the raw file; None where a key is absent. */
  datatype RawEntry = RawEntry(records: nat, first: Option<nat>, last: Option<nat>)

  datatype Manifest = Manifest(
    status: SessionStatus, finalState: RuntimeState, stopReason: string,
    lastReceived: Option<nat>, lastEnqueued: Option<nat>, lastWritten: Option<nat>, lastProcessed: Option<nat>,
    unpersistedRecords: nat, unpersistedTail: bool, raw: Option<RawEntry>, connections: nat,
    lifecycle: seq<LifecycleEvent>)

  const NEW_MANIFEST: Manifest :=
    Manifest(InProgress, Starting, "", None, None, None, None, 0, false, None, 0, [])

  predicate IsRunning(s: RuntimeState) { s in {Starting, Running, Stopping} }

  /** 64-bit unsigned subtraction. */
  function Minus(a: nat, b: nat): (r: nat) { (a - b) % 0x1_0000_0000_0000_0000 }

  function StatusOf(s: RuntimeState): (r: SessionStatus)
  {
    match s
    case Stopped => Complete
    case StoppedRecordingError => RecordingFailure
    case StoppedQueueFull => QueueOverflow
    case StoppedProcessingError => ProcessingFailure
    case _ => Interrupted
  }

  predicate ScanFails(s: Status, scanned: Scanned)
  {
    scanned.Unreadable? || (scanned.Scan? && scanned.records != s.written)
  }

  function FinalStatus(s: Status, scanned: Scanned): (r: SessionStatus)
  {
    var r := if ScanFails(s, scanned) then RecordingFailure else StatusOf(s.state);
    if r == Complete && (s.fatal.Some? || s.received != s.written) then RecordingFailure else r
  }

  function Finalized(s: Status, scanned: Scanned): (m: Manifest)
  {
    Manifest(FinalStatus(s, scanned), s.state, if s.fatal.Some? then s.fatal.value else "requested_shutdown",
             s.lastReceived, s.lastEnqueued, s.lastWritten, s.lastProcessed,
             Minus(s.received, s.written), R.UnpersistedRange(s.lastProcessed, s.lastWritten).Some?,
             if scanned.Missing? then None
             else Some(RawEntry(s.written, if s.written > 0 then Some(0) else None, s.lastWritten)),
             if scanned.Scan? then scanned.connections else 0, s.lifecycle)
  }

  class Capture {
    var manifest: Manifest

    constructor ()
      ensures manifest == NEW_MANIFEST
    {
      manifest := NEW_MANIFEST;
    }

    /** ok is false where the source throws: the recorder is still running. */
    method Finalize(s: Status, scanned: Scanned) returns (ok: bool)
      modifies this
      ensures ok <==> !IsRunning(s.state)
      ensures manifest == if ok then Finalized(s, scanned) else old(manifest)
    {
      if s.state == Starting || s.state == Running || s.state == Stopping {
        return false;
      }
      var status := Interrupted;
      match s.state {
        case Stopped => status := Complete;
        case StoppedRecordingError => status := RecordingFailure;
        case StoppedQueueFull => status := QueueOverflow;
        case StoppedProcessingError => status := ProcessingFailure;
      }
      var lifecycle: seq<LifecycleEvent> := [];
      for i := 0 to |s.lifecycle|
        invariant lifecycle == s.lifecycle[..i]
      {
        lifecycle := lifecycle + [s.lifecycle[i]];
      }
      var tail := R.UnpersistedRange(s.lastProcessed, s.lastWritten);
      var raw, connections := None, 0;
      if !scanned.Missing? {
        raw := Some(RawEntry(s.written, if s.written > 0 then Some(0) else None, s.lastWritten));
        if scanned.Unreadable? {
          status := RecordingFailure;
        } else {
          connections := scanned.connections;
          if scanned.records != s.written {
            status := RecordingFailure;
          }
        }
      }
      if status == Complete && (s.fatal.Some? || s.received != s.written) {
        status := RecordingFailure;
      }
      manifest := Manifest(status, s.state, if s.fatal.Some? then s.fatal.value else "requested_shutdown",
                           s.lastReceived, s.lastEnqueued, s.lastWritten, s.lastProcessed,
                           Minus(s.received, s.written), tail.Some?, raw, connections, lifecycle);
      ok := true;
    }
  }

  // ----- Replay's checks -----

  /** The positions never go back; in a complete session none is past the last record. */
  predicate LifecycleAccepted(l: seq<LifecycleEvent>, complete: bool, records: nat)
  {
    && AllowedStates(l)
    && (forall i, j :: 0 <= i < j < |l| ==> l[i].before <= l[j].before)
    && (complete ==> forall i :: 0 <= i < |l| ==> l[i].before <= records)
  }

  /** The loop of replay, which only compares neighbours. */
  method CheckLifecycle(l: seq<LifecycleEvent>, complete: bool, records: nat) returns (ok: bool)
    ensures ok <==> LifecycleAccepted(l, complete, records)
  {
    var last := 0;
    for i := 0 to |l|
      invariant LifecycleAccepted(l[..i], complete, records)
      invariant forall j :: 0 <= j < i ==> l[j].before <= last
      invariant if i == 0 then last == 0 else last == l[i - 1].before
    {
      if l[i].before < last || (complete && l[i].before > records) || l[i].state == Valid {
        assert i > 0 && l[i].before < last ==> l[i - 1].before > l[i].before;
        return false;
      }
      assert l[..i + 1] == l[..i] + [l[i]];
      last := l[i].before;
    }
    assert l[..|l|] == l;
    ok := true;
  }

  /** What replay demands of a manifest marked complete, given the number of records in the raw file. */
  predicate Passes(m: Manifest, records: nat)
  {
    && m.raw == Some(RawEntry(records, if records > 0 then Some(0) else None, LastOf(records)))
    && m.lastReceived == m.lastEnqueued == m.lastWritten == m.lastProcessed == LastOf(records)
    && m.finalState == Stopped && m.unpersistedRecords == 0 && !m.unpersistedTail
    && LifecycleAccepted(m.lifecycle, true, records)
  }

  method CheckComplete(m: Manifest, records: nat) returns (ok: bool)
    ensures ok <==> Passes(m, records)
  {
    if m.raw.None? || m.raw.value.records != records {
      return false;
    }
    var last := if records > 0 then Some(records - 1) else None;
    if m.lastReceived != last || m.lastEnqueued != last || m.lastWritten != last || m.lastProcessed != last {
      return false;
    }
    if m.finalState != Stopped {
      return false;
    }
    if m.raw.value.first != (if records > 0 then Some(0) else None) || m.raw.value.last != last ||
       m.unpersistedRecords != 0 || m.unpersistedTail {
      return false;
    }
    ok := CheckLifecycle(m.lifecycle, true, records);
  }

  /** A status in which all stages agree is published as complete and passes every check. */
  lemma AgreeingStatusPasses(s: Status, connections: nat)
    requires s.state == Stopped && s.fatal.None? && s.received == s.written
    requires s.lastReceived == s.lastEnqueued == s.lastProcessed == s.lastWritten == LastOf(s.written)
    requires AllowedStates(s.lifecycle) && Ordered(s.lifecycle, s.written)
    ensures var m := Finalized(s, Scan(s.written, connections)); m.status == Complete && Passes(m, s.written)
  {}
}
