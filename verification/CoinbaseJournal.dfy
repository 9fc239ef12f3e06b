/** What a run of the connection manager leaves behind: record indexes, lifecycle positions, progress, and
    the provenance of a Valid book. */
module CoinbaseJournal {
  import opened Base
  import opened Envelope
  import opened Market
  import opened Tape
  import opened CoinbaseFeed
  import opened CoinbaseHistory
  import opened CoinbaseManager
  import CoinbaseLink

  datatype Journal = Journal(
    tape: seq<TapeItem<Record<Payload>>>, published: seq<Result>, nextIndex: nat,
    received: Option<nat>, enqueued: Option<nat>, processed: Option<nat>,
    terminal: bool, recoveryPending: bool, connected: bool, feed: Feed, connectionId: nat)

  function JournalOf(m: Manager): (j: Journal)
  {
    Journal(m.tape, m.published, m.nextIndex, m.received, m.enqueued, m.processed,
            m.terminal, m.recoveryPending, m.connected, m.feed, m.connectionId)
  }

  /** The processed messages: each accepted record with the result published for it. */
  function HistoryOf(records: seq<Record<Payload>>, published: seq<Result>): (h: seq<Entry>)
  {
    var n := if |records| <= |published| then |records| else |published|;
    seq(n, i requires 0 <= i < n => Entry(records[i].connection, records[i].payload, published[i].outcome))
  }

  /** Accepted indexes are 0, 1, 2, ...; connection ids never decrease. */
  predicate Indexed(records: seq<Record<Payload>>, connectionId: nat)
  {
    && (forall i :: 0 <= i < |records| ==> records[i].index == i && records[i].connection <= connectionId)
    && (forall i, j :: 0 <= i < j < |records| ==> records[i].connection <= records[j].connection)
  }

  ghost predicate Kept(j: Journal)
  {
    var records := Records(j.tape);
    && |j.published| == j.nextIndex && j.received == LastOf(j.nextIndex)
    && |records| <= j.nextIndex && (!j.terminal ==> j.nextIndex == |records|)
    && j.enqueued == j.processed == LastOf(|records|)
    && Indexed(records, j.connectionId)
    && AllowedStates(Lifecycles(j.tape))
    && (j.nextIndex == |records| ==> Positioned(j.tape))
    && (!j.connected ==> j.feed.sequence == None && j.feed.book.state != Valid)
    && Descends(j.feed, HistoryOf(records, j.published), j.connectionId)
  }

  // ----- Moves -----

  /** What one step of the manager can do to its journal. */
  datatype Move =
    | Keep
    | Mark(to: BookState, reason: string, recovering: bool, timeouts: nat)
    | Open(now: int)
    | Message(payload: Payload, size: nat, mono: int, pushed: PushResult)
    | Fail(running: bool)

  predicate Enabled(j: Journal, move: Move)
  {
    match move
    case Keep => true
    case Mark(state, reason, recovering, _) => state != Valid && (reason == "" ==> recovering)
    case Open(_) => !j.connected && !j.recoveryPending
    case Message(_, _, _, _) => j.connected && !j.terminal && !j.recoveryPending
    case Fail(running) => running || (!j.connected && !j.recoveryPending)
  }

  /** A change to a state other than Valid, logged unless the reason is empty; the connection is down afterwards. */
  function Marked(j: Journal, state: BookState, reason: string, recovering: bool): (k: Journal)
  {
    var before := if j.received.Some? then j.received.value + 1 else 0;
    j.(tape := if reason == "" then j.tape else j.tape + [Lifecycle(LifecycleEvent(before, state, reason))],
       recoveryPending := recovering, connected := false,
       feed := j.feed.(sequence := None, book := j.feed.book.(state := state)))
  }

  function TimeoutsSet(j: Journal, n: nat): (k: Journal)
  {
    j.(feed := j.feed.(health := j.feed.health.(heartbeatTimeouts := n)))
  }

  /** A new connection id, a fresh health record and the Initializing event. */
  function Opened(j: Journal, now: int): (k: Journal)
  {
    var k := Marked(j, Initializing, "new_connection", false);
    k.(connected := true, connectionId := j.connectionId + 1,
       feed := k.feed.(health := HealthReset(k.feed.health, now)))
  }

  /** A terminal failure, of a manager that is running or has been stopped already. */
  function Terminated(j: Journal, running: bool): (k: Journal)
  {
    var t := j.(terminal := true);
    var s := if running then Marked(t, Disconnected, "requested_shutdown", false) else t;
    Marked(s, Invalid, "terminal_failure", false)
  }

  /** A handled message, before anything that follows from its result. */
  function Handed(j: Journal, p: Payload, size: nat, mono: int, pushed: PushResult): (k: Journal)
  {
    var (i, result) := Handled(Intake(j.feed, j.nextIndex, j.received, j.enqueued, j.processed), p, mono, pushed);
    j.(feed := i.feed, nextIndex := i.nextIndex,
       received := i.received, enqueued := i.enqueued, processed := i.processed,
       published := j.published + [result],
       tape := if pushed == Accepted
               then j.tape + [Recorded(Record(j.nextIndex, j.connectionId, mono, size, p))] else j.tape)
  }

  function ResultOf(j: Journal, p: Payload, mono: int, pushed: PushResult): (r: Result)
  {
    Handled(Intake(j.feed, j.nextIndex, j.received, j.enqueued, j.processed), p, mono, pushed).1
  }

  /** A handled message, then a recovery or a terminal failure when it failed. */
  function Settled(k: Journal, result: Result): (r: Journal)
  {
    if result.outcome == RecordingRejected then Terminated(k, true)
    else if result.error != "" then Marked(k, Invalid, result.error, true)
    else k
  }

  function Moved(j: Journal, move: Move): (k: Journal)
  {
    match move
    case Keep => j
    case Mark(state, reason, recovering, timeouts) => Marked(TimeoutsSet(j, timeouts), state, reason, recovering)
    case Open(now) => Opened(j, now)
    case Message(p, size, mono, pushed) => Settled(Handed(j, p, size, mono, pushed), ResultOf(j, p, mono, pushed))
    case Fail(running) => Terminated(j, running)
  }

  // ----- Every move keeps the journal -----

  lemma MarkedKept(j: Journal, state: BookState, reason: string, recovering: bool)
    requires Kept(j) && state != Valid
    ensures Kept(Marked(j, state, reason, recovering))
  {
    var k := Marked(j, state, reason, recovering);
    if reason != "" {
      Appended(j.tape, k.tape[|j.tape|]);
    }
    assert Records(k.tape) == Records(j.tape);
  }

  lemma FailedKept(j: Journal, running: bool)
    requires Kept(j.(terminal := true))
    ensures Kept(Terminated(j, running))
  {
    var t := j.(terminal := true);
    MarkedKept(t, Disconnected, "requested_shutdown", false);
    var s := if running then Marked(t, Disconnected, "requested_shutdown", false) else t;
    MarkedKept(s, Invalid, "terminal_failure", false);
  }

  lemma HistoryAppend(records: seq<Record<Payload>>, published: seq<Result>, r: Record<Payload>, result: Result)
    requires |records| == |published|
    ensures HistoryOf(records + [r], published + [result]) ==
            HistoryOf(records, published) + [Entry(r.connection, r.payload, result.outcome)]
  {}

  lemma AcceptedKept(j: Journal, p: Payload, size: nat, mono: int)
    requires Kept(j) && !j.terminal && j.connected
    ensures Kept(Handed(j, p, size, mono, Accepted))
  {
    var k := Handed(j, p, size, mono, Accepted);
    var r := Record(j.nextIndex, j.connectionId, mono, size, p);
    var (f, result) := Absorbed(Processed(j.feed, p, mono));
    Appended(j.tape, Recorded(r));
    HistoryAppend(Records(j.tape), j.published, r, result);
    ProcessingDescends(j.feed, HistoryOf(Records(j.tape), j.published), j.connectionId, p, mono);
    assert k.feed == f && k.published == j.published + [result];
  }

  lemma RejectedKept(j: Journal, p: Payload, size: nat, mono: int, pushed: PushResult)
    requires Kept(j) && !j.terminal && j.connected && pushed != Accepted
    ensures Kept(Handed(j, p, size, mono, pushed).(terminal := true))
  {
    assert Handed(j, p, size, mono, pushed).tape == j.tape;
  }

  lemma MessageKept(j: Journal, p: Payload, size: nat, mono: int, pushed: PushResult)
    requires Kept(j) && !j.terminal && j.connected
    ensures Kept(Settled(Handed(j, p, size, mono, pushed), ResultOf(j, p, mono, pushed)))
  {
    var k, result := Handed(j, p, size, mono, pushed), ResultOf(j, p, mono, pushed);
    CoinbaseLink.RestoringResult(Intake(j.feed, j.nextIndex, j.received, j.enqueued, j.processed), p, mono, pushed);
    if pushed == Accepted {
      AcceptedKept(j, p, size, mono);
      if result.error != "" {
        MarkedKept(k, Invalid, result.error, true);
      }
    } else {
      RejectedKept(j, p, size, mono, pushed);
      FailedKept(k, true);
    }
  }

  lemma OpenedKept(j: Journal, now: int)
    requires Kept(j) && Enabled(j, Open(now))
    ensures Kept(Opened(j, now))
  {
    MarkedKept(j, Initializing, "new_connection", false);
  }

  lemma MoveKeepsJournal(j: Journal, move: Move)
    requires Kept(j) && Enabled(j, move)
    ensures Kept(Moved(j, move))
  {
    match move
    case Keep =>
    case Mark(state, reason, recovering, timeouts) =>
      TimeoutsKept(j, timeouts);
      MarkedKept(TimeoutsSet(j, timeouts), state, reason, recovering);
    case Open(now) => OpenedKept(j, now);
    case Message(p, size, mono, pushed) => MessageKept(j, p, size, mono, pushed);
    case Fail(running) => FailedKept(j, running);
  }

  lemma TimeoutsKept(j: Journal, n: nat)
    requires Kept(j)
    ensures Kept(TimeoutsSet(j, n))
  {
    var k := TimeoutsSet(j, n);
    assert k.tape == j.tape && k.feed.book == j.feed.book && k.feed.sequence == j.feed.sequence;
  }

  // ----- Every step of the manager is a move -----

  function Timeouts(m: Manager): (n: nat) { m.feed.health.heartbeatTimeouts }

  lemma RecoveredMoves(m: Manager, reason: string, state: BookState, now: int)
    requires !m.stopping && !m.recoveryPending
    ensures state != Valid ==>
              JournalOf(Recovered(m, reason, state, now)) == Moved(JournalOf(m), Mark(state, reason, true, Timeouts(m)))
  {}

  lemma BeganMoves(m: Manager, now: int)
    requires !m.stopping
    ensures JournalOf(Began(m, now)) == Moved(JournalOf(m), Mark(Resyncing, "resynchronization", false, Timeouts(m)))
  {}

  lemma StoppedMoves(m: Manager, now: int)
    requires !m.stopping
    ensures JournalOf(Stopped(m, now)) == Marked(JournalOf(m), Disconnected, "requested_shutdown", false)
  {}

  lemma StartMoves(m: Manager, now: int)
    requires m.stopping && !m.terminal
    ensures JournalOf(Started(m, now)) ==
            Moved(JournalOf(m), Mark(Resyncing, "resynchronization", false, Timeouts(m)))
  {
    BeganMoves(m.(stopping := false), now);
  }

  lemma StopMoves(m: Manager, now: int)
    requires !m.stopping
    ensures JournalOf(Stopped(m, now)) ==
            Moved(JournalOf(m), Mark(Disconnected, "requested_shutdown", false, Timeouts(m)))
  {
    StoppedMoves(m, now);
    assert TimeoutsSet(JournalOf(m), Timeouts(m)) == JournalOf(m);
  }

  lemma FailedMoves(m: Manager, error: string, now: int)
    requires m.stopping ==> !m.connected && !m.recoveryPending && m.feed.sequence == None
    ensures JournalOf(TerminallyFailed(m, error, now)) == Terminated(JournalOf(m), !m.stopping)
  {
    if !m.stopping {
      StoppedMoves(m.(terminal := true), now);
    }
  }

  lemma ConnectedMoves(m: Manager, now: int)
    requires !m.connected && !m.recoveryPending
    ensures JournalOf(Connected(m, now)) == Opened(JournalOf(m), now)
  {}

  lemma DeliveredMoves(m: Manager, p: Payload, size: nat, mono: int, pushed: PushResult, now: int)
    ensures JournalOf(Delivered(m, p, size, mono, pushed, now)) == Handed(JournalOf(m), p, size, mono, pushed)
  {}

  lemma ConcludedMoves(d: Manager, previous: BookState, result: Result, now: int)
    requires d.connected && !d.stopping && !d.recoveryPending
    ensures JournalOf(Concluded(d, previous, result, now)) == Settled(JournalOf(d), result)
  {
    if result.outcome == RecordingRejected {
      FailedMoves(d, result.error, now);
    } else if result.error != "" {
      var c := EarlyUpdateCounted(d, result.error);
      assert JournalOf(c) == JournalOf(d);
      RecoveredMoves(c, result.error, Invalid, now);
      assert TimeoutsSet(JournalOf(c), Timeouts(c)) == JournalOf(c);
    }
  }

  lemma MessagedMoves(m: Manager, p: Payload, size: nat, mono: int, pushed: PushResult, now: int)
    requires m.connected && !m.stopping && !m.recoveryPending
    ensures JournalOf(Messaged(m, p, size, mono, pushed, now)) == Moved(JournalOf(m), Message(p, size, mono, pushed))
  {
    var d := Delivered(m, p, size, mono, pushed, now);
    DeliveredMoves(m, p, size, mono, pushed, now);
    CoinbaseLink.DeliveredMoves(m, p, size, mono, pushed, now);
    assert d.stopping == CoinbaseLink.ViewOf(d).stopping && d.recoveryPending == CoinbaseLink.ViewOf(d).recoveryPending;
    ConcludedMoves(d, m.State(), Handled(m.Intake(), p, mono, pushed).1, now);
  }

  lemma CheckedMoves(m: Manager, now: int) returns (move: Move)
    requires m.connected ==> !m.recoveryPending
    ensures Enabled(JournalOf(m), move) && JournalOf(HealthChecked(m, now)) == Moved(JournalOf(m), move)
    ensures !move.Message? && !move.Fail?
  {
    var reason := Failure(m.feed.health, now, m.config);
    move := Keep;
    if m.stopping {
    } else if !m.connected {
      if !m.recoveryPending && now - m.connectedAt > CONNECT_TIMEOUT {
        RecoveredMoves(m, "Coinbase connection timeout", Disconnected, now);
        move := Mark(Disconnected, "Coinbase connection timeout", true, Timeouts(m));
      }
    } else if reason == "" {
      assert JournalOf(Transitioned(m, m.State(), "", now)) == JournalOf(m);
    } else {
      var c := TimeoutCounted(m, reason);
      RecoveredMoves(c, reason, Stale, now);
      move := Mark(Stale, reason, true, Timeouts(c));
      assert TimeoutsSet(JournalOf(m), Timeouts(c)) == JournalOf(c) == TimeoutsSet(JournalOf(c), Timeouts(c));
    }
  }

  lemma TransportMoves(m: Manager, e: Event, now: int) returns (move: Move)
    requires e.OnConnected? || e.OnMessage? || e.OnError? || e.OnRetry?
    requires Kept(JournalOf(m)) && CoinbaseLink.Linked(CoinbaseLink.ViewOf(m))
    ensures Enabled(JournalOf(m), move) && JournalOf(Step(m, e, now)) == Moved(JournalOf(m), move)
    ensures move.Message? <==> e.OnMessage? && Live(m, e.generation) && m.connected
    ensures move.Message? ==> move == Message(e.payload, e.size, e.mono, e.pushed)
    ensures !move.Fail?
  {
    move := Keep;
    match e
    case OnConnected(g) =>
      if Live(m, g) && !m.connected {
        ConnectedMoves(m, now);
        move := Open(now);
      }
    case OnMessage(g, p, size, mono, pushed) =>
      if Live(m, g) && m.connected {
        MessagedMoves(m, p, size, mono, pushed, now);
        move := Message(p, size, mono, pushed);
      }
    case OnError(g, reason) =>
      if Live(m, g) {
        RecoveredMoves(m, reason, Disconnected, now);
        move := Mark(Disconnected, reason, true, Timeouts(m));
      }
    case OnRetry(g) =>
      if RetryLive(m, g) {
        BeganMoves(m, now);
        move := Mark(Resyncing, "resynchronization", false, Timeouts(m));
      }
  }

  lemma ControlMoves(m: Manager, e: Event, now: int) returns (move: Move)
    requires e.Start? || e.Stop? || e.CheckHealth? || e.ForceDisconnect? || e.FailTerminally?
    requires Kept(JournalOf(m)) && CoinbaseLink.Linked(CoinbaseLink.ViewOf(m))
    ensures Enabled(JournalOf(m), move) && JournalOf(Step(m, e, now)) == Moved(JournalOf(m), move)
    ensures !move.Message? && (move.Fail? <==> e.FailTerminally?)
  {
    move := Keep;
    match e
    case Start =>
      if m.stopping && !m.terminal {
        StartMoves(m, now);
        move := Mark(Resyncing, "resynchronization", false, Timeouts(m));
      }
    case Stop =>
      if !m.stopping {
        StopMoves(m, now);
        move := Mark(Disconnected, "requested_shutdown", false, Timeouts(m));
      }
    case CheckHealth => move := CheckedMoves(m, now);
    case ForceDisconnect =>
      if !m.stopping && !m.recoveryPending {
        RecoveredMoves(m, "forced local disconnect", Disconnected, now);
        move := Mark(Disconnected, "forced local disconnect", true, Timeouts(m));
      }
    case FailTerminally(error) =>
      FailedMoves(m, error, now);
      move := Fail(!m.stopping);
  }

  /** Every step of the manager is one enabled move of its journal. */
  lemma StepMoves(m: Manager, e: Event, now: int) returns (move: Move)
    requires Kept(JournalOf(m)) && CoinbaseLink.Linked(CoinbaseLink.ViewOf(m))
    ensures Enabled(JournalOf(m), move) && JournalOf(Step(m, e, now)) == Moved(JournalOf(m), move)
    ensures move.Message? <==> e.OnMessage? && Live(m, e.generation) && m.connected
    ensures move.Message? ==> move == Message(e.payload, e.size, e.mono, e.pushed)
    ensures move.Fail? <==> e.FailTerminally?
  {
    if e.OnConnected? || e.OnMessage? || e.OnError? || e.OnRetry? {
      move := TransportMoves(m, e, now);
    } else {
      move := ControlMoves(m, e, now);
    }
  }
}
