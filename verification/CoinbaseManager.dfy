/** The Coinbase connection manager as a state machine:
    src/adapters/coinbase/coinbase_connection_manager.cpp and src/adapters/coinbase/reconnect_policy.cpp. */
module CoinbaseManager {
  import opened Base
  import opened Envelope
  import opened Market
  import opened OrderBooks
  import opened CoinbaseFeed
  import opened Tape

  // ----- What the manager hands to its environment -----

  datatype Retry = Retry(generation: nat, delay: nat)

  // ----- Backoff -----

  const FIRST_DELAY: nat := 250
  const LONGEST_DELAY: nat := 10000

  function NextDelay(delay: nat): (d: nat) { if delay * 2 < LONGEST_DELAY then delay * 2 else LONGEST_DELAY }

  class ReconnectPolicy {
    var delay: nat

    constructor ()
      ensures delay == FIRST_DELAY
    {
      delay := FIRST_DELAY;
    }

    method Next() returns (r: nat)
      modifies this
      ensures r == old(delay) && delay == NextDelay(old(delay))
    {
      r := delay;
      delay := if delay * 2 < LONGEST_DELAY then delay * 2 else LONGEST_DELAY;
    }

    method Reset()
      modifies this
      ensures delay == FIRST_DELAY
    {
      delay := FIRST_DELAY;
    }
  }

  // ----- State -----

  datatype Metrics = Metrics(
    connectionsStarted: nat, connectionsSucceeded: nat, disconnects: nat, reconnectAttempts: nat,
    recoverySuccesses: nat, recoveryCount: nat, snapshotsReceived: nat, updatesReceived: nat,
    updatesBeforeSnapshot: nat, timeToFirstSnapshot: int, recoveryDuration: int,
    validTime: int, staleTime: int, invalidTime: int, lastFailureReason: string)

  const NO_METRICS: Metrics := Metrics(0, 0, 0, 0, 0, 0, 0, 0, 0, 0, 0, 0, 0, 0, "")

  datatype Manager = Manager(
    config: HealthConfig,
    feed: Feed,
    nextIndex: nat, received: Option<nat>, enqueued: Option<nat>, processed: Option<nat>,
    terminal: bool, stopping: bool, recoveryPending: bool, connected: bool,
    generation: nat, connectionId: nat,
    delay: nat,
    metrics: Metrics,
    stateSince: int, connectedAt: int, recoverySince: Option<int>,
    tape: seq<TapeItem<Record<Payload>>>,      // sink and lifecycle observer
    published: seq<Result>,   // publish callback
    connects: seq<nat>,       // generations for which connect was called
    schedule: seq<Retry>)     // retries handed to the scheduler
  {
    function State(): (s: BookState) { feed.book.state }
    function WithState(s: BookState): (m: Manager) { this.(feed := feed.(book := feed.book.(state := s))) }
    function WithoutSequence(): (m: Manager) { this.(feed := feed.(sequence := None)) }
    function Intake(): (i: Intake) { CoinbaseFeed.Intake(feed, nextIndex, received, enqueued, processed) }
  }

  function Init(config: HealthConfig, now: int): (m: Manager)
  {
    Manager(config,
            Feed(NewBook(Venue.Coinbase).(state := Disconnected), None, NEW_HEALTH), 0, None, None, None,
            false, true, false, false, 0, 0, FIRST_DELAY, NO_METRICS, now, 0, None, [], [], [], [])
  }

  // ----- Operations -----

  function Accounted(m: Manager, state: BookState, now: int): (r: Manager)
  {
    var d := now - m.stateSince;
    var t := m.metrics;
    m.(stateSince := now,
       metrics := t.(validTime := if state == Valid then t.validTime + d else t.validTime,
                     staleTime := if state == Stale then t.staleTime + d else t.staleTime,
                     invalidTime := if state == Invalid then t.invalidTime + d else t.invalidTime))
  }

  function NextRecord(m: Manager): (n: nat) { if m.received.Some? then m.received.value + 1 else 0 }

  function Logged(m: Manager, state: BookState, reason: string): (r: Manager)
  {
    if reason == "" then m else m.(tape := m.tape + [Lifecycle(LifecycleEvent(NextRecord(m), state, reason))])
  }

  function Transitioned(m: Manager, state: BookState, reason: string, now: int): (r: Manager)
  {
    var a := Accounted(Logged(m, state, reason), m.State(), now);
    if state == Valid then a else a.WithState(state)
  }

  function Began(m: Manager, now: int): (r: Manager)
  {
    if m.stopping then m
    else
      var t := Transitioned(m.(recoveryPending := false, connected := false), Resyncing, "resynchronization", now);
      var g := m.generation + 1;
      t.WithoutSequence().(
        connectedAt := now, generation := g, connects := m.connects + [g],
        metrics := t.metrics.(connectionsStarted := t.metrics.connectionsStarted + 1))
  }

  function Started(m: Manager, now: int): (r: Manager)
  {
    if !m.stopping || m.terminal then m else Began(m.(stopping := false), now)
  }

  function Stopped(m: Manager, now: int): (r: Manager)
  {
    if m.stopping then m
    else
      var s := m.(stopping := true, generation := m.generation + 1, recoveryPending := false, connected := false);
      Transitioned(s.WithoutSequence(), Disconnected, "requested_shutdown", now)
  }

  function Connected(m: Manager, now: int): (r: Manager)
  {
    if m.connected then m
    else
      var c := m.(connected := true, connectionId := m.connectionId + 1, connectedAt := now,
                  metrics := m.metrics.(connectionsSucceeded := m.metrics.connectionsSucceeded + 1),
                  feed := m.feed.(sequence := None, health := HealthReset(m.feed.health, now)));
      Transitioned(c, Initializing, "new_connection", now)
  }

  function Recovered(m: Manager, reason: string, state: BookState, now: int): (r: Manager)
  {
    if m.stopping || m.recoveryPending then m
    else
      Rescheduled(Abandoned(m, reason, state, now), reason, now)
  }

  function Abandoned(m: Manager, reason: string, state: BookState, now: int): (r: Manager)
  {
    Transitioned(m.(recoveryPending := true, generation := m.generation + 1), state, reason, now).WithoutSequence()
  }

  /** The bookkeeping of a recovery and the one retry it schedules. */
  function Rescheduled(m: Manager, reason: string, now: int): (r: Manager)
  {
    m.(connected := false,
       metrics := m.metrics.(disconnects := m.metrics.disconnects + (if m.connected then 1 else 0),
                             recoveryCount := m.metrics.recoveryCount + 1,
                             lastFailureReason := reason,
                             reconnectAttempts := m.metrics.reconnectAttempts + 1),
       recoverySince := if m.recoverySince.None? then Some(now) else m.recoverySince,
       schedule := m.schedule + [Retry(m.generation, m.delay)],
       delay := NextDelay(m.delay))
  }

  function TerminallyFailed(m: Manager, error: string, now: int): (r: Manager)
  {
    var s := Stopped(m.(terminal := true), now);
    Transitioned(s.(metrics := s.metrics.(lastFailureReason := error)), Invalid, "terminal_failure", now)
  }

  /** A snapshot that restores validity resets the backoff and closes an open recovery. */
  function Restored(m: Manager, now: int): (r: Manager)
  {
    var t := m.metrics.(timeToFirstSnapshot := now - m.connectedAt);
    if m.recoverySince.None? then m.(delay := FIRST_DELAY, metrics := t)
    else m.(delay := FIRST_DELAY, recoverySince := None,
            metrics := t.(recoverySuccesses := t.recoverySuccesses + 1,
                          recoveryDuration := now - m.recoverySince.value))
  }

  /** The handler's part of a message: enqueue, process, publish, and account a changed state. */
  function Delivered(m: Manager, p: Payload, size: nat, mono: int, pushed: PushResult, now: int): (r: Manager)
  {
    var (i, result) := Handled(m.Intake(), p, mono, pushed);
    var record := Record(m.nextIndex, m.connectionId, mono, size, p);
    var h := m.(feed := i.feed, nextIndex := i.nextIndex, received := i.received, enqueued := i.enqueued,
                processed := i.processed, published := m.published + [result],
                tape := if pushed == Accepted then m.tape + [Recorded(record)] else m.tape);
    if h.State() == m.State() then h else Accounted(h, m.State(), now)
  }

  /** A message that revealed an integrity failure. */
  function Faulted(d: Manager, error: string, now: int): (r: Manager)
  {
    Recovered(EarlyUpdateCounted(d, error), error, Invalid, now)
  }

  function EarlyUpdateCounted(d: Manager, error: string): (r: Manager)
  {
    if error != BEFORE_SNAPSHOT then d
    else d.(metrics := d.metrics.(updatesBeforeSnapshot := d.metrics.updatesBeforeSnapshot + 1))
  }

  /** What follows the handler, given its result and the state the book had before it. */
  function Concluded(d: Manager, previous: BookState, result: Result, now: int): (r: Manager)
  {
    if result.outcome == RecordingRejected then TerminallyFailed(d, result.error, now)
    else if result.error != "" then Faulted(d, result.error, now)
    else Counted(d, previous, result, now)
  }

  function Counted(d: Manager, previous: BookState, result: Result, now: int): (r: Manager)
  {
    var c := Tallied(d, result);
    if previous != Valid && result.outcome == BookUpdated && result.snapshots > 0 then Restored(c, now) else c
  }

  function Tallied(d: Manager, result: Result): (r: Manager)
  {
    d.(metrics := d.metrics.(snapshotsReceived := d.metrics.snapshotsReceived + result.snapshots,
                             updatesReceived := d.metrics.updatesReceived + result.updates))
  }

  function Messaged(m: Manager, p: Payload, size: nat, mono: int, pushed: PushResult, now: int): (r: Manager)
  {
    if !m.connected then m
    else Concluded(Delivered(m, p, size, mono, pushed, now), m.State(), Handled(m.Intake(), p, mono, pushed).1, now)
  }

  const CONNECT_TIMEOUT: int := 30_000_000_000

  function HealthChecked(m: Manager, now: int): (r: Manager)
  {
    if m.stopping then m
    else if !m.connected then
      if !m.recoveryPending && now - m.connectedAt > CONNECT_TIMEOUT
      then Recovered(m, "Coinbase connection timeout", Disconnected, now) else m
    else
      var reason := Failure(m.feed.health, now, m.config);
      if reason == "" then Transitioned(m, m.State(), "", now)
      else Recovered(TimeoutCounted(m, reason), reason, Stale, now)
  }

  function TimeoutCounted(m: Manager, reason: string): (r: Manager)
  {
    if reason != "Coinbase heartbeat timeout" then m
    else m.(feed := m.feed.(health := m.feed.health.(heartbeatTimeouts := m.feed.health.heartbeatTimeouts + 1)))
  }

  // ----- Events and runs -----

  datatype Event =
    | Start
    | Stop
    | OnConnected(generation: nat)
    | OnMessage(generation: nat, payload: Payload, size: nat, mono: int, pushed: PushResult)
    | OnError(generation: nat, reason: string)
    | OnRetry(generation: nat)
    | CheckHealth
    | ForceDisconnect
    | FailTerminally(error: string)

  /** A transport callback is live when its generation was connected and is still the current one. */
  predicate Live(m: Manager, generation: nat)
  {
    generation in m.connects && !m.stopping && generation == m.generation
  }

  predicate RetryLive(m: Manager, generation: nat)
  {
    (exists i :: 0 <= i < |m.schedule| && m.schedule[i].generation == generation) &&
    !m.stopping && generation == m.generation
  }

  /** One event at one clock reading. */
  function Step(m: Manager, e: Event, now: int): (r: Manager)
  {
    match e
    case Start => Started(m, now)
    case Stop => Stopped(m, now)
    case OnConnected(g) => if Live(m, g) then Connected(m, now) else m
    case OnMessage(g, p, size, mono, pushed) => if Live(m, g) then Messaged(m, p, size, mono, pushed, now) else m
    case OnError(g, reason) => if Live(m, g) then Recovered(m, reason, Disconnected, now) else m
    case OnRetry(g) => if RetryLive(m, g) then Began(m, now) else m
    case CheckHealth => HealthChecked(m, now)
    case ForceDisconnect => Recovered(m, "forced local disconnect", Disconnected, now)
    case FailTerminally(error) => TerminallyFailed(m, error, now)
  }

  /** An event and the clock reading it was handled at. */
  datatype Timed = Timed(event: Event, now: int)

  function Run(config: HealthConfig, start: int, events: seq<Timed>): (m: Manager)
  {
    if events == [] then Init(config, start)
    else
      var e := events[|events| - 1];
      Step(Run(config, start, events[..|events| - 1]), e.event, e.now)
  }

  // ----- The class -----

  /** The handler's counters. */
  datatype Progress = Progress(next: nat, received: Option<nat>, enqueued: Option<nat>, processed: Option<nat>)

  /** Where the connection stands. */
  datatype Link = Link(terminal: bool, stopping: bool, recoveryPending: bool, connected: bool, generation: nat, id: nat)

  datatype Timing = Timing(stateSince: int, connectedAt: int, recoverySince: Option<int>, delay: nat)

  /** What the callbacks have been given. */
  datatype Output = Output(tape: seq<TapeItem<Record<Payload>>>, published: seq<Result>, connects: seq<nat>,
                           schedule: seq<Retry>)

  class ConnectionManager {
    const config: HealthConfig
    var feed: Feed
    var progress: Progress
    var link: Link
    var timing: Timing
    var metrics: Metrics
    var output: Output

    ghost function Value(): (m: Manager)
      reads this
    {
      Manager(config, feed, progress.next, progress.received, progress.enqueued, progress.processed,
              link.terminal, link.stopping, link.recoveryPending, link.connected, link.generation, link.id,
              timing.delay, metrics, timing.stateSince, timing.connectedAt, timing.recoverySince,
              output.tape, output.published, output.connects, output.schedule)
    }

    constructor (config: HealthConfig, now: int)
      ensures Value() == Init(config, now)
    {
      this.config := config;
      feed := Feed(NewBook(Venue.Coinbase).(state := Disconnected), None, NEW_HEALTH);
      progress := Progress(0, None, None, None);
      link := Link(false, true, false, false, 0, 0);
      timing := Timing(now, 0, None, FIRST_DELAY);
      metrics := NO_METRICS;
      output := Output([], [], [], []);
    }

    method AccountTime(state: BookState, now: int)
      modifies this
      ensures Value() == Accounted(old(Value()), state, now)
    {
      var duration := now - timing.stateSince;
      match state {
        case Valid => metrics := metrics.(validTime := metrics.validTime + duration);
        case Stale => metrics := metrics.(staleTime := metrics.staleTime + duration);
        case Invalid => metrics := metrics.(invalidTime := metrics.invalidTime + duration);
        case _ =>
      }
      timing := timing.(stateSince := now);
    }

    /** The lifecycle observer is told unless the reason is empty. */
    method Observe(state: BookState, reason: string)
      modifies this`output
      ensures Value() == Logged(old(Value()), state, reason)
    {
      if reason != "" {
        var before := if progress.received.Some? then progress.received.value + 1 else 0;
        output := output.(tape := output.tape + [Lifecycle(LifecycleEvent(before, state, reason))]);
      }
    }

    method Transition(state: BookState, reason: string, now: int)
      modifies this
      ensures Value() == Transitioned(old(Value()), state, reason, now)
    {
      Observe(state, reason);
      AccountTime(feed.book.state, now);
      if state != Valid {
        feed := feed.(book := feed.book.(state := state));
      }
    }

    method Begin(now: int)
      modifies this
      ensures Value() == Began(old(Value()), now)
    {
      if link.stopping {
        return;
      }
      link := link.(recoveryPending := false, connected := false);
      Transition(Resyncing, "resynchronization", now);
      feed := feed.(sequence := None);
      timing := timing.(connectedAt := now);
      metrics := metrics.(connectionsStarted := metrics.connectionsStarted + 1);
      link := link.(generation := link.generation + 1);
      output := output.(connects := output.connects + [link.generation]);
    }

    method Start(now: int)
      modifies this
      ensures Value() == Started(old(Value()), now)
    {
      if !link.stopping || link.terminal {
        return;
      }
      link := link.(stopping := false);
      Begin(now);
    }

    method Stop(now: int)
      modifies this
      ensures Value() == Stopped(old(Value()), now)
    {
      if link.stopping {
        return;
      }
      link := link.(stopping := true, generation := link.generation + 1, recoveryPending := false, connected := false);
      feed := feed.(sequence := None);
      Transition(Disconnected, "requested_shutdown", now);
    }

    method HandleConnected(g: nat, now: int)
      modifies this
      ensures Value() == if old(Live(Value(), g)) then Connected(old(Value()), now) else old(Value())
    {
      if g !in output.connects || link.stopping || g != link.generation || link.connected {
        return;
      }
      link := link.(connected := true, id := link.id + 1);
      metrics := metrics.(connectionsSucceeded := metrics.connectionsSucceeded + 1);
      timing := timing.(connectedAt := now);
      feed := feed.(health := HealthReset(feed.health, now), sequence := None);
      Transition(Initializing, "new_connection", now);
    }

    method Recover(reason: string, state: BookState, now: int)
      modifies this
      ensures Value() == Recovered(old(Value()), reason, state, now)
    {
      if link.stopping || link.recoveryPending {
        return;
      }
      GiveUp(reason, state, now);
      Reschedule(reason, now);
    }

    /** Leave the current generation and its connection's sequence. */
    method GiveUp(reason: string, state: BookState, now: int)
      modifies this
      ensures Value() == Abandoned(old(Value()), reason, state, now)
    {
      Disown();
      Transition(state, reason, now);
      DropSequence();
    }

    method Disown()
      modifies this`link
      ensures Value() == old(Value()).(recoveryPending := true, generation := old(link.generation) + 1)
    {
      link := link.(recoveryPending := true, generation := link.generation + 1);
    }

    method DropSequence()
      modifies this`feed
      ensures Value() == old(Value()).WithoutSequence()
    {
      feed := feed.(sequence := None);
    }

    method Reschedule(reason: string, now: int)
      modifies this
      ensures Value() == Rescheduled(old(Value()), reason, now)
    {
      if link.connected {
        metrics := metrics.(disconnects := metrics.disconnects + 1);
      }
      link := link.(connected := false);
      metrics := metrics.(recoveryCount := metrics.recoveryCount + 1, lastFailureReason := reason,
                          reconnectAttempts := metrics.reconnectAttempts + 1);
      if timing.recoverySince.None? {
        timing := timing.(recoverySince := Some(now));
      }
      output := output.(schedule := output.schedule + [Retry(link.generation, timing.delay)]);
      timing := timing.(delay := NextDelay(timing.delay));
    }

    method FailTerminal(error: string, now: int)
      modifies this
      ensures Value() == TerminallyFailed(old(Value()), error, now)
    {
      link := link.(terminal := true);
      Stop(now);
      metrics := metrics.(lastFailureReason := error);
      Transition(Invalid, "terminal_failure", now);
    }

    method Deliver(p: Payload, size: nat, mono: int, pushed: PushResult, now: int) returns (result: Result)
      modifies this
      ensures Value() == Delivered(old(Value()), p, size, mono, pushed, now)
      ensures result == Handled(old(Value()).Intake(), p, mono, pushed).1
    {
      var previous, index := feed.book.state, progress.next;
      var intake := Intake(feed, progress.next, progress.received, progress.enqueued, progress.processed);
      var (i, r) := Handled(intake, p, mono, pushed);
      feed, progress, result := i.feed, Progress(i.nextIndex, i.received, i.enqueued, i.processed), r;
      output := output.(published := output.published + [r]);
      if pushed == Accepted {
        output := output.(tape := output.tape + [Recorded(Record(index, link.id, mono, size, p))]);
      }
      if feed.book.state != previous {
        AccountTime(previous, now);
      }
    }

    method Restore(now: int)
      modifies this
      ensures Value() == Restored(old(Value()), now)
    {
      metrics := metrics.(timeToFirstSnapshot := now - timing.connectedAt);
      if timing.recoverySince.Some? {
        metrics := metrics.(recoverySuccesses := metrics.recoverySuccesses + 1,
                            recoveryDuration := now - timing.recoverySince.value);
      }
      timing := timing.(delay := FIRST_DELAY, recoverySince := None);
    }

    method HandleMessage(g: nat, p: Payload, size: nat, mono: int, pushed: PushResult, now: int)
      modifies this
      ensures Value() ==
              if old(Live(Value(), g)) then Messaged(old(Value()), p, size, mono, pushed, now) else old(Value())
    {
      if g !in output.connects || link.stopping || g != link.generation || !link.connected {
        return;
      }
      var previous := feed.book.state;
      var result := Deliver(p, size, mono, pushed, now);
      Conclude(previous, result, now);
    }

    method Fault(error: string, now: int)
      modifies this
      ensures Value() == Faulted(old(Value()), error, now)
    {
      if error == BEFORE_SNAPSHOT {
        metrics := metrics.(updatesBeforeSnapshot := metrics.updatesBeforeSnapshot + 1);
      }
      Recover(error, Invalid, now);
    }

    method Conclude(previous: BookState, result: Result, now: int)
      modifies this
      ensures Value() == Concluded(old(Value()), previous, result, now)
    {
      if result.outcome == RecordingRejected {
        FailTerminal(result.error, now);
        return;
      }
      if result.error != "" {
        Fault(result.error, now);
        return;
      }
      Count(previous, result, now);
    }

    method Count(previous: BookState, result: Result, now: int)
      modifies this
      ensures Value() == Counted(old(Value()), previous, result, now)
    {
      CountEvents(result);
      if previous != Valid && result.outcome == BookUpdated && result.snapshots > 0 {
        Restore(now);
      }
    }

    method CountEvents(result: Result)
      modifies this`metrics
      ensures Value() == Tallied(old(Value()), result)
    {
      metrics := metrics.(snapshotsReceived := metrics.snapshotsReceived + result.snapshots,
                          updatesReceived := metrics.updatesReceived + result.updates);
    }

    method HandleError(g: nat, reason: string, now: int)
      modifies this
      ensures Value() ==
              if old(Live(Value(), g)) then Recovered(old(Value()), reason, Disconnected, now) else old(Value())
    {
      if g !in output.connects || link.stopping || g != link.generation {
        return;
      }
      Recover(reason, Disconnected, now);
    }

    /** The callback handed to the scheduler with retry number i. */
    method Resume(i: nat, now: int)
      requires i < |output.schedule|
      modifies this
      ensures Value() ==
              if old(RetryLive(Value(), output.schedule[i].generation)) then Began(old(Value()), now) else old(Value())
    {
      if link.stopping || output.schedule[i].generation != link.generation {
        return;
      }
      Begin(now);
    }

    method CheckHealth(now: int)
      modifies this
      ensures Value() == HealthChecked(old(Value()), now)
    {
      if link.stopping {
        return;
      }
      if !link.connected {
        if !link.recoveryPending && now - timing.connectedAt > CONNECT_TIMEOUT {
          Recover("Coinbase connection timeout", Disconnected, now);
        }
        return;
      }
      var reason := Failure(feed.health, now, config);
      if reason == "" {
        Transition(feed.book.state, "", now);
        return;
      }
      if reason == "Coinbase heartbeat timeout" {
        feed := feed.(health := feed.health.(heartbeatTimeouts := feed.health.heartbeatTimeouts + 1));
      }
      Recover(reason, Stale, now);
    }

    /** One event, as the transport, the timers and the runtime deliver it. */
    method Dispatch(e: Event, now: int)
      modifies this
      ensures Value() == Step(old(Value()), e, now)
    {
      match e
      case Start => this.Start(now);
      case Stop => this.Stop(now);
      case OnConnected(g) => HandleConnected(g, now);
      case OnMessage(g, p, size, mono, pushed) => HandleMessage(g, p, size, mono, pushed, now);
      case OnError(g, reason) => HandleError(g, reason, now);
      case OnRetry(g) => FireRetry(g, now);
      case CheckHealth => this.CheckHealth(now);
      case ForceDisconnect => Recover("forced local disconnect", Disconnected, now);
      case FailTerminally(error) => FailTerminal(error, now);
    }

    /** A retry fires only if it was scheduled. */
    method FireRetry(g: nat, now: int)
      modifies this
      ensures Value() == if old(RetryLive(Value(), g)) then Began(old(Value()), now) else old(Value())
    {
      if exists i :: 0 <= i < |output.schedule| && output.schedule[i].generation == g {
        var i :| 0 <= i < |output.schedule| && output.schedule[i].generation == g;
        Resume(i, now);
      }
    }
  }

  /** Construction fails, here with None, unless every health interval is positive. */
  method CreateManager(config: HealthConfig, now: int) returns (m: Option<ConnectionManager>)
    ensures m.Some? <==> PositiveIntervals(config)
    ensures m.Some? ==> fresh(m.value) && m.value.Value() == Init(config, now)
  {
    if config.checkInterval <= 0 || config.maxAny <= 0 || config.maxHeartbeat <= 0 ||
       (config.maxInstrument.Some? && config.maxInstrument.value <= 0) {
      return None;
    }
    var manager := new ConnectionManager(config, now);
    m := Some(manager);
  }
}
