/** The connection manager seen from its link: which callbacks are live, how many connections and recoveries
    there were and how long the next retry waits. Every step of the manager is one move of this machine. */
module CoinbaseLink {
  import opened Base
  import opened Envelope
  import opened Market
  import opened CoinbaseFeed
  import opened CoinbaseHistory
  import opened CoinbaseManager

  datatype View = View(
    terminal: bool, stopping: bool, recoveryPending: bool, connected: bool,
    generation: nat, connectionId: nat, connects: seq<nat>, schedule: seq<Retry>, state: BookState,
    started: nat, succeeded: nat, attempts: nat, recoveries: nat, restored: nat, recovering: bool, delay: nat)

  function ViewOf(m: Manager): (v: View)
  {
    View(m.terminal, m.stopping, m.recoveryPending, m.connected,
         m.generation, m.connectionId, m.connects, m.schedule, m.State(),
         m.metrics.connectionsStarted, m.metrics.connectionsSucceeded, m.metrics.reconnectAttempts,
         m.metrics.recoveryCount, m.metrics.recoverySuccesses, m.recoverySince.Some?, m.delay)
  }

  datatype Move =
    | Stay
    | Begin                   // a connection is started
    | Halt                    // a requested shutdown
    | Open                    // the transport reports success
    | Settle(to: BookState)   // a message was processed without a failure
    | Drop(to: BookState)     // recovery: the connection is given up and one retry scheduled
    | Fail                    // terminal failure

  predicate Restoring(v: View, state: BookState) { v.state != Valid && state == Valid }

  predicate Enabled(v: View, move: Move)
  {
    match move
    case Stay => true
    case Begin => !v.terminal && (v.stopping || v.recoveryPending)
    case Halt => !v.stopping
    case Open => !v.stopping && v.generation in v.connects && !v.connected
    case Settle(_) => v.connected
    case Drop(state) => !v.stopping && !v.recoveryPending && state != Valid
    case Fail => true
  }

  function Halted(v: View): (w: View)
  {
    if v.stopping then v
    else v.(stopping := true, generation := v.generation + 1, recoveryPending := false, connected := false,
            state := Disconnected)
  }

  function Moved(v: View, move: Move): (w: View)
  {
    match move
    case Stay => v
    case Begin =>
      v.(stopping := false, recoveryPending := false, connected := false, state := Resyncing,
         generation := v.generation + 1, connects := v.connects + [v.generation + 1], started := v.started + 1)
    case Halt => Halted(v)
    case Open => v.(connected := true, connectionId := v.connectionId + 1, succeeded := v.succeeded + 1,
                    state := Initializing)
    case Settle(state) =>
      if Restoring(v, state)
      then v.(state := state, delay := FIRST_DELAY, recovering := false,
              restored := v.restored + if v.recovering then 1 else 0)
      else v.(state := state)
    case Drop(state) =>
      v.(recoveryPending := true, connected := false, state := state, generation := v.generation + 1,
         schedule := v.schedule + [Retry(v.generation + 1, v.delay)], delay := NextDelay(v.delay),
         attempts := v.attempts + 1, recoveries := v.recoveries + 1, recovering := true)
    case Fail => Halted(v.(terminal := true)).(state := Invalid)
  }

  // ----- Invariant of the machine -----

  predicate Linked(v: View)
  {
    && (forall g :: g in v.connects ==> g <= v.generation)
    && (forall i :: 0 <= i < |v.schedule| ==> v.schedule[i].generation <= v.generation)
    && (forall i, j :: 0 <= i < j < |v.schedule| ==> v.schedule[i].generation < v.schedule[j].generation)
    && (v.generation in v.connects <==> !v.stopping && !v.recoveryPending)
    && (v.recoveryPending <==> v.schedule != [] && v.schedule[|v.schedule| - 1].generation == v.generation)
    && (v.recoveryPending ==> !v.stopping)
    && (v.connected ==> !v.stopping && !v.recoveryPending)
    && (v.state == Valid ==> v.connected)
    && (v.terminal ==> v.stopping && v.state == Invalid)
  }

  predicate Counted(v: View)
  {
    && v.connectionId == v.succeeded
    && v.started == |v.connects|
    && v.succeeded + (if v.connected || v.stopping || v.recoveryPending then 0 else 1) <= v.started
    && v.attempts == v.recoveries == |v.schedule|
    && v.restored + (if v.recovering then 1 else 0) <= v.recoveries
  }

  lemma MoveKeepsLinked(v: View, move: Move)
    requires Linked(v) && Enabled(v, move)
    ensures Linked(Moved(v, move))
  {
    var w := Moved(v, move);
    assert forall g :: g in w.connects ==> g in v.connects || g == w.generation;
  }

  lemma MoveKeepsCounted(v: View, move: Move)
    requires Linked(v) && Counted(v) && Enabled(v, move)
    ensures Counted(Moved(v, move))
  {}

  // ----- The manager refines the machine -----

  lemma RecoveredMoves(m: Manager, reason: string, state: BookState, now: int)
    requires state != Valid
    ensures ViewOf(Recovered(m, reason, state, now)) ==
            if m.stopping || m.recoveryPending then ViewOf(m) else Moved(ViewOf(m), Drop(state))
  {}

  lemma BeganMoves(m: Manager, now: int)
    requires !m.stopping
    ensures ViewOf(Began(m, now)) == Moved(ViewOf(m), Begin)
  {}

  lemma StoppedMoves(m: Manager, now: int)
    ensures ViewOf(Stopped(m, now)) == Halted(ViewOf(m))
  {}

  lemma FailedMoves(m: Manager, error: string, now: int)
    ensures ViewOf(TerminallyFailed(m, error, now)) == Moved(ViewOf(m), Fail)
  {
    StoppedMoves(m.(terminal := true), now);
  }

  lemma ConnectedMoves(m: Manager, now: int)
    requires !m.connected
    ensures ViewOf(Connected(m, now)) == Moved(ViewOf(m), Open)
  {}

  lemma DeliveredMoves(m: Manager, p: Payload, size: nat, mono: int, pushed: PushResult, now: int)
    ensures var d := Delivered(m, p, size, mono, pushed, now);
            && ViewOf(d) == ViewOf(m).(state := d.State())
            && d.State() == Handled(m.Intake(), p, mono, pushed).0.feed.book.state
  {}

  /** A result without an error says exactly whether the book went from not Valid to Valid. */
  lemma RestoringResult(i: Intake, p: Payload, mono: int, pushed: PushResult)
    ensures var (j, r) := Handled(i, p, mono, pushed);
            && (r.outcome == RecordingRejected <==> pushed != Accepted)
            && (r.outcome == RecordingRejected ==> r.error != "")
            && (r.error == "" && i.feed.book.state != Valid ==>
                  (j.feed.book.state == Valid <==> r.outcome == BookUpdated && r.snapshots > 0))
  {
    var (j, r) := Handled(i, p, mono, pushed);
    if pushed == Accepted {
      OutcomesAccepted(i.feed, p, mono);
      if r.outcome == BookUpdated {
        UpdatedMeansApplied(i.feed, p, mono);
        EnvelopeApplied(i.feed.book, p.items, p.number);
        if i.feed.book.state != Valid {
          FirstSnapshotCounts(p.items);
        }
      } else if j.feed.book.state == Valid {
        ValidAfter(i.feed, p, mono);
      }
    }
  }

  lemma OutcomesAccepted(f: Feed, p: Payload, mono: int)
    ensures Absorbed(Processed(f, p, mono)).1.outcome != RecordingRejected
  {}

  lemma UpdatedMeansApplied(f: Feed, p: Payload, mono: int)
    requires Absorbed(Processed(f, p, mono)).1.outcome == BookUpdated
    ensures p.L2? && p.items != [] && (f.book.state == Valid || p.items[0].snapshot)
    ensures AllApplied(f.book, EventsOf(p.items, p.number)) == Some(Absorbed(Processed(f, p, mono)).0.book)
    ensures Absorbed(Processed(f, p, mono)).1.snapshots == SnapshotCount(p.items)
  {}

  function ConclusionMove(d: Manager, result: Result): (move: Move)
  {
    if result.outcome == RecordingRejected then Fail
    else if result.error != "" then Drop(Invalid)
    else Settle(d.State())
  }

  /** before is the view in front of the message; d differs from it in the book only. */
  lemma ConcludedMoves(before: View, d: Manager, result: Result, now: int)
    requires before == ViewOf(d).(state := before.state)
    requires before.connected && !before.stopping && !before.recoveryPending
    requires result.error == "" && before.state != Valid ==>
               (d.State() == Valid <==> result.outcome == BookUpdated && result.snapshots > 0)
    requires result.outcome == RecordingRejected ==> result.error != ""
    ensures ViewOf(Concluded(d, before.state, result, now)) == Moved(before, ConclusionMove(d, result))
  {
    if result.outcome == RecordingRejected {
      FailedMoves(d, result.error, now);
    } else if result.error != "" {
      var c := EarlyUpdateCounted(d, result.error);
      assert ViewOf(c) == ViewOf(d);
      RecoveredMoves(c, result.error, Invalid, now);
    }
  }

  lemma MessagedMoves(m: Manager, p: Payload, size: nat, mono: int, pushed: PushResult, now: int) returns (move: Move)
    requires m.connected && !m.stopping && !m.recoveryPending
    ensures Enabled(ViewOf(m), move)
    ensures ViewOf(Messaged(m, p, size, mono, pushed, now)) == Moved(ViewOf(m), move)
  {
    var d := Delivered(m, p, size, mono, pushed, now);
    var result := Handled(m.Intake(), p, mono, pushed).1;
    DeliveredMoves(m, p, size, mono, pushed, now);
    RestoringResult(m.Intake(), p, mono, pushed);
    ConcludedMoves(ViewOf(m), d, result, now);
    move := ConclusionMove(d, result);
  }

  lemma CheckedMoves(m: Manager, now: int) returns (move: Move)
    ensures Enabled(ViewOf(m), move)
    ensures ViewOf(HealthChecked(m, now)) == Moved(ViewOf(m), move)
  {
    var reason := Failure(m.feed.health, now, m.config);
    move := Stay;
    if m.stopping {
    } else if !m.connected {
      if !m.recoveryPending && now - m.connectedAt > CONNECT_TIMEOUT {
        RecoveredMoves(m, "Coinbase connection timeout", Disconnected, now);
        move := Drop(Disconnected);
      }
    } else if reason != "" {
      var c := TimeoutCounted(m, reason);
      assert ViewOf(c) == ViewOf(m);
      RecoveredMoves(c, reason, Stale, now);
      move := if m.recoveryPending then Stay else Drop(Stale);
    } else {
      assert ViewOf(Transitioned(m, m.State(), "", now)) == ViewOf(m);
    }
  }

  lemma StartedMoves(m: Manager, now: int) returns (move: Move)
    ensures Enabled(ViewOf(m), move)
    ensures ViewOf(Started(m, now)) == Moved(ViewOf(m), move)
  {
    move := Stay;
    if m.stopping && !m.terminal {
      BeganMoves(m.(stopping := false), now);
      move := Begin;
    }
  }

  lemma TransportMoves(m: Manager, e: Event, now: int) returns (move: Move)
    requires Linked(ViewOf(m)) && (e.OnConnected? || e.OnMessage? || e.OnError? || e.OnRetry?)
    ensures Enabled(ViewOf(m), move)
    ensures ViewOf(Step(m, e, now)) == Moved(ViewOf(m), move)
  {
    move := Stay;
    match e
    case OnConnected(g) =>
      if Live(m, g) && !m.connected {
        ConnectedMoves(m, now);
        move := Open;
      }
    case OnMessage(g, p, size, mono, pushed) =>
      if Live(m, g) && m.connected {
        move := MessagedMoves(m, p, size, mono, pushed, now);
      }
    case OnError(g, reason) =>
      if Live(m, g) {
        RecoveredMoves(m, reason, Disconnected, now);
        move := Drop(Disconnected);
      }
    case OnRetry(g) =>
      if RetryLive(m, g) {
        BeganMoves(m, now);
        RetryMeansPending(ViewOf(m), g);
        move := Begin;
      }
  }

  lemma ControlMoves(m: Manager, e: Event, now: int) returns (move: Move)
    requires e.Start? || e.Stop? || e.ForceDisconnect? || e.FailTerminally?
    ensures Enabled(ViewOf(m), move)
    ensures ViewOf(Step(m, e, now)) == Moved(ViewOf(m), move)
  {
    match e
    case Start => move := StartedMoves(m, now);
    case Stop =>
      StoppedMoves(m, now);
      move := if m.stopping then Stay else Halt;
    case ForceDisconnect =>
      RecoveredMoves(m, "forced local disconnect", Disconnected, now);
      move := if m.stopping || m.recoveryPending then Stay else Drop(Disconnected);
    case FailTerminally(error) =>
      FailedMoves(m, error, now);
      move := Fail;
  }

  /** Every step of the manager is one enabled move of the link machine. */
  lemma StepMoves(m: Manager, e: Event, now: int) returns (move: Move)
    requires Linked(ViewOf(m))
    ensures Enabled(ViewOf(m), move)
    ensures ViewOf(Step(m, e, now)) == Moved(ViewOf(m), move)
  {
    if e.OnConnected? || e.OnMessage? || e.OnError? || e.OnRetry? {
      move := TransportMoves(m, e, now);
    } else if e.CheckHealth? {
      move := CheckedMoves(m, now);
    } else {
      move := ControlMoves(m, e, now);
    }
  }

  lemma RetryMeansPending(v: View, g: nat)
    requires Linked(v) && exists i :: 0 <= i < |v.schedule| && v.schedule[i].generation == g == v.generation
    ensures v.recoveryPending
  {}
}
