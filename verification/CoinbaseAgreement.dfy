/** Live capture and replay agree: the central promise of docs/session-replay.md for Coinbase. */
module CoinbaseAgreement {
  import opened Base
  import opened Envelope
  import opened Market
  import opened Tape
  import opened CoinbaseFeed
  import opened CoinbaseManager
  import opened CoinbaseReplay
  import opened CoinbaseJournal
  import CoinbaseLink
  import CoinbaseRuns

  // ----- Processing does not depend on health -----

  /** Equal books, trackers and message tallies; the freshness times of live and replay may differ. */
  predicate Alike(f: Feed, g: Feed)
  {
    && f.book == g.book && f.sequence == g.sequence
    && f.health.heartbeats == g.health.heartbeats && f.health.gaps == g.health.gaps
    && f.health.duplicates == g.health.duplicates && f.health.outOfOrder == g.health.outOfOrder
  }

  lemma DispatchedAlike(f: Feed, g: Feed, p: Payload, mono: int)
    requires Alike(f, g)
    ensures var a, b := Dispatched(f, p, mono), Dispatched(g, p, mono);
            a.Threw? == b.Threw? && Alike(a.feed, b.feed) && (a.Done? ==> a.result == b.result)
  {}

  lemma ProcessedAlike(f: Feed, g: Feed, p: Payload, mono: int)
    requires Alike(f, g)
    ensures var a, b := Processed(f, p, mono), Processed(g, p, mono);
            a.Threw? == b.Threw? && Alike(a.feed, b.feed) && (a.Done? ==> a.result == b.result)
  {
    var f', g' := f.(health := f.health.(lastAny := Some(mono))), g.(health := g.health.(lastAny := Some(mono)));
    DispatchedAlike(f', g', p, mono);
    if SequenceOf(p).Some? {
      var n := SequenceOf(p).value;
      DispatchedAlike(f'.(sequence := Followed(f.sequence, n)), g'.(sequence := Followed(g.sequence, n)), p, mono);
    }
  }

  /** The guard of the branch on which the heartbeat parser throws. */
  predicate ReachesMalformedHeartbeat(sequence: Option<nat>, p: Payload)
  {
    && p.Heartbeat? && !p.wellFormed
    && (p.sequence.Some? ==> Observed(sequence, p.sequence.value) in {First, Expected})
  }

  /** Processing throws on exactly the malformed heartbeats that pass the sequence gate. */
  lemma ThrowsExactly(f: Feed, p: Payload, mono: int)
    ensures Processed(f, p, mono).Threw? <==> ReachesMalformedHeartbeat(f.sequence, p)
  {}

  // ----- The simulation relation -----

  /** Replay of the tape so far, against the journal that produced it. A recovery whose transport reason was
      empty is not logged: until the next connection starts, only the levels and tallies are compared. */
  predicate Agrees(j: Journal, s: Replayer)
  {
    && s.results == j.published
    && Alike(s.feed.(book := s.feed.book.(state := j.feed.book.state), sequence := j.feed.sequence), j.feed)
    && (!j.recoveryPending ==> s.feed.book.state == j.feed.book.state && s.feed.sequence == j.feed.sequence)
    && (j.connected ==> s.connection == Some(j.connectionId) || s.lifecycleConnected)
    && (s.connection.Some? ==> s.connection.value <= j.connectionId)
    && (s.lifecycleConnected ==> s.feed.sequence == None)
  }

  lemma MarkedAgrees(j: Journal, s: Replayer, state: BookState, reason: string, recovering: bool)
    requires Agrees(j, s) && (reason == "" ==> recovering)
    ensures var k := Marked(j, state, reason, recovering);
            Agrees(k, if reason == "" then s else AppliedEvent(s, k.tape[|j.tape|].event))
  {}

  lemma OpenedAgrees(j: Journal, s: Replayer, now: int)
    requires Agrees(j, s)
    ensures var k := Opened(j, now);
            k.tape[..|j.tape|] == j.tape && |k.tape| == |j.tape| + 1 && k.tape[|j.tape|].Lifecycle? &&
            Agrees(k, AppliedEvent(s, k.tape[|j.tape|].event))
  {
    MarkedAgrees(j, s, Initializing, "new_connection", false);
  }

  /** The record's connection is the current one, so its boundary leaves book and tracker alone. */
  lemma BoundaryAgrees(j: Journal, s: Replayer, r: Record<Payload>)
    requires Agrees(j, s) && j.connected && !j.recoveryPending && r.connection == j.connectionId
    ensures Alike(Bounded(s, r).feed, j.feed)
    ensures Bounded(s, r).connection == Some(j.connectionId) && Bounded(s, r).results == s.results
  {}

  lemma HandedAgrees(j: Journal, s: Replayer, p: Payload, size: nat, mono: int)
    requires Agrees(j, s) && j.connected && !j.recoveryPending
    ensures var k := Handed(j, p, size, mono, Accepted);
            var item := Recorded(Record(j.nextIndex, j.connectionId, mono, size, p));
            && k.tape == j.tape + [item]
            && (StepItem(s, item).None? <==> ReachesMalformedHeartbeat(j.feed.sequence, p))
            && (StepItem(s, item).Some? ==> Agrees(k, StepItem(s, item).value))
  {
    var r := Record(j.nextIndex, j.connectionId, mono, size, p);
    var b := Bounded(s, r);
    BoundaryAgrees(j, s, r);
    ProcessedAlike(b.feed, j.feed, p, mono);
    ThrowsExactly(j.feed, p, mono);
  }

  // ----- One move -----

  /** Replay of a journal's tape, from a book that starts disconnected. */
  function ReplayOf(j: Journal): (s: Option<Replayer>) { RunTape(Initial(true), j.tape) }

  predicate ThrowsOn(j: Journal, move: Move)
  {
    move.Message? && move.pushed == Accepted && ReachesMalformedHeartbeat(j.feed.sequence, move.payload)
  }

  /** Every received message was accepted by the recording queue. */
  predicate NothingLost(j: Journal) { j.nextIndex == |Records(j.tape)| }

  ghost predicate Simulates(j: Journal, threw: bool)
  {
    NothingLost(j) ==> (ReplayOf(j).None? <==> threw) && (ReplayOf(j).Some? ==> Agrees(j, ReplayOf(j).value))
  }

  lemma MarkedSimulates(j: Journal, threw: bool, state: BookState, reason: string, recovering: bool)
    requires Simulates(j, threw) && (reason == "" ==> recovering)
    ensures Simulates(Marked(j, state, reason, recovering), threw)
  {
    var k := Marked(j, state, reason, recovering);
    if reason != "" {
      var item := k.tape[|j.tape|];
      Appended(j.tape, item);
      FoldOne(StepItem, Initial(true), j.tape, item);
    }
    if ReplayOf(j).Some? && NothingLost(k) {
      MarkedAgrees(j, ReplayOf(j).value, state, reason, recovering);
    }
  }

  lemma FailedSimulates(j: Journal, threw: bool, running: bool)
    requires Simulates(j, threw)
    ensures Simulates(Terminated(j, running), threw)
  {
    var t := j.(terminal := true);
    MarkedSimulates(t, threw, Disconnected, "requested_shutdown", false);
    MarkedSimulates(if running then Marked(t, Disconnected, "requested_shutdown", false) else t, threw,
                    Invalid, "terminal_failure", false);
  }

  lemma OpenedSimulates(j: Journal, threw: bool, now: int)
    requires Simulates(j, threw)
    ensures Simulates(Opened(j, now), threw)
  {
    var k := Opened(j, now);
    var item := k.tape[|j.tape|];
    assert k.tape == j.tape + [item];
    Appended(j.tape, item);
    FoldOne(StepItem, Initial(true), j.tape, item);
    if ReplayOf(j).Some? && NothingLost(k) {
      OpenedAgrees(j, ReplayOf(j).value, now);
    }
  }

  lemma HandedSimulates(j: Journal, threw: bool, p: Payload, size: nat, mono: int)
    requires Simulates(j, threw) && j.connected && !j.recoveryPending
    ensures Simulates(Handed(j, p, size, mono, Accepted), threw || ReachesMalformedHeartbeat(j.feed.sequence, p))
  {
    var k := Handed(j, p, size, mono, Accepted);
    var item := Recorded(Record(j.nextIndex, j.connectionId, mono, size, p));
    Appended(j.tape, item);
    FoldOne(StepItem, Initial(true), j.tape, item);
    if ReplayOf(j).Some? && NothingLost(k) {
      HandedAgrees(j, ReplayOf(j).value, p, size, mono);
    }
  }

  lemma MessageSimulates(j: Journal, threw: bool, move: Move)
    requires Simulates(j, threw) && move.Message? && Enabled(j, move) && CoinbaseJournal.Kept(j)
    ensures Simulates(Moved(j, move), threw || ThrowsOn(j, move))
  {
    var result := ResultOf(j, move.payload, move.mono, move.pushed);
    var i := Intake(j.feed, j.nextIndex, j.received, j.enqueued, j.processed);
    CoinbaseLink.RestoringResult(i, move.payload, move.mono, move.pushed);
    var k := Handed(j, move.payload, move.size, move.mono, move.pushed);
    if move.pushed == Accepted {
      HandedSimulates(j, threw, move.payload, move.size, move.mono);
      if result.error != "" {
        MarkedSimulates(k, threw || ThrowsOn(j, move), Invalid, result.error, true);
      }
    } else {
      LostForGood(k);
    }
  }

  lemma LostForGood(k: Journal)
    requires k.nextIndex > |Records(k.tape)|
    ensures !NothingLost(Terminated(k, true))
  {
    var before := if k.received.Some? then k.received.value + 1 else 0;
    Appended(k.tape, Lifecycle(LifecycleEvent(before, Disconnected, "requested_shutdown")));
    var t := Marked(k.(terminal := true), Disconnected, "requested_shutdown", false);
    Appended(t.tape, Lifecycle(LifecycleEvent(before, Invalid, "terminal_failure")));
  }

  lemma MoveSimulates(j: Journal, threw: bool, move: Move)
    requires Simulates(j, threw) && Enabled(j, move) && CoinbaseJournal.Kept(j)
    ensures Simulates(Moved(j, move), threw || ThrowsOn(j, move))
  {
    match move
    case Keep =>
    case Mark(state, reason, recovering, timeouts) =>
      TimeoutsSimulate(j, threw, timeouts);
      MarkedSimulates(TimeoutsSet(j, timeouts), threw, state, reason, recovering);
    case Open(now) => OpenedSimulates(j, threw, now);
    case Message(p, size, mono, pushed) => MessageSimulates(j, threw, move);
    case Fail(running) => FailedSimulates(j, threw, running);
  }

  lemma TimeoutsSimulate(j: Journal, threw: bool, n: nat)
    requires Simulates(j, threw)
    ensures Simulates(TimeoutsSet(j, n), threw)
  {
    assert TimeoutsSet(j, n).tape == j.tape;
    if ReplayOf(j).Some? && NothingLost(j) {
      assert Agrees(TimeoutsSet(j, n), ReplayOf(j).value);
    }
  }

  // ----- Whole runs -----

  /** The event delivers an accepted message on which the heartbeat parser throws. */
  predicate Throws(m: Manager, e: Event)
  {
    && e.OnMessage? && Live(m, e.generation) && m.connected && e.pushed == Accepted
    && ReachesMalformedHeartbeat(m.feed.sequence, e.payload)
  }

  predicate EverThrows(config: HealthConfig, start: int, events: seq<Timed>)
  {
    events != [] &&
    (EverThrows(config, start, events[..|events| - 1]) ||
     Throws(Run(config, start, events[..|events| - 1]), events[|events| - 1].event))
  }

  lemma StepSimulates(m: Manager, threw: bool, e: Event, now: int)
    requires CoinbaseRuns.Kept(m) && Simulates(JournalOf(m), threw)
    ensures Simulates(JournalOf(Step(m, e, now)), threw || Throws(m, e))
  {
    var move := StepMoves(m, e, now);
    MoveSimulates(JournalOf(m), threw, move);
  }

  lemma {:induction false} RunSimulates(config: HealthConfig, start: int, events: seq<Timed>)
    ensures Simulates(JournalOf(Run(config, start, events)), EverThrows(config, start, events))
  {
    if events != [] {
      var before, e := events[..|events| - 1], events[|events| - 1];
      RunSimulates(config, start, before);
      CoinbaseRuns.RunKeeps(config, start, before);
      StepSimulates(Run(config, start, before), EverThrows(config, start, before), e.event, e.now);
    }
  }

  // ----- Runs that were never started -----

  /** Nothing is logged before the first start or terminal failure, and nothing happens either. */
  predicate Begins(m: Manager)
  {
    if m.tape == [] then m == Init(m.config, m.stateSince) else m.tape[0].Lifecycle?
  }

  lemma TapeGrows(j: Journal, move: Move)
    ensures j.tape <= Moved(j, move).tape
  {
    match move
    case Message(p, size, mono, pushed) => SettledGrows(Handed(j, p, size, mono, pushed), ResultOf(j, p, mono, pushed));
    case _ =>
  }

  lemma SettledGrows(k: Journal, result: Result)
    ensures k.tape <= Settled(k, result).tape
  {}

  lemma StepBegins(m: Manager, e: Event, now: int)
    requires CoinbaseRuns.Kept(m) && Begins(m)
    ensures Begins(Step(m, e, now))
  {
    if m.tape != [] {
      var move := StepMoves(m, e, now);
      TapeGrows(JournalOf(m), move);
      assert Step(m, e, now).tape == JournalOf(Step(m, e, now)).tape;
    }
  }

  lemma {:induction false} RunBegins(config: HealthConfig, start: int, events: seq<Timed>)
    ensures Begins(Run(config, start, events))
  {
    if events != [] {
      var before, e := events[..|events| - 1], events[|events| - 1];
      RunBegins(config, start, before);
      CoinbaseRuns.RunKeeps(config, start, before);
      StepBegins(Run(config, start, before), e.event, e.now);
    }
  }

  lemma BeginsWithLifecycle(m: Manager)
    requires Begins(m)
    ensures Lifecycles(m.tape) != [] <==> m.tape != []
  {
    if m.tape != [] {
      assert m.tape == [m.tape[0]] + m.tape[1..];
      SplitConcat([m.tape[0]], m.tape[1..]);
      OneItem(m.tape[0]);
    }
  }

  // ----- The theorem -----

  /** Replay ended where the live run ended, with the live run's result for every record. */
  predicate Reproduces(s: Replayer, m: Manager)
  {
    && s.results == m.published
    && s.feed.book == m.feed.book && s.feed.sequence == m.feed.sequence
    && s.feed.health.heartbeats == m.feed.health.heartbeats && s.feed.health.gaps == m.feed.health.gaps
    && s.feed.health.duplicates == m.feed.health.duplicates && s.feed.health.outOfOrder == m.feed.health.outOfOrder
  }

  /** Take any run in which no message was lost and no recovery is under way at the end. Replaying its records and
      lifecycle events succeeds and reproduces every result, the book, its sequence, the tracker and the message
      tallies, if and only if something was logged and no accepted message made the heartbeat parser throw. */
  lemma ReplayReproducesRun(config: HealthConfig, start: int, events: seq<Timed>)
    requires var m := Run(config, start, events); m.nextIndex == |Records(m.tape)| && !m.recoveryPending
    ensures var m := Run(config, start, events);
            var replayed := Replayed(Records(m.tape), Lifecycles(m.tape));
            replayed.Some? && Reproduces(replayed.value, m) <==>
            Lifecycles(m.tape) != [] && !EverThrows(config, start, events)
    ensures var m := Run(config, start, events);
            Replayed(Records(m.tape), Lifecycles(m.tape)).None? <==> EverThrows(config, start, events)
  {
    CoinbaseRuns.RunKeeps(config, start, events);
    RunBegins(config, start, events);
    RunSimulates(config, start, events);
    SimulationReproduces(Run(config, start, events), EverThrows(config, start, events));
  }

  lemma SimulationReproduces(m: Manager, threw: bool)
    requires CoinbaseRuns.Kept(m) && Begins(m) && Simulates(JournalOf(m), threw)
    requires NothingLost(JournalOf(m)) && !m.recoveryPending
    ensures var replayed := Replayed(Records(m.tape), Lifecycles(m.tape));
            && (replayed.Some? && Reproduces(replayed.value, m) <==> Lifecycles(m.tape) != [] && !threw)
            && (replayed.None? <==> threw)
  {
    MergeRestoresTape(m.tape);
    BeginsWithLifecycle(m);
    if m.tape == [] {
      assert Replayed(Records(m.tape), Lifecycles(m.tape)) == Some(Initial(false));
    } else {
      assert Replayed(Records(m.tape), Lifecycles(m.tape)) == ReplayOf(JournalOf(m));
    }
  }

  /** A manager that is constructed and never started: the live book is Disconnected, the replayed one Initializing. */
  lemma NeverStartedDiffers(config: HealthConfig, start: int)
    ensures var m := Run(config, start, []);
            && Replayed(Records(m.tape), Lifecycles(m.tape)) == Some(Initial(false))
            && Initial(false).feed.book.state != m.State()
  {}

  const BAD_HEARTBEAT: Payload := Heartbeat(None, false, "invalid heartbeat")

  function ConnectingRun(t: int): (events: seq<Timed>) { [Timed(Start, t), Timed(OnConnected(1), t)] }

  lemma FirstConnection(config: HealthConfig, t: int)
    ensures var m := Run(config, t, ConnectingRun(t));
            && Live(m, 1) && m.connected && !m.recoveryPending && !m.terminal
            && m.published == [] && m.feed.sequence == None
  {
    var events := ConnectingRun(t);
    assert events[..1][..0] == [];
    var m := Started(Init(config, t), t);
    assert Run(config, t, events[..1]) == m && m.connects == [1];
  }

  lemma AbsorbsAndStops(m: Manager, t: int)
    requires m.connected && !m.stopping && !m.recoveryPending && !m.terminal
    requires m.published == [] && m.feed.sequence == None
    ensures var n := Stopped(Messaged(m, BAD_HEARTBEAT, 2, t, Accepted, t), t);
            n.published == [Result(ApplyError, "invalid heartbeat", 0, 0)] && !n.recoveryPending && !n.terminal
  {}

  lemma ThrowsOnTheWay(config: HealthConfig, start: int, events: seq<Timed>, e: Timed, last: Timed)
    requires Throws(Run(config, start, events), e.event)
    ensures EverThrows(config, start, events + [e, last])
    ensures Run(config, start, events + [e, last]) ==
            Step(Step(Run(config, start, events), e.event, e.now), last.event, last.now)
  {
    var all := events + [e, last];
    assert all[..|all| - 1] == events + [e] && (events + [e])[..|events|] == events;
  }

  lemma BadHeartbeatStep(m: Manager, t: int)
    requires Live(m, 1) && m.connected && m.feed.sequence == None
    ensures var e := OnMessage(1, BAD_HEARTBEAT, 2, t, Accepted);
            Throws(m, e) && Step(Step(m, e, t), Stop, t) == Stopped(Messaged(m, BAD_HEARTBEAT, 2, t, Accepted, t), t)
  {}

  /** Connect, receive one malformed heartbeat, stop: the live handler absorbs the heartbeat, replay throws. */
  lemma MalformedHeartbeatDiffers(config: HealthConfig, t: int)
    ensures var events := ConnectingRun(t) + [Timed(OnMessage(1, BAD_HEARTBEAT, 2, t, Accepted), t), Timed(Stop, t)];
            var m := Run(config, t, events);
            && m.published == [Result(ApplyError, "invalid heartbeat", 0, 0)]
            && Replayed(Records(m.tape), Lifecycles(m.tape)).None?
  {
    var e, last := Timed(OnMessage(1, BAD_HEARTBEAT, 2, t, Accepted), t), Timed(Stop, t);
    var connected := Run(config, t, ConnectingRun(t));
    FirstConnection(config, t);
    BadHeartbeatStep(connected, t);
    AbsorbsAndStops(connected, t);
    ThrowsOnTheWay(config, t, ConnectingRun(t), e, last);
    CoinbaseRuns.RunKeeps(config, t, ConnectingRun(t) + [e, last]);
    ReplayReproducesRun(config, t, ConnectingRun(t) + [e, last]);
  }
}
