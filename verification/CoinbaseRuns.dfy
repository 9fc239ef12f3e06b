/** What every run of the connection manager keeps, whatever its events, clock readings and queue answers. */
module CoinbaseRuns {
  import opened Base
  import opened Envelope
  import opened Market
  import opened Tape
  import opened CoinbaseFeed
  import opened CoinbaseHistory
  import opened CoinbaseManager
  import opened CoinbaseLink
  import CoinbaseJournal

  ghost predicate Kept(m: Manager)
  {
    Linked(ViewOf(m)) && CoinbaseLink.Counted(ViewOf(m)) && CoinbaseJournal.Kept(CoinbaseJournal.JournalOf(m))
  }

  lemma StepKeeps(m: Manager, e: Event, now: int)
    requires Kept(m)
    ensures Kept(Step(m, e, now))
  {
    var move := StepMoves(m, e, now);
    MoveKeepsLinked(ViewOf(m), move);
    MoveKeepsCounted(ViewOf(m), move);
    var journal := CoinbaseJournal.StepMoves(m, e, now);
    CoinbaseJournal.MoveKeepsJournal(CoinbaseJournal.JournalOf(m), journal);
  }

  lemma {:induction false} RunKeeps(config: HealthConfig, start: int, events: seq<Timed>)
    ensures Kept(Run(config, start, events))
  {
    if events != [] {
      var m := Run(config, start, events[..|events| - 1]);
      RunKeeps(config, start, events[..|events| - 1]);
      StepKeeps(m, events[|events| - 1].event, events[|events| - 1].now);
    }
  }

  // ----- A Valid book -----

  /** The book is served by a live, undisturbed connection and holds exactly the last writes since a snapshot accepted
      on that connection; the accepted sequences since then have no hole. */
  ghost predicate Current(m: Manager)
  {
    var h := CoinbaseJournal.HistoryOf(Records(m.tape), m.published);
    && m.connected && !m.stopping && !m.recoveryPending && !m.terminal
    && SnapshotConnection(h) == Some(m.connectionId)
    && HoldsLastWrites(m.feed.book.sides, ChangesSince(h))
    && SequencesSince(h) != [] && Unbroken(SequencesSince(h))
    && m.feed.sequence == Some(SequencesSince(h)[|SequencesSince(h)| - 1])
    && m.feed.book.lastSequence.Some? && m.feed.book.lastSequence.value <= m.feed.sequence.value
  }

  /** In every run, a Valid book is current. */
  lemma ValidBookIsCurrent(config: HealthConfig, start: int, events: seq<Timed>)
    requires Run(config, start, events).State() == Valid
    ensures Current(Run(config, start, events))
  {
    RunKeeps(config, start, events);
    ValidMeansCurrent(Run(config, start, events));
  }

  lemma ValidMeansCurrent(m: Manager)
    requires Kept(m) && m.State() == Valid
    ensures Current(m)
  {
    assert Descends(m.feed, CoinbaseJournal.HistoryOf(Records(m.tape), m.published), m.connectionId);
  }

  // ----- Generations -----

  /** At most one scheduled retry can still act; it has the current generation, and it exists exactly while a
      recovery is pending. */
  lemma OneLiveRetry(config: HealthConfig, start: int, events: seq<Timed>)
    ensures LiveRetries(Run(config, start, events))
  {
    RunKeeps(config, start, events);
    OneLiveRetryAt(Run(config, start, events));
  }

  ghost predicate LiveRetries(m: Manager)
  {
    && (m.recoveryPending <==> exists i :: 0 <= i < |m.schedule| && RetryLive(m, m.schedule[i].generation))
    && (forall i, j :: 0 <= i < j < |m.schedule| ==>
          !(RetryLive(m, m.schedule[i].generation) && RetryLive(m, m.schedule[j].generation)))
  }

  lemma OneLiveRetryAt(m: Manager)
    requires Linked(ViewOf(m))
    ensures LiveRetries(m)
  {
    var v := ViewOf(m);
    if m.recoveryPending {
      assert v.schedule[|v.schedule| - 1].generation == m.generation;
      assert RetryLive(m, m.schedule[|m.schedule| - 1].generation);
    }
    if i :| 0 <= i < |m.schedule| && RetryLive(m, m.schedule[i].generation) {
      RetryMeansPending(v, m.schedule[i].generation);
    }
    forall i, j | 0 <= i < j < |m.schedule|
      ensures !(RetryLive(m, m.schedule[i].generation) && RetryLive(m, m.schedule[j].generation))
    {
      assert v.schedule[i].generation < v.schedule[j].generation;
    }
  }

  /** A generation that has passed: no connect or retry carrying it can be live. */
  predicate Over(v: View, g: nat)
  {
    g < v.generation || (g == v.generation && v.stopping)
  }

  lemma MoveKeepsOver(v: View, move: Move, g: nat)
    requires Linked(v) && Enabled(v, move) && Over(v, g)
    ensures Over(Moved(v, move), g)
  {}

  lemma {:induction false} OverStaysOver(config: HealthConfig, start: int, events: seq<Timed>, more: seq<Timed>, g: nat)
    requires Over(ViewOf(Run(config, start, events)), g)
    ensures Over(ViewOf(Run(config, start, events + more)), g)
  {
    if more == [] {
      assert events + more == events;
    } else {
      var k := |more| - 1;
      assert (events + more)[..|events + more| - 1] == events + more[..k];
      OverStaysOver(config, start, events, more[..k], g);
      LastKeepsOver(config, start, events + more, g);
    }
  }

  lemma LastKeepsOver(config: HealthConfig, start: int, events: seq<Timed>, g: nat)
    requires events != [] && Over(ViewOf(Run(config, start, events[..|events| - 1])), g)
    ensures Over(ViewOf(Run(config, start, events)), g)
  {
    var before, e := events[..|events| - 1], events[|events| - 1];
    RunKeeps(config, start, before);
    StepKeepsOver(Run(config, start, before), e.event, e.now, g);
  }

  lemma StepKeepsOver(m: Manager, e: Event, now: int, g: nat)
    requires Linked(ViewOf(m)) && Over(ViewOf(m), g)
    ensures Over(ViewOf(Step(m, e, now)), g)
  {
    var move := StepMoves(m, e, now);
    MoveKeepsOver(ViewOf(m), move, g);
  }

  /** Once a generation is over, its transport callbacks and its retry never change anything again. */
  lemma OldGenerationsStayDead(config: HealthConfig, start: int, events: seq<Timed>, more: seq<Timed>, e: Event,
                               now: int)
    requires e.OnConnected? || e.OnMessage? || e.OnError? || e.OnRetry?
    requires Over(ViewOf(Run(config, start, events)), e.generation)
    ensures Step(Run(config, start, events + more), e, now) == Run(config, start, events + more)
  {
    OverStaysOver(config, start, events, more, e.generation);
    IgnoresOver(Run(config, start, events + more), e, now);
  }

  lemma IgnoresOver(m: Manager, e: Event, now: int)
    requires e.OnConnected? || e.OnMessage? || e.OnError? || e.OnRetry?
    requires Over(ViewOf(m), e.generation)
    ensures Step(m, e, now) == m
  {}

  lemma MoveKeepsTerminal(v: View, move: Move)
    requires Linked(v) && Enabled(v, move) && v.terminal
    ensures Moved(v, move) == v
  {}

  /** A terminal failure is absorbing: the book stays Invalid, and nothing is connected or scheduled again. */
  lemma {:induction false} TerminalIsAbsorbing(config: HealthConfig, start: int, events: seq<Timed>, more: seq<Timed>)
    requires Run(config, start, events).terminal
    ensures ViewOf(Run(config, start, events + more)) == ViewOf(Run(config, start, events))
    ensures Run(config, start, events + more).State() == Invalid
  {
    RunKeeps(config, start, events);
    if more == [] {
      assert events + more == events;
    } else {
      var k := |more| - 1;
      assert (events + more)[..|events + more| - 1] == events + more[..k];
      TerminalIsAbsorbing(config, start, events, more[..k]);
      RunKeeps(config, start, events + more[..k]);
      var m := Run(config, start, events + more[..k]);
      var move := StepMoves(m, more[k].event, more[k].now);
      MoveKeepsTerminal(ViewOf(m), move);
    }
    assert ViewOf(Run(config, start, events + more)).state == Invalid;
  }

  // ----- Counters and backoff -----

  /** Connection ids count successes, which never outnumber starts; every recovery schedules one attempt, and
      never more recoveries are completed than begun. */
  lemma CountersAgree(config: HealthConfig, start: int, events: seq<Timed>)
    ensures var m := Run(config, start, events);
            && m.connectionId == m.metrics.connectionsSucceeded <= m.metrics.connectionsStarted == |m.connects|
            && m.metrics.recoverySuccesses <= m.metrics.recoveryCount == m.metrics.reconnectAttempts == |m.schedule|
  {
    RunKeeps(config, start, events);
    CountersAt(Run(config, start, events));
  }

  lemma CountersAt(m: Manager)
    requires CoinbaseLink.Counted(ViewOf(m))
    ensures m.connectionId == m.metrics.connectionsSucceeded <= m.metrics.connectionsStarted == |m.connects|
    ensures m.metrics.recoverySuccesses <= m.metrics.recoveryCount == m.metrics.reconnectAttempts == |m.schedule|
  {}

  function Doubled(k: nat): (n: nat) { if k == 0 then 1 else 2 * Doubled(k - 1) }

  /** min(250 * 2^k, 10000) milliseconds. */
  function Backoff(k: nat): (d: nat)
  {
    if FIRST_DELAY * Doubled(k) < LONGEST_DELAY then FIRST_DELAY * Doubled(k) else LONGEST_DELAY
  }

  lemma BackoffDoubles(k: nat)
    ensures Backoff(k + 1) == NextDelay(Backoff(k))
  {}

  /** Retries scheduled since the book last became Valid. */
  function RetriesSince(config: HealthConfig, start: int, events: seq<Timed>): (k: nat)
  {
    if events == [] then 0
    else
      var before := Run(config, start, events[..|events| - 1]);
      var after := Run(config, start, events);
      RetriesAfter(before, after, RetriesSince(config, start, events[..|events| - 1]))
  }

  /** A book that becomes Valid starts the count anew; a scheduled retry counts. */
  function RetriesAfter(m: Manager, n: Manager, k: nat): (r: nat)
  {
    if m.State() != Valid && n.State() == Valid then 0 else if |n.schedule| > |m.schedule| then k + 1 else k
  }

  /** The next retry waits as long as the number of retries since the last restoring snapshot says. */
  predicate Paced(v: View, k: nat) { v.delay == Backoff(k) }

  lemma MovePaces(v: View, move: Move, k: nat)
    requires Linked(v) && Enabled(v, move) && Paced(v, k)
    ensures var w := Moved(v, move);
            && Paced(w, if v.state != Valid && w.state == Valid then 0
                        else if |w.schedule| > |v.schedule| then k + 1 else k)
            && (|w.schedule| > |v.schedule| ==> w.schedule == v.schedule + [Retry(w.generation, Backoff(k))])
  {
    BackoffDoubles(k);
  }

  lemma {:induction false} DelayFollowsRetries(config: HealthConfig, start: int, events: seq<Timed>)
    ensures Run(config, start, events).delay == Backoff(RetriesSince(config, start, events))
  {
    if events != [] {
      DelayFollowsRetries(config, start, events[..|events| - 1]);
      RunPaces(config, start, events);
    }
  }

  lemma RunPaces(config: HealthConfig, start: int, events: seq<Timed>)
    requires events != []
    requires var before := events[..|events| - 1];
             Run(config, start, before).delay == Backoff(RetriesSince(config, start, before))
    ensures Run(config, start, events).delay == Backoff(RetriesSince(config, start, events))
  {
    var before, e := events[..|events| - 1], events[|events| - 1];
    RunKeeps(config, start, before);
    StepPaces(Run(config, start, before), e.event, e.now, RetriesSince(config, start, before));
  }

  /** The k-th retry since the last restoring snapshot, counted from zero, waits min(250 * 2^k, 10000) ms. */
  lemma RetriesBackOff(config: HealthConfig, start: int, events: seq<Timed>, e: Timed)
    ensures var before, after := Run(config, start, events), Run(config, start, events + [e]);
            |after.schedule| > |before.schedule| ==>
              after.schedule == before.schedule +
                [Retry(after.generation, Backoff(RetriesSince(config, start, events)))]
  {
    DelayFollowsRetries(config, start, events);
    RunKeeps(config, start, events);
    StepPaces(Run(config, start, events), e.event, e.now, RetriesSince(config, start, events));
    assert (events + [e])[..|events|] == events;
  }

  lemma StepPaces(m: Manager, e: Event, now: int, k: nat)
    requires Linked(ViewOf(m)) && m.delay == Backoff(k)
    ensures var n := Step(m, e, now);
            && n.delay == Backoff(RetriesAfter(m, n, k))
            && (|n.schedule| > |m.schedule| ==> n.schedule == m.schedule + [Retry(n.generation, Backoff(k))])
  {
    var move := StepMoves(m, e, now);
    MovePaces(ViewOf(m), move, k);
    assert Step(m, e, now).delay == ViewOf(Step(m, e, now)).delay;
  }

  // ----- Time in each state -----

  /** The part of a manager that measures time. */
  datatype Clock = Clock(state: BookState, since: int, valid: int, stale: int, invalid: int)

  function ClockOf(m: Manager): (c: Clock)
  {
    Clock(m.State(), m.stateSince, m.metrics.validTime, m.metrics.staleTime, m.metrics.invalidTime)
  }

  predicate Tracked(s: BookState) { s in {Valid, Stale, Invalid} }

  /** The metric of a state at time t, with the part not yet accounted. */
  function Elapsed(c: Clock, s: BookState, t: int): (d: int)
  {
    (if s == Valid then c.valid else if s == Stale then c.stale else c.invalid) +
    if c.state == s then t - c.since else 0
  }

  function TimeIn(m: Manager, s: BookState, t: int): (d: int) { Elapsed(ClockOf(m), s, t) }

  /** Account the time in the current state, then enter another one. */
  function Turned(c: Clock, to: BookState, now: int): (r: Clock)
  {
    var d := now - c.since;
    Clock(to, now, if c.state == Valid then c.valid + d else c.valid,
          if c.state == Stale then c.stale + d else c.stale, if c.state == Invalid then c.invalid + d else c.invalid)
  }

  lemma TurningTakesNoTime(c: Clock, to: BookState, now: int, s: BookState)
    requires Tracked(s)
    ensures Elapsed(Turned(c, to, now), s, now) == Elapsed(c, s, now)
  {}

  lemma TransitionedClock(m: Manager, state: BookState, reason: string, now: int)
    ensures ClockOf(Transitioned(m, state, reason, now)) ==
            Turned(ClockOf(m), if state == Valid then m.State() else state, now)
  {}

  lemma TransitionedTime(m: Manager, state: BookState, reason: string, now: int, s: BookState)
    requires Tracked(s)
    ensures TimeIn(Transitioned(m, state, reason, now), s, now) == TimeIn(m, s, now)
  {
    TransitionedClock(m, state, reason, now);
    TurningTakesNoTime(ClockOf(m), if state == Valid then m.State() else state, now, s);
  }

  lemma DeliveredTime(m: Manager, p: Payload, size: nat, mono: int, pushed: PushResult, now: int, s: BookState)
    requires Tracked(s)
    ensures TimeIn(Delivered(m, p, size, mono, pushed, now), s, now) == TimeIn(m, s, now)
  {
    var d := Delivered(m, p, size, mono, pushed, now);
    assert ClockOf(d) == if d.State() == m.State() then ClockOf(m) else Turned(ClockOf(m), d.State(), now);
    TurningTakesNoTime(ClockOf(m), d.State(), now, s);
  }

  lemma RecoveredTime(m: Manager, reason: string, state: BookState, now: int, s: BookState)
    requires Tracked(s)
    ensures TimeIn(Recovered(m, reason, state, now), s, now) == TimeIn(m, s, now)
  {
    if !m.stopping && !m.recoveryPending {
      AbandonedTime(m, reason, state, now, s);
      RescheduledTime(Abandoned(m, reason, state, now), reason, now);
    }
  }

  lemma AbandonedClock(m: Manager, reason: string, state: BookState, now: int)
    ensures ClockOf(Abandoned(m, reason, state, now)) ==
            Turned(ClockOf(m), if state == Valid then m.State() else state, now)
  {}

  lemma AbandonedTime(m: Manager, reason: string, state: BookState, now: int, s: BookState)
    requires Tracked(s)
    ensures TimeIn(Abandoned(m, reason, state, now), s, now) == TimeIn(m, s, now)
  {
    AbandonedClock(m, reason, state, now);
    TurningTakesNoTime(ClockOf(m), if state == Valid then m.State() else state, now, s);
  }

  lemma RescheduledTime(m: Manager, reason: string, now: int)
    ensures ClockOf(Rescheduled(m, reason, now)) == ClockOf(m)
  {}

  lemma StoppedTime(m: Manager, now: int, s: BookState)
    requires Tracked(s)
    ensures TimeIn(Stopped(m, now), s, now) == TimeIn(m, s, now)
  {}

  lemma FailedTime(m: Manager, error: string, now: int, s: BookState)
    requires Tracked(s)
    ensures TimeIn(TerminallyFailed(m, error, now), s, now) == TimeIn(m, s, now)
  {
    StoppedTime(m.(terminal := true), now, s);
  }

  lemma ConcludedTime(d: Manager, previous: BookState, result: Result, now: int, s: BookState)
    requires Tracked(s)
    ensures TimeIn(Concluded(d, previous, result, now), s, now) == TimeIn(d, s, now)
  {
    if result.outcome == RecordingRejected {
      FailedTime(d, result.error, now, s);
    } else if result.error != "" {
      FaultedTime(d, result.error, now, s);
    } else {
      CountedTime(d, previous, result, now);
    }
  }

  lemma FaultedTime(d: Manager, error: string, now: int, s: BookState)
    requires Tracked(s)
    ensures TimeIn(Faulted(d, error, now), s, now) == TimeIn(d, s, now)
  {
    assert ClockOf(EarlyUpdateCounted(d, error)) == ClockOf(d);
    RecoveredTime(EarlyUpdateCounted(d, error), error, Invalid, now, s);
  }

  lemma CountedTime(d: Manager, previous: BookState, result: Result, now: int)
    ensures ClockOf(CoinbaseManager.Counted(d, previous, result, now)) == ClockOf(d)
  {}

  /** Handling an event takes no time: at its own clock reading it changes no state's total. */
  lemma StepTime(m: Manager, e: Event, now: int, s: BookState)
    requires Tracked(s)
    ensures TimeIn(Step(m, e, now), s, now) == TimeIn(m, s, now)
  {
    match e
    case OnMessage(g, p, size, mono, pushed) =>
      if Live(m, g) && m.connected {
        MessagedTime(m, p, size, mono, pushed, now, s);
      }
    case Start => StartedTime(m, now, s);
    case OnConnected(g) =>
      if Live(m, g) && !m.connected {
        ConnectedTime(m, now, s);
      }
    case OnRetry(g) =>
      if RetryLive(m, g) {
        BeganTime(m, now, s);
      }
    case OnError(g, reason) => RecoveredTime(m, reason, Disconnected, now, s);
    case CheckHealth => CheckedTime(m, now, s);
    case ForceDisconnect => RecoveredTime(m, "forced local disconnect", Disconnected, now, s);
    case FailTerminally(error) => FailedTime(m, error, now, s);
    case Stop => StoppedTime(m, now, s);
  }

  lemma MessagedTime(m: Manager, p: Payload, size: nat, mono: int, pushed: PushResult, now: int, s: BookState)
    requires Tracked(s)
    ensures TimeIn(Messaged(m, p, size, mono, pushed, now), s, now) == TimeIn(m, s, now)
  {
    DeliveredTime(m, p, size, mono, pushed, now, s);
    ConcludedTime(Delivered(m, p, size, mono, pushed, now), m.State(), Handled(m.Intake(), p, mono, pushed).1, now, s);
  }

  lemma BeganTime(m: Manager, now: int, s: BookState)
    requires Tracked(s)
    ensures TimeIn(Began(m, now), s, now) == TimeIn(m, s, now)
  {}

  lemma StartedTime(m: Manager, now: int, s: BookState)
    requires Tracked(s)
    ensures TimeIn(Started(m, now), s, now) == TimeIn(m, s, now)
  {
    BeganTime(m.(stopping := false), now, s);
  }

  lemma ConnectedTime(m: Manager, now: int, s: BookState)
    requires Tracked(s)
    ensures TimeIn(Connected(m, now), s, now) == TimeIn(m, s, now)
  {}

  lemma CheckedTime(m: Manager, now: int, s: BookState)
    requires Tracked(s)
    ensures TimeIn(HealthChecked(m, now), s, now) == TimeIn(m, s, now)
  {
    var reason := Failure(m.feed.health, now, m.config);
    assert ClockOf(TimeoutCounted(m, reason)) == ClockOf(m);
    TransitionedTime(m, m.State(), "", now, s);
    RecoveredTime(m, "Coinbase connection timeout", Disconnected, now, s);
    RecoveredTime(TimeoutCounted(m, reason), reason, Stale, now, s);
  }

  function LastClock(start: int, events: seq<Timed>): (t: int)
  {
    if events == [] then start else events[|events| - 1].now
  }

  /** The total time between events during which the book was in state s. */
  function TimeSpent(config: HealthConfig, start: int, events: seq<Timed>, s: BookState): (t: int)
  {
    if events == [] then 0
    else
      var before := events[..|events| - 1];
      TimeSpent(config, start, before, s) +
      if Run(config, start, before).State() == s then events[|events| - 1].now - LastClock(start, before) else 0
  }

  /** Over every run, each accumulated time plus its open interval is the time the book spent in that state. */
  lemma {:induction false} TimesAreTimeSpent(config: HealthConfig, start: int, events: seq<Timed>, s: BookState)
    requires Tracked(s)
    ensures TimeIn(Run(config, start, events), s, LastClock(start, events)) == TimeSpent(config, start, events, s)
  {
    if events != [] {
      var before, e := events[..|events| - 1], events[|events| - 1];
      TimesAreTimeSpent(config, start, before, s);
      StepTime(Run(config, start, before), e.event, e.now, s);
    }
  }
}
