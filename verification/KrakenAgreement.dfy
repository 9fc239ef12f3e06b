/** Live capture and replay agree for Kraken. */
module KrakenAgreement {
  import opened Base
  import opened Envelope
  import opened Market
  import opened Tape
  import opened KrakenProcessor
  import opened KrakenLive
  import opened KrakenReplay

  /** Replay of the tape so far has the live processor, in every field. */
  predicate Agrees(l: Live, s: Replayer)
  {
    && s.processor == l.processor
    && (s.connection.Some? <==> l.link.seenRecord)
    && (s.connection.Some? ==> s.connection.value <= l.link.connection)
    && (!l.link.firstRecord <==> s.connection == Some(l.link.connection))
  }

  ghost predicate Simulates(l: Live)
  {
    !l.link.fatal ==>
      && Positioned(l.tape) && l.link.index == |Records(l.tape)|
      && var s := RunTape(Initial(l.config.depth), l.tape); s.Some? && Agrees(l, s.value)
  }

  lemma RecoveredSimulates(l: Live, reason: string, stale: bool)
    requires Simulates(l)
    ensures Simulates(Recovered(l, reason, stale))
  {
    if !l.link.stopping && !l.link.recovering {
      var item := Lifecycle(LifecycleEvent(l.link.index, if stale then Stale else Disconnected, reason));
      Appended(l.tape, item);
      FoldOne(StepItem, Initial(l.config.depth), l.tape, item);
    }
  }

  lemma RecordAgrees(l: Live, s: Replayer, r: Record<Payload>)
    requires Agrees(l, s) && r.connection == l.link.connection
    ensures StepItem(s, Recorded(r)).Some?
    ensures Bounded(s, r.connection).processor == Entered(l).processor
    ensures Bounded(s, r.connection).connection == Some(l.link.connection)
  {}

  /** The recorded and entered message, before what follows from its result. */
  lemma EnteredSimulates(l: Live, m: Payload, size: nat, mono: int)
    requires Simulates(l)
    ensures var e := Entered(Recording(l, m, size, mono));
            Simulates(Counted(e, Processed(e.processor, m, mono).0))
  {
    if !l.link.fatal {
      var r := Record(l.link.index, l.link.connection, mono, size, m);
      Appended(l.tape, Recorded(r));
      FoldOne(StepItem, Initial(l.config.depth), l.tape, Recorded(r));
      RecordAgrees(l, RunTape(Initial(l.config.depth), l.tape).value, r);
    }
  }

  lemma ConcludedSimulates(e: Live, result: (Processor, bool), reason: string)
    requires Simulates(Counted(e, result.0))
    ensures Simulates(Concluded(e, result, reason))
  {
    RecoveredSimulates(Counted(e, result.0), reason, false);
  }

  lemma TakenSimulates(l: Live, m: Payload, size: nat, mono: int, reason: string)
    requires Simulates(l)
    ensures Simulates(Taken(l, m, size, mono, reason))
  {
    EnteredSimulates(l, m, size, mono);
    var e := Entered(Recording(l, m, size, mono));
    ConcludedSimulates(e, Processed(e.processor, m, mono), reason);
  }

  lemma WatchedSimulates(l: Live, now: int)
    requires Simulates(l)
    ensures Simulates(Watched(l, now))
  {
    RecoveredSimulates(l, "message_timeout", true);
    RecoveredSimulates(l, "snapshot_timeout", false);
  }

  lemma TickedSimulates(l: Live, now: int, requested: bool, seen: bool, again: bool)
    requires Simulates(l)
    ensures Simulates(Ticked(l, now, requested, seen, again))
  {
    if !seen && !again {
      assert Simulates(Stopped(l));
      assert Simulates(l.(link := l.link.(forced := true)));
      RecoveredSimulates(l.(link := l.link.(forced := true)), "forced_disconnect", false);
      WatchedSimulates(Forced(l, now), now);
    } else {
      StaysFatal(l, now, requested, seen, again);
    }
  }

  lemma StaysFatal(l: Live, now: int, requested: bool, seen: bool, again: bool)
    requires seen || again
    ensures Ticked(l, now, requested, seen, again).link.fatal
  {}

  lemma StepSimulates(l: Live, e: Event)
    requires Simulates(l)
    ensures Simulates(Step(l, e))
  {
    match e
    case Connect(_) =>
    case OnConnected(_) =>
    case OnMessage(m, size, mono, answer, reason) => TakenSimulates(l, m, size, mono, reason);
    case OnError(reason) => RecoveredSimulates(l, reason, false);
    case Tick(now, requested, seen, again) => TickedSimulates(l, now, requested, seen, again);
    case Halt =>
  }

  lemma InitSimulates(config: Config, start: int)
    ensures Simulates(Init(config, start))
  {}

  lemma StepConfig(l: Live, e: Event)
    ensures Step(l, e).config == l.config
  {
    match e
    case OnMessage(m, size, mono, answer, reason) => TakenConfig(l, m, size, mono, reason);
    case _ =>
  }

  lemma TakenConfig(l: Live, m: Payload, size: nat, mono: int, reason: string)
    ensures Taken(l, m, size, mono, reason).config == l.config
  {
    var e := Entered(Recording(l, m, size, mono));
    ConcludedConfig(e, Processed(e.processor, m, mono), reason);
  }

  lemma ConcludedConfig(e: Live, result: (Processor, bool), reason: string)
    ensures Concluded(e, result, reason).config == e.config
  {}

  lemma {:induction false} RunSimulates(config: Config, start: int, events: seq<Event>)
    ensures Simulates(Run(config, start, events)) && Run(config, start, events).config == config
  {
    if events == [] {
      InitSimulates(config, start);
    } else {
      var before, e := events[..|events| - 1], events[|events| - 1];
      RunSimulates(config, start, before);
      StepSimulates(Run(config, start, before), e);
      StepConfig(Run(config, start, before), e);
    }
  }

  /** Every run without a fatal error, whatever the disconnects, timeouts and connections without a record: replaying
      its records and lifecycle log succeeds and ends with the live processor, metrics and state times included. */
  lemma ReplayReproducesRun(config: Config, start: int, events: seq<Event>)
    requires !Run(config, start, events).link.fatal
    ensures var l := Run(config, start, events);
            var s := Replayed(config.depth, Records(l.tape), Lifecycles(l.tape));
            s.Some? && s.value.processor == l.processor
  {
    RunSimulates(config, start, events);
    MergeRestoresTape(Run(config, start, events).tape);
  }
}
