/** A live Kraken run is a sequence of processor operations, so that everything proved of those holds of its book. */
module KrakenLiveBooks {
  import opened Base
  import opened Envelope
  import opened Market
  import opened Tape
  import opened KrakenProcessor
  import opened KrakenRuns
  import opened KrakenLive

  /** The receive times of the records. */
  function Monos(records: seq<Record<Payload>>): (t: seq<int>)
  {
    if records == [] then [] else Monos(records[..|records| - 1]) + [records[|records| - 1].mono]
  }

  /** The processor is what these operations make of a new one, and they process exactly the records. */
  ghost predicate MadeBy(l: Live, ops: seq<Op>)
  {
    l.processor == After(l.config.depth, ops) && Times(ops) == Monos(Records(l.tape))
  }

  lemma Grown(depth: nat, ops: seq<Op>, op: Op)
    ensures After(depth, ops + [op]) == Done(After(depth, ops), op)
    ensures Times(ops + [op]) == if op.Message? then Times(ops) + [op.mono] else Times(ops)
  {
    assert (ops + [op])[..|ops|] == ops;
  }

  lemma RecoveredBy(l: Live, reason: string, stale: bool, ops: seq<Op>) returns (more: seq<Op>)
    requires MadeBy(l, ops)
    ensures MadeBy(Recovered(l, reason, stale), more)
  {
    more := ops;
    if !l.link.stopping && !l.link.recovering {
      var op := if stale then MarkStale else Disconnect;
      more := ops + [op];
      Grown(l.config.depth, ops, op);
      Appended(l.tape, Lifecycle(LifecycleEvent(l.link.index, if stale then Stale else Disconnected, reason)));
      assert Records(Recovered(l, reason, stale).tape) == Records(l.tape);
    }
  }

  lemma EnteredBy(l: Live, ops: seq<Op>) returns (more: seq<Op>)
    requires MadeBy(l, ops)
    ensures MadeBy(Entered(l), more)
  {
    more := ops;
    if l.link.firstRecord && l.link.seenRecord {
      more := ops + [ResetConnection];
      Grown(l.config.depth, ops, ResetConnection);
    }
  }

  /** Recording and entering commute, as far as the processor is concerned. */
  lemma ProcessedBy(l: Live, m: Payload, size: nat, mono: int, ops: seq<Op>) returns (more: seq<Op>)
    requires MadeBy(l, ops)
    ensures var e := Entered(Recording(l, m, size, mono));
            MadeBy(KrakenLive.Counted(e, Processed(e.processor, m, mono).0), more)
  {
    var entered := EnteredBy(l, ops);
    var op := Op.Message(m, mono);
    more := entered + [op];
    Grown(l.config.depth, entered, op);
    var r := Record(l.link.index, l.link.connection, mono, size, m);
    Appended(l.tape, Recorded(r));
    assert (Records(l.tape) + [r])[..|Records(l.tape)|] == Records(l.tape);
  }

  lemma TakenBy(l: Live, m: Payload, size: nat, mono: int, reason: string, ops: seq<Op>) returns (more: seq<Op>)
    requires MadeBy(l, ops)
    ensures MadeBy(Taken(l, m, size, mono, reason), more)
  {
    var processed := ProcessedBy(l, m, size, mono, ops);
    var e := Entered(Recording(l, m, size, mono));
    more := ConcludedBy(e, Processed(e.processor, m, mono), reason, processed);
  }

  lemma ConcludedBy(e: Live, result: (Processor, bool), reason: string, ops: seq<Op>) returns (more: seq<Op>)
    requires MadeBy(KrakenLive.Counted(e, result.0), ops)
    ensures MadeBy(Concluded(e, result, reason), more)
  {
    more := ops;
    if !result.1 {
      more := RecoveredBy(KrakenLive.Counted(e, result.0), reason, false, ops);
    }
  }

  lemma DoomedBy(l: Live, ops: seq<Op>) returns (more: seq<Op>)
    requires MadeBy(l, ops)
    ensures MadeBy(Doomed(l), more)
  {
    more := ops + [Invalidate];
    Grown(l.config.depth, ops, Invalidate);
  }

  lemma WatchedBy(l: Live, now: int, ops: seq<Op>) returns (more: seq<Op>)
    requires MadeBy(l, ops)
    ensures MadeBy(Watched(Forced(l, now), now), more)
  {
    more := ops;
    if !l.link.recovering && !l.link.forced && Due(l.config.force, now - l.started) {
      more := RecoveredBy(l.(link := l.link.(forced := true)), "forced_disconnect", false, ops);
    }
    var f := Forced(l, now);
    var r := Watched(f, now);
    if r == Recovered(f, "message_timeout", true) {
      more := RecoveredBy(f, "message_timeout", true, more);
    } else if r == Recovered(f, "snapshot_timeout", false) {
      more := RecoveredBy(f, "snapshot_timeout", false, more);
    }
  }

  lemma TickedBy(l: Live, now: int, requested: bool, seen: bool, again: bool, ops: seq<Op>) returns (more: seq<Op>)
    requires MadeBy(l, ops)
    ensures MadeBy(Ticked(l, now, requested, seen, again), more)
  {
    more := ops;
    var i := if seen then Doomed(l) else l;
    if seen {
      more := DoomedBy(l, ops);
    }
    var s := if requested || again || Due(l.config.duration, now - l.started) then Stopped(i) else i;
    var f := if again then s.(link := s.link.(fatal := true)) else s;
    assert MadeBy(f, more);
    if !f.link.stopping {
      more := WatchedBy(f, now, more);
    }
  }

  lemma StepBy(l: Live, e: Event, ops: seq<Op>) returns (more: seq<Op>)
    requires MadeBy(l, ops)
    ensures MadeBy(Step(l, e), more)
  {
    more := ops;
    match e
    case OnMessage(m, size, mono, answer, reason) =>
      if !l.link.stopping {
        if answer == PushResult.Accepted {
          more := TakenBy(l, m, size, mono, reason, ops);
        } else {
          more := DoomedBy(l, ops);
        }
      }
    case OnError(reason) => more := RecoveredBy(l, reason, false, ops);
    case Tick(now, requested, seen, again) => more := TickedBy(l, now, requested, seen, again, ops);
    case _ =>
  }

  lemma {:induction false} RunBy(config: Config, start: int, events: seq<Event>) returns (ops: seq<Op>)
    ensures MadeBy(Run(config, start, events), ops)
  {
    if events == [] {
      ops := [];
    } else {
      var k := |events| - 1;
      var before := RunBy(config, start, events[..k]);
      ops := StepBy(Run(config, start, events[..k]), events[k], before);
    }
  }

  /** In every live run the two books, the stored checksum and the lexemes agree, and the three state times add up to
      the forward steps of the recorded receive times. */
  lemma LiveBooksStayInSync(config: Config, start: int, events: seq<Event>)
    ensures var l := Run(config, start, events);
            InSync(l.processor.store) && TotalTime(l.processor.metrics) == Travelled(Monos(Records(l.tape)))
  {
    var ops := RunBy(config, start, events);
    BooksStayInSync(Run(config, start, events).config.depth, ops);
    StateTimesAddUp(Run(config, start, events).config.depth, ops);
  }
}
