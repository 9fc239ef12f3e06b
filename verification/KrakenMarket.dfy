/** The Kraken runtime's step logic and its replay, with their state updated in place:
    src/pipeline/kraken_runtime.cpp and the Kraken branch of src/session/session.cpp. */
module KrakenMarkets {
  import opened Base
  import opened Envelope
  import opened Market
  import opened Tape
  import opened KrakenProcessor
  import opened KrakenLive
  import CoinbaseManager
  import R = KrakenReplay

  class KrakenMarket {
    const config: Config
    const started: int
    var processor: Processor
    var link: Link
    var tape: seq<TapeItem<Record<Payload>>>

    ghost function Value(): (l: Live)
      reads this
    {
      Live(config, started, link, processor, tape)
    }

    constructor (config: Config, now: int)
      ensures Value() == Init(config, now)
    {
      this.config, started, processor, tape := config, now, New(config.depth), [];
      link := Link(0, 0, false, false, false, true, false, false, now, CoinbaseManager.FIRST_DELAY, false);
    }

    method Stop()
      modifies this
      ensures Value() == Stopped(old(Value()))
    {
      link := link.(stopping := true, connected := false);
    }

    method Recover(reason: string, stale: bool)
      modifies this
      ensures Value() == Recovered(old(Value()), reason, stale)
    {
      if link.stopping || link.recovering {
        return;
      }
      link := link.(recovering := true, connected := false);
      if stale {
        processor := processor.WithState(Stale);
      } else {
        processor := processor.WithState(Disconnected);
      }
      tape := tape + [Lifecycle(LifecycleEvent(link.index, processor.State(), reason))];
      link := link.(delay := CoinbaseManager.NextDelay(link.delay));
    }

    method Connect(now: int)
      modifies this
      ensures Value() == Connecting(old(Value()), now)
    {
      link := link.(recovering := false, firstRecord := true);
      link := link.(connection := link.connection + 1, connectedAt := now);
    }

    method EnterConnection()
      modifies this
      ensures Value() == Entered(old(Value()))
    {
      if link.firstRecord {
        if link.seenRecord {
          processor := Reset(processor);
        }
        link := link.(firstRecord := false, seenRecord := true);
      }
    }

    /** answer is what the recording queue said; reason is the processor's error text, should the message fail. */
    method HandleMessage(m: Payload, size: nat, mono: int, answer: PushResult, reason: string)
      modifies this
      ensures Value() == Messaged(old(Value()), m, size, mono, answer, reason)
    {
      if link.stopping {
        return;
      }
      if answer != PushResult.Accepted {
        link := link.(fatal := true);
        processor := processor.WithState(Invalid);
        Stop();
        return;
      }
      Take(m, size, mono, reason);
    }

    method Take(m: Payload, size: nat, mono: int, reason: string)
      modifies this
      ensures Value() == Taken(old(Value()), m, size, mono, reason)
    {
      tape := tape + [Recorded(Record(link.index, link.connection, mono, size, m))];
      EnterConnection();
      Conclude(Processed(processor, m, mono), reason);
    }

    method Conclude(result: (Processor, bool), reason: string)
      modifies this
      ensures Value() == Concluded(old(Value()), result, reason)
    {
      processor := result.0;
      link := link.(index := link.index + 1);
      if !result.1 {
        Recover(reason, false);
      } else if processor.State() == Valid {
        link := link.(delay := CoinbaseManager.FIRST_DELAY);
      }
    }

    method Watch(now: int)
      modifies this
      ensures Value() == Watched(old(Value()), now)
    {
      if link.connected && !link.recovering {
        var last := if link.firstRecord || processor.lastMessage.None? then link.connectedAt
                    else processor.lastMessage.value;
        if now - last > MESSAGE_TIMEOUT {
          Recover("message_timeout", true);
        } else if processor.State() != Valid && now - link.connectedAt > SNAPSHOT_TIMEOUT {
          Recover("snapshot_timeout", false);
        }
      }
    }

    /** seen and again are what the two reads of the shared status found. */
    method Tick(now: int, requested: bool, seen: bool, again: bool)
      modifies this
      ensures Value() == Ticked(old(Value()), now, requested, seen, again)
    {
      Notice(seen);
      if requested || again || (config.duration != 0 && now - started >= config.duration * SECOND) {
        Stop();
        link := link.(fatal := link.fatal || again);
      }
      if link.stopping {
        return;
      }
      Force(now);
      Watch(now);
    }

    /** A fatal error in the shared status makes the book Invalid. */
    method Notice(seen: bool)
      modifies this
      ensures Value() == if seen then Doomed(old(Value())) else old(Value())
    {
      if seen {
        processor := processor.WithState(Invalid);
        link := link.(fatal := true);
      }
    }

    method Force(now: int)
      modifies this
      ensures Value() == Forced(old(Value()), now)
    {
      if !link.recovering && config.force != 0 && !link.forced && now - started >= config.force * SECOND {
        link := link.(forced := true);
        Recover("forced_disconnect", false);
      }
    }

    /** One event, as transport, timers and startup deliver it. */
    method Dispatch(e: Event)
      modifies this
      ensures Value() == Step(old(Value()), e)
    {
      match e
      case Connect(now) => if !link.stopping { this.Connect(now); }
      case OnConnected(now) => link := link.(connected := true, connectedAt := now);
      case OnMessage(m, size, mono, answer, reason) => HandleMessage(m, size, mono, answer, reason);
      case OnError(reason) => Recover(reason, false);
      case Tick(now, requested, seen, again) => this.Tick(now, requested, seen, again);
      case Halt => Stop();
    }
  }

  // ----- Replay -----

  method ReplayRecord(from: R.Replayer, e: Record<Payload>) returns (r: Option<R.Replayer>)
    ensures r == R.StepItem(from, Recorded(e))
  {
    var s := from;
    if s.connection.Some? && e.connection < s.connection.value {
      return None;
    }
    if s.connection != Some(e.connection) {
      if s.connection.Some? {
        s := s.(processor := Reset(s.processor));
      }
      s := s.(connection := Some(e.connection));
    }
    r := Some(s.(processor := Processed(s.processor, e.payload, e.mono).0));
  }

  /** The replay loop: the events positioned before each record, the connection boundary, the record. */
  method Replay(depth: nat, records: seq<Record<Payload>>, events: seq<LifecycleEvent>) returns (r: Option<R.Replayer>)
    ensures r == R.Replayed(depth, records, events)
  {
    var s := R.Initial(depth);
    var i, k := 0, 0;
    while i < |records|
      invariant 0 <= i <= |records| && 0 <= k <= |events|
      invariant Rest(R.StepItem, s, records, events, i, k) == Rest(R.StepItem, R.Initial(depth), records, events, 0, 0)
      invariant Consumed(records, events, i, k) == Consumed(records, events, 0, 0)
    {
      s, k := ApplyLifecycle(s, records, events, i, k);
      RecordStep(R.StepItem, s, records, events, i, k);
      var next := ReplayRecord(s, records[i]);
      if next.None? {
        return None;
      }
      s := next.value;
      i := i + 1;
    }
    s, k := ApplyLifecycle(s, records, events, i, k);
    AtEnd(R.StepItem, s, records, events, k);
    r := if k == |events| then Some(s) else None;
  }

  method ApplyLifecycle(from: R.Replayer, ghost records: seq<Record<Payload>>, events: seq<LifecycleEvent>, i: nat,
                        k: nat)
    returns (s: R.Replayer, next: nat)
    requires i <= |records| && k <= |events|
    ensures k <= next <= |events| && (next < |events| ==> events[next].before != i)
    ensures Rest(R.StepItem, s, records, events, i, next) == Rest(R.StepItem, from, records, events, i, k)
    ensures Consumed(records, events, i, next) == Consumed(records, events, i, k)
  {
    s, next := from, k;
    while next < |events| && events[next].before == i
      invariant k <= next <= |events|
      invariant Rest(R.StepItem, s, records, events, i, next) == Rest(R.StepItem, from, records, events, i, k)
      invariant Consumed(records, events, i, next) == Consumed(records, events, i, k)
    {
      EventStep(R.StepItem, s, records, events, i, next);
      var named := events[next].state;
      var state := if named == Stale then Stale else if named == Invalid then Invalid else Disconnected;
      s := s.(processor := s.processor.WithState(state));
      next := next + 1;
    }
  }
}
