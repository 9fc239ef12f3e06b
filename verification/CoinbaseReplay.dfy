/** Session replay for Coinbase: the Coinbase branch of sessions::replay in src/session/session.cpp. */
module CoinbaseReplay {
  import opened Base
  import opened Envelope
  import opened Market
  import opened OrderBooks
  import opened Tape
  import opened CoinbaseFeed
  import opened CoinbaseManager

  /** The replay loop's state: the processor's objects, the connection of the last record, whether an
      INITIALIZING event has been applied since, and a result per record. */
  datatype Replayer = Replayer(feed: Feed, connection: Option<nat>, lifecycleConnected: bool, results: seq<Result>)

  /** The book starts DISCONNECTED when there are lifecycle events, and INITIALIZING otherwise. */
  function Initial(hasLifecycle: bool): (s: Replayer)
  {
    var book := NewBook(Venue.Coinbase).(state := if hasLifecycle then Disconnected else Initializing);
    Replayer(Feed(book, None, NEW_HEALTH), None, false, [])
  }

  function AppliedEvent(s: Replayer, e: LifecycleEvent): (r: Replayer)
  {
    s.(feed := s.feed.(book := s.feed.book.(state := e.state), sequence := None),
       lifecycleConnected := s.lifecycleConnected || e.state == Initializing)
  }

  /** A record of another connection: without an INITIALIZING event the boundary is inferred. */
  function Bounded(s: Replayer, r: Record<Payload>): (t: Replayer)
  {
    if s.connection == Some(r.connection) then s
    else
      var state := if s.lifecycleConnected then s.feed.book.state else Initializing;
      s.(feed := s.feed.(book := s.feed.book.(state := state), sequence := None,
                         health := HealthReset(s.feed.health, r.mono)),
         connection := Some(r.connection))
  }

  /** One item; None stands for an exception leaving replay. */
  function StepItem(s: Replayer, item: TapeItem<Record<Payload>>): (r: Option<Replayer>)
  {
    match item
    case Lifecycle(e) => Some(AppliedEvent(s, e))
    case Recorded(record) =>
      var b := Bounded(s, record);
      match Processed(b.feed, record.payload, record.mono)
      case Threw(_, _) => None
      case Done(f, result) => Some(b.(feed := f, lifecycleConnected := false, results := b.results + [result]))
  }

  function RunTape(s: Replayer, t: seq<TapeItem<Record<Payload>>>): (r: Option<Replayer>) { Fold(StepItem, s, t) }

  /** Replaying a complete session. */
  function Replayed(records: seq<Record<Payload>>, events: seq<LifecycleEvent>): (r: Option<Replayer>)
  {
    Played(StepItem, Initial(events != []), records, events)
  }

  // ----- The loop -----

  class Session {
    const book: OrderBook
    const sequence: SequenceTracker
    const health: FeedHealth
    const processor: MessageProcessor
    var connection: Option<nat>
    var lifecycleConnected: bool
    var results: seq<Result>

    ghost predicate Wired()
    {
      processor.book == book && processor.sequence == sequence && processor.health == health
    }

    ghost function Value(): (s: Replayer)
      reads this, book, sequence, health
    {
      Replayer(Feed(book.Value(), sequence.last, health.value), connection, lifecycleConnected, results)
    }

    constructor (hasLifecycle: bool)
      ensures Wired() && Value() == Initial(hasLifecycle)
      ensures fresh(book) && fresh(sequence) && fresh(health)
    {
      var b := new OrderBook(Venue.Coinbase);
      var s := new SequenceTracker();
      var h := new FeedHealth();
      book, sequence, health := b, s, h;
      processor := new MessageProcessor(b, s, h);
      connection, lifecycleConnected, results := None, false, [];
      new;
      if hasLifecycle {
        book.Mark(Disconnected);
      }
    }

    method ApplyEvent(e: LifecycleEvent)
      requires e.state != Valid
      modifies this, book, sequence
      ensures Value() == AppliedEvent(old(Value()), e)
    {
      book.Mark(e.state);
      if e.state == Initializing {
        lifecycleConnected := true;
      }
      sequence.Reset();
    }

    /** Apply the events positioned at record i, from event k on. */
    method ApplyLifecycle(ghost records: seq<Record<Payload>>, events: seq<LifecycleEvent>, i: nat, k: nat)
      returns (next: nat)
      requires AllowedStates(events) && i <= |records| && k <= |events|
      modifies this, book, sequence
      ensures k <= next <= |events| && (next < |events| ==> events[next].before != i)
      ensures Rest(StepItem, Value(), records, events, i, next) == Rest(StepItem, old(Value()), records, events, i, k)
      ensures Consumed(records, events, i, next) == Consumed(records, events, i, k)
    {
      next := k;
      while next < |events| && events[next].before == i
        invariant k <= next <= |events|
        invariant Rest(StepItem, Value(), records, events, i, next) ==
                  Rest(StepItem, old(Value()), records, events, i, k)
        invariant Consumed(records, events, i, next) == Consumed(records, events, i, k)
      {
        EventStep(StepItem, Value(), records, events, i, next);
        ApplyEvent(events[next]);
        next := next + 1;
      }
    }

    method CrossBoundary(r: Record<Payload>)
      modifies this, book, sequence, health
      ensures Value() == Bounded(old(Value()), r)
    {
      if connection != Some(r.connection) {
        if connection.Some? && !lifecycleConnected {
          book.Mark(Disconnected);
        }
        if !lifecycleConnected {
          book.Mark(Resyncing);
          book.Mark(Initializing);
        }
        sequence.Reset();
        health.value := HealthReset(health.value, r.mono);
        connection := Some(r.connection);
      }
    }

    method ProcessRecord(r: Record<Payload>) returns (ok: bool)
      requires Wired()
      modifies this, book, sequence, health
      ensures ok <==> StepItem(old(Value()), Recorded(r)).Some?
      ensures ok ==> Some(Value()) == StepItem(old(Value()), Recorded(r))
    {
      CrossBoundary(r);
      var threw, result := processor.Process(r.payload, r.mono);
      if threw {
        return false;
      }
      lifecycleConnected := false;
      results := results + [result];
      ok := true;
    }

    /** One turn of the loop: the events positioned at record i, then the record. */
    method Advance(records: seq<Record<Payload>>, events: seq<LifecycleEvent>, i: nat, k: nat)
      returns (ok: bool, next: nat)
      requires Wired() && AllowedStates(events) && i < |records| && k <= |events|
      modifies this, book, sequence, health
      ensures next <= |events| && Consumed(records, events, i + 1, next) == Consumed(records, events, i, k)
      ensures ok ==>
                Rest(StepItem, Value(), records, events, i + 1, next) ==
                Rest(StepItem, old(Value()), records, events, i, k)
      ensures !ok ==> Rest(StepItem, old(Value()), records, events, i, k) == None
    {
      next := ApplyLifecycle(records, events, i, k);
      RecordStep(StepItem, Value(), records, events, i, next);
      ok := ProcessRecord(records[i]);
    }

    /** The loop over the records, and the events behind the last one. */
    method Play(records: seq<Record<Payload>>, events: seq<LifecycleEvent>) returns (ok: bool)
      requires Wired() && AllowedStates(events)
      modifies this, book, sequence, health
      ensures ok <==> Played(StepItem, old(Value()), records, events).Some?
      ensures ok ==> Played(StepItem, old(Value()), records, events) == Some(Value())
    {
      ghost var goal, all := Rest(StepItem, Value(), records, events, 0, 0), Consumed(records, events, 0, 0);
      var i, k := 0, 0;
      ok := true;
      while i < |records|
        invariant 0 <= i <= |records| && 0 <= k <= |events|
        invariant Rest(StepItem, Value(), records, events, i, k) == goal && Consumed(records, events, i, k) == all
      {
        ok, k := Advance(records, events, i, k);
        if !ok {
          return;
        }
        i := i + 1;
      }
      k := ApplyLifecycle(records, events, i, k);
      AtEnd(StepItem, Value(), records, events, k);
      ok := k == |events|;
    }
  }

  /** The replay of a complete session, whose lifecycle states have been validated. */
  method Replay(records: seq<Record<Payload>>, events: seq<LifecycleEvent>) returns (ok: bool, s: Session)
    requires AllowedStates(events)
    ensures ok <==> Replayed(records, events).Some?
    ensures ok ==> Replayed(records, events) == Some(s.Value())
  {
    s := new Session(events != []);
    ok := s.Play(records, events);
  }
}
