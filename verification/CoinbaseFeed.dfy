/** Sequence tracking, feed health and message processing for Coinbase: src/core/sequence_tracker.cpp,
    src/adapters/coinbase/coinbase_feed_health.cpp and src/adapters/coinbase/coinbase_message_handler.cpp. */
module CoinbaseFeed {
  import opened Base
  import opened Envelope
  import opened Market
  import opened OrderBooks

  // ----- Envelope sequences -----

  datatype SequenceResult = First | Expected | Duplicate | OutOfOrder | Gap

  function Observed(last: Option<nat>, sequence: nat): (r: SequenceResult)
  {
    if last.None? then First
    else if sequence == last.value then Duplicate
    else if sequence < last.value then OutOfOrder
    else if sequence == last.value + 1 then Expected
    else Gap
  }

  /** The tracker follows exactly the sequences that continue it. */
  function Followed(last: Option<nat>, sequence: nat): (r: Option<nat>)
  {
    if Observed(last, sequence) in {First, Expected} then Some(sequence) else last
  }

  class SequenceTracker {
    var last: Option<nat>

    constructor ()
      ensures last == None
    {
      last := None;
    }

    method Observe(sequence: nat) returns (r: SequenceResult)
      modifies this
      ensures r == Observed(old(last), sequence)
      ensures last == Followed(old(last), sequence)
    {
      if last.None? {
        last := Some(sequence);
        return First;
      }
      if sequence == last.value {
        return Duplicate;
      }
      if sequence < last.value {
        return OutOfOrder;
      }
      if sequence - last.value != 1 {
        return Gap;
      }
      last := Some(sequence);
      r := Expected;
    }

    method Reset()
      modifies this
      ensures last == None
    {
      last := None;
    }
  }

  // ----- Health -----

  datatype Health = Health(
    connectedAt: int,
    lastAny: Option<int>, lastHeartbeat: Option<int>, lastL2: Option<int>,
    heartbeats: nat, heartbeatTimeouts: nat, gaps: nat, duplicates: nat, outOfOrder: nat)

  const NEW_HEALTH: Health := Health(0, None, None, None, 0, 0, 0, 0, 0)

  function HealthReset(h: Health, now: int): (r: Health)
  {
    h.(connectedAt := now, lastAny := None, lastHeartbeat := None, lastL2 := None)
  }

  datatype HealthConfig = HealthConfig(checkInterval: int, maxAny: int, maxHeartbeat: int, maxInstrument: Option<int>)

  predicate PositiveIntervals(c: HealthConfig)
  {
    c.checkInterval > 0 && c.maxAny > 0 && c.maxHeartbeat > 0 && (c.maxInstrument.Some? ==> c.maxInstrument.value > 0)
  }

  predicate Expired(last: Option<int>, connectedAt: int, now: int, limit: int)
  {
    now - (if last.Some? then last.value else connectedAt) > limit
  }

  /** The reason a connection is unhealthy; empty when it is healthy. */
  function Failure(h: Health, now: int, c: HealthConfig): (reason: string)
  {
    if Expired(h.lastAny, h.connectedAt, now, c.maxAny) then "No Coinbase messages"
    else if Expired(h.lastHeartbeat, h.connectedAt, now, c.maxHeartbeat) then "Coinbase heartbeat timeout"
    else if c.maxInstrument.Some? && Expired(h.lastL2, h.connectedAt, now, c.maxInstrument.value)
      then "Coinbase instrument timeout"
    else ""
  }

  // ----- Parsed messages -----

  /** One L2 event as the parser delivers it; venue and envelope sequence are the parser's. */
  datatype L2Item = L2Item(snapshot: bool, levels: seq<BookLevel>)

  datatype Payload =
    | Malformed(error: string)
    | Heartbeat(sequence: Option<nat>, wellFormed: bool, error: string)
    | Control(sequence: Option<nat>)
    | L2(number: nat, items: seq<L2Item>)

  function SequenceOf(p: Payload): (s: Option<nat>)
  {
    match p
    case Malformed(_) => None
    case Heartbeat(s, _, _) => s
    case Control(s) => s
    case L2(n, _) => Some(n)
  }

  function EventOf(item: L2Item, number: nat): (e: MarketEvent)
  {
    if item.snapshot then Snapshot(Venue.Coinbase, item.levels, Some(number))
    else Update(Venue.Coinbase, item.levels, Some(number))
  }

  function EventsOf(items: seq<L2Item>, number: nat): (es: seq<MarketEvent>)
    ensures |es| == |items| && forall i :: 0 <= i < |items| ==> es[i] == EventOf(items[i], number)
  {
    seq(|items|, i requires 0 <= i < |items| => EventOf(items[i], number))
  }

  function SnapshotCount(items: seq<L2Item>): (n: nat)
  {
    if items == [] then 0 else SnapshotCount(items[..|items| - 1]) + if items[|items| - 1].snapshot then 1 else 0
  }

  datatype Outcome =
    | BookUpdated | Ignored | DuplicateMessage | OutOfOrderMessage | SequenceGap | ParseError
    | RecordingRejected | ApplyError

  datatype Result = Result(outcome: Outcome, error: string, snapshots: nat, updates: nat)

  const IGNORED: Result := Result(Ignored, "", 0, 0)

  /** The three objects a processor refers to. */
  datatype Feed = Feed(book: Book, sequence: Option<nat>, health: Health)

  /** Processing returns a result or throws out of the heartbeat parser. */
  datatype Processing = Done(feed: Feed, result: Result) | Threw(feed: Feed, error: string)

  function Failed(f: Feed, outcome: Outcome, error: string): (p: Processing)
  {
    Done(f.(book := f.book.(state := Invalid)), Result(outcome, error, 0, 0))
  }

  const BEFORE_SNAPSHOT: string := "L2 update before snapshot"

  /** Application of an L2 envelope whose sequence continues the tracker. */
  function AppliedL2(f: Feed, number: nat, items: seq<L2Item>): (p: Processing)
  {
    if f.book.state != Valid && (items == [] || !items[0].snapshot) then Failed(f, ApplyError, BEFORE_SNAPSHOT)
    else if items == [] then Done(f, IGNORED)
    else
      match AllApplied(f.book, EventsOf(items, number))
      case None => Failed(f, ApplyError, "book rejected event")
      case Some(b) =>
        var n := SnapshotCount(items);
        SnapshotsAtMost(items);
        Done(f.(book := b), Result(BookUpdated, "", n, |items| - n))
  }

  lemma {:induction false} SnapshotsAtMost(items: seq<L2Item>)
    ensures SnapshotCount(items) <= |items|
  {
    if items != [] {
      SnapshotsAtMost(items[..|items| - 1]);
    }
  }

  /** A message past the sequence gate. */
  function Dispatched(f: Feed, p: Payload, mono: int): (r: Processing)
  {
    match p
    case Malformed(error) => Failed(f, ParseError, error)
    case Heartbeat(_, wellFormed, error) =>
      if !wellFormed then Threw(f, error)
      else Done(f.(health := f.health.(lastHeartbeat := Some(mono), heartbeats := f.health.heartbeats + 1)), IGNORED)
    case Control(_) => Done(f, IGNORED)
    case L2(number, items) => AppliedL2(f.(health := f.health.(lastL2 := Some(mono))), number, items)
  }

  /** One recorded message through the processor shared by live capture and replay. */
  function Processed(before: Feed, p: Payload, mono: int): (r: Processing)
  {
    var f := before.(health := before.health.(lastAny := Some(mono)));
    if p.Malformed? || SequenceOf(p).None? then Dispatched(f, p, mono)
    else
      var n := SequenceOf(p).value;
      var g := f.(sequence := Followed(f.sequence, n));
      match Observed(f.sequence, n)
      case Duplicate =>
        Done(g.(health := g.health.(duplicates := g.health.duplicates + 1)), Result(DuplicateMessage, "", 0, 0))
      case OutOfOrder =>
        Done(g.(health := g.health.(outOfOrder := g.health.outOfOrder + 1)), Result(OutOfOrderMessage, "", 0, 0))
      case Gap =>
        Failed(g.(health := g.health.(gaps := g.health.gaps + 1)), SequenceGap, "Coinbase envelope sequence gap")
      case _ => Dispatched(g, p, mono)
  }

  class FeedHealth {
    var value: Health

    constructor ()
      ensures value == NEW_HEALTH
    {
      value := NEW_HEALTH;
    }
  }

  class MessageProcessor {
    const book: OrderBook
    const sequence: SequenceTracker
    const health: FeedHealth

    constructor (book: OrderBook, sequence: SequenceTracker, health: FeedHealth)
      ensures this.book == book && this.sequence == sequence && this.health == health
    {
      this.book, this.sequence, this.health := book, sequence, health;
    }

    ghost function Value(): (f: Feed)
      reads this, book, sequence, health
    {
      Feed(book.Value(), sequence.last, health.value)
    }

    method Fail(outcome: Outcome, error: string) returns (r: Result)
      modifies book
      ensures Done(Value(), r) == Failed(old(Value()), outcome, error)
    {
      book.Mark(Invalid);
      r := Result(outcome, error, 0, 0);
    }

    /** The processing steps of the source; threw stands for an exception leaving the heartbeat parser. */
    method Process(p: Payload, mono: int) returns (threw: bool, r: Result)
      modifies book, sequence, health
      ensures threw <==> Processed(old(Value()), p, mono).Threw?
      ensures Processed(old(Value()), p, mono) == if threw then Threw(Value(), r.error) else Done(Value(), r)
    {
      threw, r := false, IGNORED;
      health.value := health.value.(lastAny := Some(mono));
      if p.Malformed? {
        r := Fail(ParseError, p.error);
        return;
      }
      if SequenceOf(p).Some? {
        var observed := sequence.Observe(SequenceOf(p).value);
        match observed {
          case Duplicate =>
            health.value := health.value.(duplicates := health.value.duplicates + 1);
            r := r.(outcome := DuplicateMessage);
            return;
          case OutOfOrder =>
            health.value := health.value.(outOfOrder := health.value.outOfOrder + 1);
            r := r.(outcome := OutOfOrderMessage);
            return;
          case Gap =>
            health.value := health.value.(gaps := health.value.gaps + 1);
            r := Fail(SequenceGap, "Coinbase envelope sequence gap");
            return;
          case _ =>
        }
      }
      if p.Heartbeat? {
        if !p.wellFormed {
          threw, r := true, r.(error := p.error);
          return;
        }
        health.value := health.value.(lastHeartbeat := Some(mono), heartbeats := health.value.heartbeats + 1);
        return;
      }
      if p.Control? {
        return;
      }
      health.value := health.value.(lastL2 := Some(mono));
      r := ApplyL2(p.number, p.items);
    }

    method ApplyL2(number: nat, items: seq<L2Item>) returns (r: Result)
      modifies book
      ensures Done(Value(), r) == AppliedL2(old(Value()), number, items)
    {
      if book.state != Valid && (items == [] || !items[0].snapshot) {
        r := Fail(ApplyError, BEFORE_SNAPSHOT);
        return;
      }
      if items == [] {
        return IGNORED;
      }
      var ok := book.ApplyEvents(EventsOf(items, number));
      if !ok {
        r := Fail(ApplyError, "book rejected event");
        return;
      }
      var snapshots, updates := CountItems(items);
      r := Result(BookUpdated, "", snapshots, updates);
    }
  }

  method CountItems(items: seq<L2Item>) returns (snapshots: nat, updates: nat)
    ensures snapshots == SnapshotCount(items) && snapshots + updates == |items|
  {
    snapshots, updates := 0, 0;
    for i := 0 to |items|
      invariant snapshots == SnapshotCount(items[..i]) && updates == i - snapshots
    {
      assert items[..i + 1][..i] == items[..i];
      if items[i].snapshot {
        snapshots := snapshots + 1;
      } else {
        updates := updates + 1;
      }
    }
    assert items[..|items|] == items;
  }

  // ----- The handler: enqueue before processing -----

  datatype Intake = Intake(feed: Feed, nextIndex: nat, received: Option<nat>, enqueued: Option<nat>,
                           processed: Option<nat>)

  function RejectionError(pushed: PushResult): (e: string)
  {
    if pushed == Full then "RAW_RECORDING_QUEUE_FULL" else "RAW_RECORDING_QUEUE_CLOSED"
  }

  /** What is left of an exception once the live handler has absorbed it. */
  function Absorbed(p: Processing): (r: (Feed, Result))
  {
    match p
    case Done(f, r) => (f, r)
    case Threw(f, error) => (f.(book := f.book.(state := Invalid)), Result(ApplyError, error, 0, 0))
  }

  function Handled(i: Intake, p: Payload, mono: int, pushed: PushResult): (r: (Intake, Result))
  {
    var index := i.nextIndex;
    var j := i.(nextIndex := index + 1, received := Some(index));
    if pushed != Accepted then
      (j.(feed := j.feed.(book := j.feed.book.(state := Invalid))),
       Result(RecordingRejected, RejectionError(pushed), 0, 0))
    else
      var (f, result) := Absorbed(Processed(i.feed, p, mono));
      (j.(feed := f, enqueued := Some(index), processed := Some(index)), result)
  }

  class MessageHandler {
    const processor: MessageProcessor
    var nextIndex: nat
    var received: Option<nat>
    var enqueued: Option<nat>
    var processed: Option<nat>

    constructor (processor: MessageProcessor)
      ensures this.processor == processor
      ensures nextIndex == 0 && received == enqueued == processed == None
    {
      this.processor := processor;
      nextIndex, received, enqueued, processed := 0, None, None, None;
    }

    ghost function Value(): (i: Intake)
      reads this, processor, processor.book, processor.sequence, processor.health
    {
      Intake(processor.Value(), nextIndex, received, enqueued, processed)
    }

    /** pushed is what the recording queue answered to the envelope. */
    method Handle(p: Payload, mono: int, pushed: PushResult) returns (r: Result)
      modifies this, processor.book, processor.sequence, processor.health
      ensures (Value(), r) == Handled(old(Value()), p, mono, pushed)
    {
      var index := nextIndex;
      nextIndex := nextIndex + 1;
      received := Some(index);
      if pushed != Accepted {
        processor.book.Mark(Invalid);
        r := Result(RecordingRejected, RejectionError(pushed), 0, 0);
        return;
      }
      enqueued := Some(index);
      var threw;
      threw, r := processor.Process(p, mono);
      if threw {
        processor.book.Mark(Invalid);
        r := Result(ApplyError, r.error, 0, 0);
      }
      processed := Some(index);
    }
  }
}
