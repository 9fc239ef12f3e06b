/** KrakenBookProcessor with its fields updated in place: src/adapters/kraken/kraken_book_processor.cpp. */
module KrakenBookProcessors {
  import opened Base
  import opened Market
  import opened OrderBooks
  import opened KrakenBook
  import opened KrakenChecksum
  import opened KrakenProcessor

  /** Best bid at or above best ask, in a book that has both. */
  method MeetsOrCrosses(bids: Levels, asks: Levels) returns (crossed: bool)
    ensures crossed <==> !Uncrossed(Sides(bids, asks))
  {
    if bids == map[] || asks == map[] {
      return false;
    }
    assert bids.Keys != {} && asks.Keys != {};
    var bid, ask := Best(Bid, bids.Keys), Best(Ask, asks.Keys);
    assert forall b :: b in bids ==> b in bids.Keys && b <= bid;
    assert forall a :: a in asks ==> a in asks.Keys && ask <= a;
    crossed := bid >= ask;
  }

  /** Apply the message to a copy of the checksum book and truncate it; ok is false where the source throws. */
  method BuildCandidate(next: KrakenChecksumBook, snapshot: bool, changes: seq<Change>, depth: nat) returns (ok: bool)
    modifies next
    ensures ok <==> Candidate(old(next.Value()), snapshot, changes, depth).Some?
    ensures ok ==> Some(next.Value()) == Candidate(old(next.Value()), snapshot, changes, depth)
  {
    if snapshot {
      ok := next.ReplaceSnapshot(changes);
    } else {
      ok := ApplyChanges(next, changes);
    }
    if ok {
      next.Truncate(depth);
    }
  }

  method ApplyChanges(next: KrakenChecksumBook, changes: seq<Change>) returns (ok: bool)
    modifies next
    ensures ok <==> AllConsistent(changes)
    ensures ok ==> next.Value() == AllPut(old(next.Value()), changes)
  {
    assert changes[..0] == [];
    for i := 0 to |changes|
      invariant next.Value() == AllPut(old(next.Value()), changes[..i])
      invariant AllConsistent(changes[..i])
    {
      ConsistentSoFar(changes, i);
      ok := next.Apply(changes[i]);
      if !ok {
        return;
      }
      PutNext(old(next.Value()), changes, i);
    }
    assert changes[..|changes|] == changes;
    ok := true;
  }

  lemma PutNext(b: ChecksumBook, changes: seq<Change>, i: nat)
    requires i < |changes|
    ensures AllPut(b, changes[..i + 1]) == PutOn(AllPut(b, changes[..i]), changes[i])
  {
    assert changes[..i + 1][..i] == changes[..i];
  }

  lemma ConsistentSoFar(changes: seq<Change>, i: nat)
    requires i < |changes| && AllConsistent(changes[..i])
    ensures AllConsistent(changes[..i + 1]) <==> Consistent(changes[i])
    ensures !Consistent(changes[i]) ==> !AllConsistent(changes)
  {
    assert changes[..i + 1] == changes[..i] + [changes[i]];
    ConsistentSnoc(changes[..i], changes[i]);
  }

  class KrakenBookProcessor {
    const depth: nat
    var levels: KrakenChecksumBook
    var book: OrderBook
    var checksum: bv32
    var metrics: Metrics
    var hadSnapshot: bool
    var previous: Option<int>
    var lastMessage: Option<int>
    var lastHeartbeat: Option<int>
    var outcome: Outcome

    ghost function Contents(): (s: Store)
      reads this, levels, book
    {
      Store(depth, levels.Value(), book.Value(), checksum)
    }

    ghost function Value(): (p: Processor)
      reads this, levels, book
    {
      Processor(Contents(), metrics, hadSnapshot, previous, lastMessage, lastHeartbeat, outcome)
    }

    constructor (depth: nat)
      ensures Value() == New(depth) && InSync(Contents()) && fresh(book) && fresh(levels)
    {
      this.depth := depth;
      levels := new KrakenChecksumBook(EMPTY);
      book := new OrderBook(Venue.Kraken);
      checksum, metrics, hadSnapshot := 0, NO_METRICS, false;
      previous, lastMessage, lastHeartbeat, outcome := None, None, None, NoOutcome;
      new;
      NewIsInSync(depth);
    }

    method Advance(now: int)
      modifies this`metrics, this`previous
      ensures Value() == Advanced(old(Value()), now)
    {
      if previous.Some? && now >= previous.value {
        var d := now - previous.value;
        if book.state == Valid {
          metrics := metrics.(validTime := metrics.validTime + d);
        } else if book.state == Stale {
          metrics := metrics.(staleTime := metrics.staleTime + d);
        } else {
          metrics := metrics.(invalidTime := metrics.invalidTime + d);
        }
      }
      previous := Some(now);
    }

    method ResetConnection()
      modifies this`metrics, this`lastMessage, this`lastHeartbeat, book
      ensures Value() == Reset(old(Value()))
    {
      metrics := metrics.(reconnects := metrics.reconnects + 1);
      book.Mark(Initializing);
      lastMessage, lastHeartbeat := None, None;
    }

    method Mark(state: BookState)
      requires state != Valid
      modifies book
      ensures Value() == old(Value()).WithState(state)
    {
      book.Mark(state);
    }

    method Reject(o: Outcome)
      modifies this`outcome, book
      ensures Value() == Refused(old(Value()), o)
    {
      outcome := o;
      book.Mark(Invalid);
    }

    /** The candidate of a book message, built on a copy of the checksum book. */
    method Build(snapshot: bool, changes: seq<Change>) returns (ok: bool, next: KrakenChecksumBook)
      requires Proper(levels.Value())
      ensures fresh(next) && (ok <==> Candidate(levels.Value(), snapshot, changes, depth).Some?)
      ensures ok ==> Some(next.Value()) == Candidate(levels.Value(), snapshot, changes, depth) && Proper(next.Value())
    {
      next := new KrakenChecksumBook(ChecksumBook(levels.bids, levels.asks));
      ok := BuildCandidate(next, snapshot, changes, depth);
      if ok {
        CandidateIsProper(levels.Value(), snapshot, changes, depth);
      }
    }

    /** Build and check the candidate of a book message without touching the processor. */
    method Examine(snapshot: bool, changes: seq<Change>, expected: bv32)
      returns (r: Ruling, next: KrakenChecksumBook, candidate: OrderBook)
      requires Proper(levels.Value())
      ensures r == RulingOn(Contents(), snapshot, changes, expected)
      ensures fresh(next) && fresh(candidate)
      ensures r.Take? ==> next.Value() == r.next && candidate.Value() == Book(Venue.Kraken, Valid, Canon(r.next), None)
    {
      candidate := new OrderBook(Venue.Kraken);
      if !snapshot && book.state != Valid {
        next := new KrakenChecksumBook(EMPTY);
        return Await, next, candidate;
      }
      var ok;
      ok, next := Build(snapshot, changes);
      if !ok {
        return Ruling.Refuse, next, candidate;
      }
      r, candidate := Judge(next, expected);
    }

    method Apply(snapshot: bool, changes: seq<Change>, expected: bv32) returns (ok: bool)
      requires Proper(levels.Value())
      modifies this, book
      ensures (Value(), ok) == BookProcessed(old(Value()), snapshot, changes, expected)
      ensures (book == old(book) || fresh(book)) && (levels == old(levels) || fresh(levels))
    {
      var r, next, candidate := Examine(snapshot, changes, expected);
      Settle(r, snapshot, next, candidate, expected);
      ok := r.Take?;
    }

    /** Take the candidate or give the state up, as ruled. */
    method Settle(r: Ruling, snapshot: bool, next: KrakenChecksumBook, candidate: OrderBook, expected: bv32)
      requires r.Take? ==> next.Value() == r.next && candidate.Value() == Book(Venue.Kraken, Valid, Canon(r.next), None)
      modifies this, book
      ensures Value() == Ruled(old(Value()), r, snapshot, expected).0
      ensures if r.Take? then book == candidate && levels == next else book == old(book) && levels == old(levels)
    {
      Tally(r, snapshot);
      Commit(r, next, candidate, expected);
    }

    method Commit(r: Ruling, next: KrakenChecksumBook, candidate: OrderBook, expected: bv32)
      requires r.Take? ==> next.Value() == r.next && candidate.Value() == Book(Venue.Kraken, Valid, Canon(r.next), None)
      modifies this`hadSnapshot, this`book, this`levels, this`checksum, book
      ensures Contents() == Stored(old(Contents()), r, expected) && hadSnapshot == (old(hadSnapshot) || r.Take?)
      ensures if r.Take? then book == candidate && levels == next else book == old(book) && levels == old(levels)
    {
      match r {
        case Await =>
        case Take(_) => hadSnapshot, book, levels, checksum := true, candidate, next, expected;
        case _ => book.Mark(Invalid);
      }
    }

    /** Count the message and name its outcome. */
    method Tally(r: Ruling, snapshot: bool)
      modifies this`metrics, this`outcome
      ensures metrics == Tallied(old(metrics), r, snapshot, hadSnapshot) && outcome == OutcomeOf(r, snapshot)
    {
      metrics := if snapshot then metrics.(snapshots := metrics.snapshots + 1)
                 else metrics.(updates := metrics.updates + 1);
      if !r.Await? && !r.Refuse? {
        metrics := metrics.(checksumValidations := metrics.checksumValidations + 1);
      }
      match r {
        case Await => outcome := AwaitingSnapshot;
        case Mismatch =>
          metrics := metrics.(checksumFailures := metrics.checksumFailures + 1);
          outcome := ChecksumMismatch;
        case Take(_) =>
          if snapshot && hadSnapshot {
            metrics := metrics.(recoverySnapshots := metrics.recoverySnapshots + 1);
          }
          outcome := if snapshot then SnapshotTaken else UpdateTaken;
        case _ => outcome := ApplyError;
      }
    }

    /** A message that is not about the book. */
    method Note(m: Payload, mono: int) returns (ok: bool)
      requires !m.BookMessage?
      modifies this`metrics, this`lastHeartbeat, this`outcome, book
      ensures (Value(), ok) == Dispatched(old(Value()), m, mono)
    {
      match m {
        case HeartbeatMessage =>
          metrics := metrics.(heartbeats := metrics.heartbeats + 1);
          lastHeartbeat := Some(mono);
          outcome := Heartbeat;
          return true;
        case SubscriptionAck =>
          outcome := SubscriptionSuccess;
          return true;
        case Other =>
          outcome := Ignored;
          return true;
        case SubscriptionError =>
          metrics := metrics.(subscriptionErrors := metrics.subscriptionErrors + 1);
          Reject(SubscriptionFailure);
        case Malformed =>
          metrics := metrics.(parseErrors := metrics.parseErrors + 1);
          Reject(ParseError);
      }
      ok := false;
    }

    method Receive(mono: int)
      modifies this`metrics, this`previous, this`lastMessage
      ensures Value() == Received(old(Value()), mono)
    {
      Advance(mono);
      lastMessage := Some(mono);
      metrics := metrics.(messages := metrics.messages + 1);
    }

    method Dispatch(m: Payload, mono: int) returns (ok: bool)
      requires Proper(levels.Value())
      modifies this, book
      ensures (Value(), ok) == Dispatched(old(Value()), m, mono)
      ensures (book == old(book) || fresh(book)) && (levels == old(levels) || fresh(levels))
    {
      if m.BookMessage? {
        ok := Apply(m.snapshot, m.changes, m.checksum);
        DispatchedBook(old(Value()), m, mono);
      } else {
        ok := Note(m, mono);
      }
    }

    method Process(m: Payload, mono: int) returns (ok: bool)
      requires Proper(levels.Value())
      modifies this, book
      ensures (Value(), ok) == Processed(old(Value()), m, mono)
      ensures (book == old(book) || fresh(book)) && (levels == old(levels) || fresh(levels))
    {
      Receive(mono);
      ok := Dispatch(m, mono);
    }
  }

  lemma DispatchedBook(p: Processor, m: Payload, mono: int)
    requires m.BookMessage?
    ensures Dispatched(p, m, mono) == BookProcessed(p, m.snapshot, m.changes, m.checksum)
  {}

  /** Compare the checksum, then the best prices of the canonical book. */
  method Judge(next: KrakenChecksumBook, expected: bv32) returns (r: Ruling, candidate: OrderBook)
    requires Proper(next.Value())
    ensures r == Verdict(next.Value(), expected) && fresh(candidate)
    ensures r.Take? ==> candidate.Value() == Book(Venue.Kraken, Valid, Canon(next.Value()), None)
  {
    var crc := next.Checksum();
    if crc != expected {
      candidate := new OrderBook(Venue.Kraken);
      return Mismatch, candidate;
    }
    candidate := Canonical(next);
    var crossed := MeetsOrCrosses(candidate.bids, candidate.asks);
    r := if crossed then Cross else Take(ChecksumBook(next.bids, next.asks));
  }

  /** The canonical book of a proper checksum book: offering its levels as a snapshot is never refused. */
  method Canonical(next: KrakenChecksumBook) returns (candidate: OrderBook)
    requires Proper(next.Value())
    ensures fresh(candidate) && candidate.Value() == Book(Venue.Kraken, Valid, Canon(next.Value()), None)
  {
    candidate := new OrderBook(Venue.Kraken);
    var list := next.Levels();
    LevelsAreSnapshot(next.Value());
    var ok := candidate.ApplySnapshot(MarketEvent.Snapshot(Venue.Kraken, list, None));
    assert ok;
  }
  /** Construction fails, here with None, on a depth that is not one of the five. */
  method CreateProcessor(depth: nat) returns (p: Option<KrakenBookProcessor>)
    ensures p.Some? <==> AllowedDepth(depth)
    ensures p.Some? ==>
              && p.value.Value() == New(depth) && InSync(p.value.Contents())
              && fresh(p.value) && fresh(p.value.book) && fresh(p.value.levels)
  {
    if depth != 10 && depth != 25 && depth != 100 && depth != 500 && depth != 1000 {
      return None;
    }
    var processor := new KrakenBookProcessor(depth);
    p := Some(processor);
  }
}
