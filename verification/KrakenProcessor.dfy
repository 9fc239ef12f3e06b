/** The Kraken book processor: src/adapters/kraken/kraken_book_processor.cpp. */
module KrakenProcessor {
  import opened Base
  import opened Market
  import opened PriceOrder
  import opened KrakenBook

  /** A parsed message. */
  datatype Payload =
    | HeartbeatMessage
    | SubscriptionAck
    | Other
    | SubscriptionError
    | Malformed
    | BookMessage(snapshot: bool, changes: seq<Change>, checksum: bv32)

  datatype Outcome =
    | NoOutcome | Heartbeat | SubscriptionSuccess | Ignored | SubscriptionFailure | ParseError
    | AwaitingSnapshot | ChecksumMismatch | ApplyError | SnapshotTaken | UpdateTaken

  datatype Metrics = Metrics(
    messages: nat, snapshots: nat, updates: nat, heartbeats: nat, subscriptionErrors: nat, parseErrors: nat,
    checksumValidations: nat, checksumFailures: nat, reconnects: nat, recoverySnapshots: nat,
    validTime: nat, invalidTime: nat, staleTime: nat)

  const NO_METRICS: Metrics := Metrics(0, 0, 0, 0, 0, 0, 0, 0, 0, 0, 0, 0, 0)

  /** The two books and the last accepted checksum. */
  datatype Store = Store(depth: nat, levels: ChecksumBook, book: Book, checksum: bv32)
  {
    function WithState(s: BookState): (r: Store) { this.(book := book.(state := s)) }
  }

  datatype Processor = Processor(
    store: Store, metrics: Metrics, hadSnapshot: bool,
    previous: Option<int>, lastMessage: Option<int>, lastHeartbeat: Option<int>, outcome: Outcome)
  {
    function WithState(s: BookState): (p: Processor) { this.(store := store.WithState(s)) }
    function State(): (s: BookState) { store.book.state }
  }

  predicate AllowedDepth(depth: nat) { depth in {10, 25, 100, 500, 1000} }

  function New(depth: nat): (p: Processor)
  {
    Processor(Store(depth, EMPTY, NewBook(Venue.Kraken), 0), NO_METRICS, false, None, None, None, NoOutcome)
  }

  // ----- Operations -----

  /** The time since the previous message counts for the state the book had. */
  function Advanced(p: Processor, now: int): (q: Processor)
  {
    var d := if p.previous.Some? && now >= p.previous.value then now - p.previous.value else 0;
    var m := p.metrics;
    p.(previous := Some(now),
       metrics := if p.State() == Valid then m.(validTime := m.validTime + d)
                  else if p.State() == Stale then m.(staleTime := m.staleTime + d)
                  else m.(invalidTime := m.invalidTime + d))
  }

  function Reset(p: Processor): (q: Processor)
  {
    p.WithState(Initializing).(metrics := p.metrics.(reconnects := p.metrics.reconnects + 1),
                               lastMessage := None, lastHeartbeat := None)
  }

  /** Every bid is below every ask. */
  predicate Uncrossed(s: Sides) { forall b, a :: b in s.bids && a in s.asks ==> b < a }

  /** The checksum book after a message, or None when a level is refused. */
  function Candidate(levels: ChecksumBook, snapshot: bool, changes: seq<Change>, depth: nat): (b: Option<ChecksumBook>)
  {
    if snapshot then if Replaceable(changes) then Some(TrimmedBook(AllPut(EMPTY, changes), depth)) else None
    else if AllConsistent(changes) then Some(TrimmedBook(AllPut(levels, changes), depth)) else None
  }

  /** What is to be done about a book message. */
  datatype Ruling = Await | Refuse | Mismatch | Cross | Take(next: ChecksumBook)

  function RulingOn(s: Store, snapshot: bool, changes: seq<Change>, checksum: bv32): (r: Ruling)
  {
    if !snapshot && s.book.state != Valid then Await
    else
      match Candidate(s.levels, snapshot, changes, s.depth)
      case None => Refuse
      case Some(next) => Verdict(next, checksum)
  }

  /** Checksum first, then the best prices. */
  function Verdict(next: ChecksumBook, checksum: bv32): (r: Ruling)
  {
    if ChecksumOf(next) != checksum then Mismatch else if !Uncrossed(Canon(next)) then Cross else Take(next)
  }

  /** The store after a ruling. */
  function Stored(s: Store, r: Ruling, checksum: bv32): (t: Store)
  {
    match r
    case Await => s
    case Take(next) => Store(s.depth, next, Book(Venue.Kraken, Valid, Canon(next), None), checksum)
    case _ => s.WithState(Invalid)
  }

  function OutcomeOf(r: Ruling, snapshot: bool): (o: Outcome)
  {
    match r
    case Await => AwaitingSnapshot
    case Mismatch => ChecksumMismatch
    case Take(_) => if snapshot then SnapshotTaken else UpdateTaken
    case _ => ApplyError
  }

  function Tallied(m: Metrics, r: Ruling, snapshot: bool, hadSnapshot: bool): (n: Metrics)
  {
    var c := if snapshot then m.(snapshots := m.snapshots + 1) else m.(updates := m.updates + 1);
    var v := if r.Await? || r.Refuse? then c else c.(checksumValidations := c.checksumValidations + 1);
    if r.Mismatch? then v.(checksumFailures := v.checksumFailures + 1)
    else if r.Take? && snapshot && hadSnapshot then v.(recoverySnapshots := v.recoverySnapshots + 1)
    else v
  }

  function Ruled(p: Processor, r: Ruling, snapshot: bool, checksum: bv32): (s: (Processor, bool))
  {
    (p.(store := Stored(p.store, r, checksum), metrics := Tallied(p.metrics, r, snapshot, p.hadSnapshot),
        hadSnapshot := p.hadSnapshot || r.Take?, outcome := OutcomeOf(r, snapshot)), r.Take?)
  }

  function BookProcessed(p: Processor, snapshot: bool, changes: seq<Change>, checksum: bv32): (r: (Processor, bool))
  {
    Ruled(p, RulingOn(p.store, snapshot, changes, checksum), snapshot, checksum)
  }

  function Received(p: Processor, mono: int): (q: Processor)
  {
    var a := Advanced(p, mono);
    a.(lastMessage := Some(mono), metrics := a.metrics.(messages := a.metrics.messages + 1))
  }

  function Refused(p: Processor, outcome: Outcome): (q: Processor) { p.WithState(Invalid).(outcome := outcome) }

  function Dispatched(r: Processor, m: Payload, mono: int): (s: (Processor, bool))
  {
    match m
    case HeartbeatMessage =>
      (r.(metrics := r.metrics.(heartbeats := r.metrics.heartbeats + 1),
          lastHeartbeat := Some(mono), outcome := Heartbeat), true)
    case SubscriptionAck => (r.(outcome := SubscriptionSuccess), true)
    case Other => (r.(outcome := Ignored), true)
    case SubscriptionError =>
      var counted := r.(metrics := r.metrics.(subscriptionErrors := r.metrics.subscriptionErrors + 1));
      (Refused(counted, SubscriptionFailure), false)
    case Malformed => (Refused(r.(metrics := r.metrics.(parseErrors := r.metrics.parseErrors + 1)), ParseError), false)
    case BookMessage(snapshot, changes, checksum) => BookProcessed(r, snapshot, changes, checksum)
  }

  /** One message; the second component is what process returns. */
  function Processed(p: Processor, m: Payload, mono: int): (r: (Processor, bool))
  {
    Dispatched(Received(p, mono), m, mono)
  }

  // ----- Every reachable state -----

  /** Valid or not, canonical book, checksum book and stored checksum agree and the book is within its depth. */
  predicate InSync(s: Store)
  {
    && Proper(s.levels) && s.book.sides == Canon(s.levels) && s.book.venue == Venue.Kraken
    && s.book.lastSequence == None
    && |s.levels.bids| <= s.depth && |s.levels.asks| <= s.depth
    && Uncrossed(s.book.sides) && s.checksum == ChecksumOf(s.levels)
  }

  lemma NewIsInSync(depth: nat)
    ensures InSync(New(depth).store)
  {
    Crc32.EmptyIsZero();
    EmptyListing();
    assert Canon(EMPTY) == NO_LEVELS;
  }

  lemma EmptyListing()
    ensures ChecksumOf(EMPTY) == Crc32.Crc("")
  {
    assert EMPTY.asks.Keys == {} && EMPTY.bids.Keys == {};
    assert TopTen(EMPTY.asks, Ask) == [] && TopTen(EMPTY.bids, Bid) == [];
  }

  lemma CandidateIsProper(levels: ChecksumBook, snapshot: bool, changes: seq<Change>, depth: nat)
    requires Proper(levels) && Candidate(levels, snapshot, changes, depth).Some?
    ensures var b := Candidate(levels, snapshot, changes, depth).value;
            Proper(b) && |b.bids| <= depth && |b.asks| <= depth
  {
    var full := AllPut(if snapshot then EMPTY else levels, changes);
    AllPutProper(if snapshot then EMPTY else levels, changes);
    TrimKeepsProper(full, depth);
    TrimmedKeys(full.bids, Bid, depth);
    TrimmedKeys(full.asks, Ask, depth);
  }

  /** The state does not matter. */
  lemma AnyStateInSync(s: Store, state: BookState)
    requires InSync(s)
    ensures InSync(s.WithState(state))
  {}

  lemma StoredInSync(s: Store, r: Ruling, checksum: bv32)
    requires InSync(s)
    requires r.Take? ==> Proper(r.next) && |r.next.bids| <= s.depth && |r.next.asks| <= s.depth
    requires r.Take? ==> ChecksumOf(r.next) == checksum && Uncrossed(Canon(r.next))
    ensures InSync(Stored(s, r, checksum))
  {
    AnyStateInSync(s, Invalid);
  }

  lemma TakenIsProper(s: Store, snapshot: bool, changes: seq<Change>, checksum: bv32)
    requires Proper(s.levels) && RulingOn(s, snapshot, changes, checksum).Take?
    ensures var next := RulingOn(s, snapshot, changes, checksum).next;
            && Proper(next) && |next.bids| <= s.depth && |next.asks| <= s.depth
            && ChecksumOf(next) == checksum && Uncrossed(Canon(next))
  {
    CandidateIsProper(s.levels, snapshot, changes, s.depth);
    VerdictTakes(Candidate(s.levels, snapshot, changes, s.depth).value, checksum);
  }

  lemma VerdictTakes(next: ChecksumBook, checksum: bv32)
    ensures Verdict(next, checksum).Take? <==> ChecksumOf(next) == checksum && Uncrossed(Canon(next))
    ensures Verdict(next, checksum).Take? ==> Verdict(next, checksum).next == next
  {}

  lemma BookProcessedInSync(s: Store, snapshot: bool, changes: seq<Change>, checksum: bv32)
    requires InSync(s)
    ensures InSync(Stored(s, RulingOn(s, snapshot, changes, checksum), checksum))
  {
    var r := RulingOn(s, snapshot, changes, checksum);
    if r.Take? {
      TakenIsProper(s, snapshot, changes, checksum);
    }
    StoredInSync(s, r, checksum);
  }

  /** A message other than a book message leaves the store alone or only invalidates the book. */
  lemma NotedStore(p: Processor, m: Payload, mono: int)
    requires !m.BookMessage?
    ensures var s := Dispatched(p, m, mono).0.store; s == p.store || s == p.store.WithState(Invalid)
  {}

  lemma RuledStore(p: Processor, m: Payload, mono: int)
    requires m.BookMessage?
    ensures Dispatched(p, m, mono).0.store ==
            Stored(p.store, RulingOn(p.store, m.snapshot, m.changes, m.checksum), m.checksum)
  {}

  lemma ReceivedStore(p: Processor, mono: int)
    ensures Received(p, mono).store == p.store
  {}

  lemma ProcessedInSync(p: Processor, m: Payload, mono: int)
    requires InSync(p.store)
    ensures InSync(Processed(p, m, mono).0.store)
  {
    ReceivedStore(p, mono);
    if m.BookMessage? {
      RuledStore(Received(p, mono), m, mono);
      BookProcessedInSync(p.store, m.snapshot, m.changes, m.checksum);
    } else {
      NotedStore(Received(p, mono), m, mono);
      AnyStateInSync(p.store, Invalid);
    }
  }
}
