/** What every sequence of operations on a Kraken processor keeps, in whatever order runtime or replay makes them. */
module KrakenRuns {
  import opened Base
  import opened Market
  import opened KrakenBook
  import opened KrakenDepth
  import opened KrakenProcessor

  datatype Op = Message(payload: Payload, mono: int) | ResetConnection | MarkStale | Invalidate | Disconnect

  function Done(p: Processor, op: Op): (q: Processor)
  {
    match op
    case Message(m, mono) => Processed(p, m, mono).0
    case ResetConnection => Reset(p)
    case MarkStale => p.WithState(Stale)
    case Invalidate => p.WithState(Invalid)
    case Disconnect => p.WithState(Disconnected)
  }

  function After(depth: nat, ops: seq<Op>): (p: Processor)
  {
    if ops == [] then New(depth) else Done(After(depth, ops[..|ops| - 1]), ops[|ops| - 1])
  }

  /** Valid or not: canonical levels are the checksum book's, both sides are within depth, the book is uncrossed, the
      stored checksum is the checksum of the stored levels, and every lexeme denotes its level. */
  lemma {:induction false} BooksStayInSync(depth: nat, ops: seq<Op>)
    ensures InSync(After(depth, ops).store) && After(depth, ops).store.depth == depth
  {
    if ops == [] {
      NewIsInSync(depth);
    } else {
      var before, op := ops[..|ops| - 1], ops[|ops| - 1];
      BooksStayInSync(depth, before);
      DoneInSync(After(depth, before), op);
    }
  }

  lemma DoneInSync(p: Processor, op: Op)
    requires InSync(p.store)
    ensures InSync(Done(p, op).store) && Done(p, op).store.depth == p.store.depth
  {
    if op.Message? {
      ProcessedInSync(p, op.payload, op.mono);
      ProcessedDepth(p, op.payload, op.mono);
    } else {
      MarkedStore(p, op);
      AnyStateInSync(p.store, Done(p, op).State());
    }
  }

  lemma MarkedStore(p: Processor, op: Op)
    requires !op.Message?
    ensures Done(p, op).store == p.store.WithState(Done(p, op).State())
  {}

  lemma ProcessedDepth(p: Processor, m: Payload, mono: int)
    ensures Processed(p, m, mono).0.store.depth == p.store.depth
  {
    DispatchedCarries(Received(p, mono), m, mono);
    ReceivedStore(p, mono);
  }

  function TotalTime(m: Metrics): (t: nat) { m.validTime + m.invalidTime + m.staleTime }

  /** Depth, clock and state times pass through. */
  predicate Carries(p: Processor, q: Processor)
  {
    q.store.depth == p.store.depth && q.previous == p.previous && TotalTime(q.metrics) == TotalTime(p.metrics)
  }

  lemma RuledCarries(p: Processor, r: Ruling, snapshot: bool, checksum: bv32)
    ensures Carries(p, Ruled(p, r, snapshot, checksum).0)
  {}

  lemma DispatchedCarries(p: Processor, m: Payload, mono: int)
    ensures Carries(p, Dispatched(p, m, mono).0)
  {
    if m.BookMessage? {
      RuledCarries(p, RulingOn(p.store, m.snapshot, m.changes, m.checksum), m.snapshot, m.checksum);
    }
  }

  // ----- Becoming Valid -----

  /** Levels that can be taken whole, match the checksum once truncated, and do not cross. */
  predicate Acceptable(changes: seq<Change>, checksum: bv32, depth: nat)
  {
    Replaceable(changes) &&
    var b := TrimmedBook(AllPut(EMPTY, changes), depth);
    ChecksumOf(b) == checksum && Uncrossed(Canon(b))
  }

  predicate Restoring(op: Op, depth: nat)
  {
    && op.Message? && op.payload.BookMessage? && op.payload.snapshot
    && Acceptable(op.payload.changes, op.payload.checksum, depth)
  }

  lemma RulingOnSnapshot(s: Store, snapshot: bool, changes: seq<Change>, checksum: bv32)
    requires snapshot
    ensures RulingOn(s, snapshot, changes, checksum).Take? <==> Acceptable(changes, checksum, s.depth)
  {}

  /** After any operations, a book that is not Valid becomes Valid on exactly the restoring snapshots. */
  lemma OnlySnapshotsRestore(depth: nat, ops: seq<Op>, op: Op)
    requires After(depth, ops).State() != Valid
    ensures After(depth, ops + [op]).State() == Valid <==> Restoring(op, depth)
  {
    assert (ops + [op])[..|ops|] == ops;
    BooksStayInSync(depth, ops);
    RestoresExactly(After(depth, ops), op);
  }

  lemma RulingRestores(s: Store, r: Ruling, checksum: bv32)
    requires s.book.state != Valid
    ensures Stored(s, r, checksum).book.state == Valid <==> r.Take?
  {}

  lemma OthersDoNotRestore(p: Processor, m: Payload, mono: int)
    requires p.State() != Valid && !(m.BookMessage? && m.snapshot)
    ensures Dispatched(p, m, mono).0.State() != Valid
  {}

  lemma SnapshotRestores(p: Processor, snapshot: bool, changes: seq<Change>, checksum: bv32)
    requires p.State() != Valid && snapshot
    ensures BookProcessed(p, snapshot, changes, checksum).0.State() == Valid <==>
            Acceptable(changes, checksum, p.store.depth)
  {
    RulingOnSnapshot(p.store, snapshot, changes, checksum);
    RulingRestores(p.store, RulingOn(p.store, snapshot, changes, checksum), checksum);
  }

  lemma RestoresExactly(p: Processor, op: Op)
    requires p.State() != Valid
    ensures Done(p, op).State() == Valid <==> Restoring(op, p.store.depth)
  {
    if op.Message? {
      var m, r := op.payload, Received(p, op.mono);
      ReceivedStore(p, op.mono);
      if m.BookMessage? && m.snapshot {
        BookDispatched(r, m, op.mono);
        SnapshotRestores(r, m.snapshot, m.changes, m.checksum);
      } else {
        OthersDoNotRestore(r, m, op.mono);
      }
    }
  }

  lemma BookDispatched(p: Processor, m: Payload, mono: int)
    requires m.BookMessage?
    ensures Dispatched(p, m, mono) == BookProcessed(p, m.snapshot, m.changes, m.checksum)
  {}

  // ----- Since the last snapshot -----

  /** The operation is a book message that process accepted. */
  predicate Takes(p: Processor, op: Op)
  {
    op.Message? && op.payload.BookMessage? && Processed(p, op.payload, op.mono).1
  }

  /** The levels of the last accepted snapshot. */
  function LastSnapshot(depth: nat, ops: seq<Op>): (s: seq<Change>)
  {
    if ops == [] then []
    else
      var before, op := ops[..|ops| - 1], ops[|ops| - 1];
      if Takes(After(depth, before), op) && op.payload.snapshot then op.payload.changes else LastSnapshot(depth, before)
  }

  /** The updates accepted since then. */
  function UpdatesSince(depth: nat, ops: seq<Op>): (u: seq<seq<Change>>)
  {
    if ops == [] then []
    else
      var before, op := ops[..|ops| - 1], ops[|ops| - 1];
      if !Takes(After(depth, before), op) then UpdatesSince(depth, before)
      else if op.payload.snapshot then []
      else UpdatesSince(depth, before) + [op.payload.changes]
  }

  lemma DoneLevels(p: Processor, op: Op)
    ensures Done(p, op).store.levels ==
            if !Takes(p, op) then p.store.levels
            else
              var from := if op.payload.snapshot then EMPTY else p.store.levels;
              TrimmedBook(AllPut(from, op.payload.changes), p.store.depth)
  {
    if op.Message? && op.payload.BookMessage? {
      var m := op.payload;
      var r := RulingOn(p.store, m.snapshot, m.changes, m.checksum);
      TakenLevels(p.store, m.snapshot, m.changes, m.checksum);
      ReceivedStore(p, op.mono);
      RuledLevels(Received(p, op.mono), r, m.snapshot, m.checksum);
    } else if op.Message? {
      OthersKeepLevels(Received(p, op.mono), op.payload, op.mono);
    }
  }

  lemma RuledLevels(p: Processor, r: Ruling, snapshot: bool, checksum: bv32)
    ensures var (q, ok) := Ruled(p, r, snapshot, checksum);
            ok == r.Take? && q.store.levels == if r.Take? then r.next else p.store.levels
  {}

  lemma OthersKeepLevels(p: Processor, m: Payload, mono: int)
    requires !m.BookMessage?
    ensures Dispatched(p, m, mono).0.store.levels == p.store.levels
  {}

  lemma TakenLevels(s: Store, snapshot: bool, changes: seq<Change>, checksum: bv32)
    ensures var r := RulingOn(s, snapshot, changes, checksum);
            r.Take? ==> r.next == TrimmedBook(AllPut(if snapshot then EMPTY else s.levels, changes), s.depth)
  {}

  /** The stored levels are the truncated run of the last snapshot and the updates since. */
  lemma {:induction false} LevelsAreShallow(depth: nat, ops: seq<Op>)
    ensures After(depth, ops).store.levels == Shallow(LastSnapshot(depth, ops), UpdatesSince(depth, ops), depth)
  {
    if ops == [] {
      EmptyShallow(depth);
    } else {
      var before, op := ops[..|ops| - 1], ops[|ops| - 1];
      LevelsAreShallow(depth, before);
      BooksStayInSync(depth, before);
      DoneLevels(After(depth, before), op);
      if Takes(After(depth, before), op) && !op.payload.snapshot {
        ShallowGrows(LastSnapshot(depth, before), UpdatesSince(depth, before), op.payload.changes, depth);
      }
    }
  }

  lemma EmptyShallow(depth: nat)
    ensures Shallow([], [], depth) == EMPTY
  {
    assert Trimmed(EMPTY.bids, Bid, depth) == map[] && Trimmed(EMPTY.asks, Ask, depth) == map[];
  }

  lemma ShallowGrows(snapshot: seq<Change>, updates: seq<seq<Change>>, u: seq<Change>, depth: nat)
    ensures Shallow(snapshot, updates + [u], depth) == TrimmedBook(AllPut(Shallow(snapshot, updates, depth), u), depth)
  {
    assert (updates + [u])[..|updates|] == updates;
  }

  /** Every stored level is a level of the book built from the same messages without truncation. The stored book is
      exactly the best-depth prefix of that book after each of them if and only if no message let a cut level resurface,
      which none does that deletes nothing; the checksum is then that of the untruncated book. */
  lemma TruncationIsFaithful(depth: nat, ops: seq<Op>)
    requires AllowedDepth(depth)
    ensures var b, s, u := After(depth, ops).store.levels, LastSnapshot(depth, ops), UpdatesSince(depth, ops);
            && SubBook(b, Deep(s, u))
            && (AlwaysInPrefix(s, u, depth) <==> NeverResurfaces(s, u, depth))
            && (NeverResurfaces(s, u, depth) || NoDeletions(u) ==>
                  b == TrimmedBook(Deep(s, u), depth) && ChecksumOf(b) == ChecksumOf(Deep(s, u)))
  {
    var s, u := LastSnapshot(depth, ops), UpdatesSince(depth, ops);
    LevelsAreShallow(depth, ops);
    TruncatedIsSubmap(s, u, depth);
    PrefixExactly(s, u, depth);
    if NoDeletions(u) {
      TruncatedIsPrefix(s, u, depth);
    }
    TrimKeepsChecksum(Deep(s, u), depth);
  }

  // ----- Time -----

  /** The receive times of the messages, in order. */
  function Times(ops: seq<Op>): (t: seq<int>)
  {
    if ops == [] then []
    else Times(ops[..|ops| - 1]) + if ops[|ops| - 1].Message? then [ops[|ops| - 1].mono] else []
  }

  /** The forward steps of a clock, added up. */
  function Travelled(t: seq<int>): (d: nat)
  {
    if |t| < 2 then 0
    else Travelled(t[..|t| - 1]) + if t[|t| - 1] >= t[|t| - 2] then t[|t| - 1] - t[|t| - 2] else 0
  }

  lemma DoneTime(p: Processor, op: Op)
    ensures var q := Done(p, op);
            && TotalTime(q.metrics) == TotalTime(p.metrics) +
                 (if op.Message? && p.previous.Some? && op.mono >= p.previous.value
                  then op.mono - p.previous.value else 0)
            && q.previous == if op.Message? then Some(op.mono) else p.previous
  {
    if op.Message? {
      DispatchedCarries(Received(p, op.mono), op.payload, op.mono);
    }
  }

  lemma TravelledOn(t: seq<int>, now: int)
    ensures Travelled(t + [now]) ==
            Travelled(t) + if t != [] && now >= t[|t| - 1] then now - t[|t| - 1] else 0
  {
    assert (t + [now])[..|t|] == t;
  }

  /** For every clock: the three state times add up to the forward steps between messages. */
  lemma {:induction false} StateTimesAddUp(depth: nat, ops: seq<Op>)
    ensures TotalTime(After(depth, ops).metrics) == Travelled(Times(ops))
    ensures After(depth, ops).previous == if Times(ops) == [] then None else Some(Times(ops)[|Times(ops)| - 1])
  {
    if ops != [] {
      var before, op := ops[..|ops| - 1], ops[|ops| - 1];
      StateTimesAddUp(depth, before);
      DoneTime(After(depth, before), op);
      if op.Message? {
        TravelledOn(Times(before), op.mono);
      } else {
        assert Times(before) + [] == Times(before);
      }
    }
  }

  /** The three clocks: Valid, Stale, and every other state together. */
  function ClockOf(m: Metrics, s: BookState): (t: nat)
  {
    if s == Valid then m.validTime else if s == Stale then m.staleTime else m.invalidTime
  }

  predicate SameClock(s: BookState, t: BookState)
  {
    s == t || (s !in {Valid, Stale} && t !in {Valid, Stale})
  }

  /** The forward steps that ended with a message, while the book was in a state of this clock. */
  function TimeSpent(depth: nat, ops: seq<Op>, s: BookState): (t: nat)
  {
    if ops == [] then 0
    else
      var before, op := ops[..|ops| - 1], ops[|ops| - 1];
      var p := After(depth, before);
      TimeSpent(depth, before, s) +
      if op.Message? && p.previous.Some? && op.mono >= p.previous.value && SameClock(p.State(), s)
      then op.mono - p.previous.value else 0
  }

  lemma RuledClocks(p: Processor, r: Ruling, snapshot: bool, checksum: bv32, s: BookState)
    ensures ClockOf(Ruled(p, r, snapshot, checksum).0.metrics, s) == ClockOf(p.metrics, s)
  {}

  lemma DispatchedClocks(p: Processor, m: Payload, mono: int, s: BookState)
    ensures ClockOf(Dispatched(p, m, mono).0.metrics, s) == ClockOf(p.metrics, s)
  {
    if m.BookMessage? {
      RuledClocks(p, RulingOn(p.store, m.snapshot, m.changes, m.checksum), m.snapshot, m.checksum, s);
    }
  }

  /** Each clock holds exactly the time the book spent in its states. */
  lemma {:induction false} ClocksAreTimeSpent(depth: nat, ops: seq<Op>, s: BookState)
    ensures ClockOf(After(depth, ops).metrics, s) == TimeSpent(depth, ops, s)
  {
    if ops != [] {
      var before, op := ops[..|ops| - 1], ops[|ops| - 1];
      ClocksAreTimeSpent(depth, before, s);
      if op.Message? {
        DispatchedClocks(Received(After(depth, before), op.mono), op.payload, op.mono, s);
      }
    }
  }

  predicate Nondecreasing(t: seq<int>) { forall i, j :: 0 <= i <= j < |t| ==> t[i] <= t[j] }

  lemma {:induction false} ForwardOnly(t: seq<int>)
    requires Nondecreasing(t) && t != []
    ensures Travelled(t) == t[|t| - 1] - t[0]
  {
    if |t| > 1 {
      ForwardOnly(t[..|t| - 1]);
    }
  }

  /** With nondecreasing receive times the state times sum to the last minus the first. */
  lemma StateTimesSpanTheRun(depth: nat, ops: seq<Op>)
    requires Nondecreasing(Times(ops)) && Times(ops) != []
    ensures TotalTime(After(depth, ops).metrics) == Times(ops)[|Times(ops)| - 1] - Times(ops)[0]
  {
    StateTimesAddUp(depth, ops);
    ForwardOnly(Times(ops));
  }
}
