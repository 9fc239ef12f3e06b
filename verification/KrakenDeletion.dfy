/** A deletion that costs the truncated book a level: a feed the processor accepts, at every allowed depth. */
module KrakenDeletion {
  import opened Base
  import opened Decimal
  import opened Market
  import opened PriceOrder
  import opened KrakenBook
  import opened KrakenDepth
  import opened KrakenProcessor
  import opened KrakenRuns
  import FixedPoint
  import KrakenNumber

  // ----- Lexemes -----

  lemma {:induction false} NoLeadingZero(n: nat)
    ensures n == 0 ==> FixedPoint.NatText(n) == "0"
    ensures n > 0 ==> FixedPoint.NatText(n)[0] != '0'
  {
    if n >= 10 {
      NoLeadingZero(n / 10);
    }
  }

  lemma {:induction false} NoMark(s: string, i: nat)
    requires i <= |s| && forall k :: 0 <= k < |s| ==> IsDigit(s[k]) || s[k] == '.'
    ensures KrakenNumber.MarkFrom(s, i) == |s|
    decreases |s| - i
  {
    if i < |s| {
      NoMark(s, i + 1);
    }
  }

  /** A mantissa of digits and a point is a token that expands to itself. */
  lemma ExpandsToItself(s: string)
    requires KrakenNumber.Mantissa(s) && forall k :: 0 <= k < |s| ==> IsDigit(s[k]) || s[k] == '.'
    ensures KrakenNumber.Expanded(s) == Some(s)
  {
    NoMark(s, 0);
    assert s[..|s|] == s;
  }

  lemma PriceLexed(ticks: nat)
    requires ticks <= INT64_MAX
    ensures Lexed(FixedPoint.Display(ticks), PRICE_SCALE) == Some(ticks)
  {
    var a, cents := FixedPoint.NatText(ticks / 100), FixedPoint.Cents(ticks % 100);
    assert FixedPoint.Display(ticks) == a + "." + cents;
    PointOfParts(a, cents);
    NoLeadingZero(ticks / 100);
    ExpandsToItself(FixedPoint.Display(ticks));
    FixedPoint.ParseInvertsDisplay(ticks);
  }

  const UNIT: nat := 100_000_000

  lemma UnitIsPower()
    ensures Pow10(8) == UNIT
  {
    assert Pow10(4) == 10_000;
    Pow10Add(4, 4);
  }

  /** A whole quantity, in atoms. */
  lemma QuantityLexed(n: nat)
    requires n <= 1
    ensures Lexed(FixedPoint.NatText(n), QUANTITY_SCALE) == Some(n * UNIT)
  {
    var s := FixedPoint.NatText(n);
    PointOfDigits(s);
    NoLeadingZero(n);
    ExpandsToItself(s);
    assert s + "" == s;
    UnitIsPower();
  }

  // ----- The ladder -----

  /** One unit asked at a price. */
  function Asked(p: nat): (c: Change) { Change(Ask, p, UNIT, FixedPoint.Display(p), FixedPoint.NatText(1)) }

  /** The deletion of the best ask. */
  function BestDeleted(): (c: Change) { Change(Ask, 1, 0, FixedPoint.Display(1), FixedPoint.NatText(0)) }

  lemma AskedIsConsistent(p: nat)
    requires 0 < p <= INT64_MAX
    ensures Consistent(Asked(p))
  {
    PriceLexed(p);
    QuantityLexed(1);
  }

  lemma DeletionIsConsistent()
    ensures Consistent(BestDeleted())
  {
    PriceLexed(1);
    QuantityLexed(0);
  }

  /** Asks at 1, 2, ..., n ticks. */
  function Ladder(n: nat): (changes: seq<Change>)
    ensures |changes| == n && forall i :: 0 <= i < n ==> changes[i] == Asked(i + 1)
  {
    seq(n, i requires 0 <= i < n => Asked(i + 1))
  }

  lemma LadderIsReplaceable(n: nat)
    requires n <= INT64_MAX
    ensures Replaceable(Ladder(n))
  {
    forall i | 0 <= i < n
      ensures Consistent(Ladder(n)[i])
    {
      AskedIsConsistent(i + 1);
    }
  }

  ghost predicate HoldsLadder(b: ChecksumBook, n: nat)
  {
    b.bids == map[] && forall p :: p in b.asks <==> 1 <= p <= n
  }

  lemma {:induction false} LadderHeld(n: nat)
    ensures HoldsLadder(AllPut(EMPTY, Ladder(n)), n)
  {
    if n > 0 {
      LadderHeld(n - 1);
      assert Ladder(n)[..n - 1] == Ladder(n - 1);
    }
  }

  lemma {:induction false} LadderSize(prices: set<nat>, n: nat)
    requires forall p :: p in prices <==> 1 <= p <= n
    ensures |prices| == n
  {
    if n == 0 {
      assert prices == {};
    } else {
      LadderSize(prices - {n}, n - 1);
    }
  }

  lemma OneIsCut(prices: set<nat>, n: nat)
    requires forall p :: p in prices <==> 1 <= p <= n + 1
    ensures n + 1 !in Kept(Ask, prices, n)
  {
    KeptIsTop(Ask, prices, n);
    LadderSize(prices, n + 1);
    assert Kept(Ask, prices, n) != prices;
  }

  /** Truncation cuts the worst price of a ladder one step too long. */
  lemma WorstIsCut(b: ChecksumBook, n: nat)
    requires HoldsLadder(b, n + 1)
    ensures n + 1 !in TrimmedBook(b, n).asks
  {
    OneIsCut(b.asks.Keys, n);
    TrimmedKeys(b.asks, Ask, n);
  }

  /** Without truncation the deletion leaves n asks, the worst price among them. */
  lemma WorstIsLeft(b: ChecksumBook, n: nat)
    requires HoldsLadder(b, n + 1) && n > 0
    ensures n + 1 in TrimmedBook(PutOn(b, BestDeleted()), n).asks
  {
    var left := b.asks - {1};
    LadderSize(b.asks.Keys, n + 1);
    assert left.Keys == b.asks.Keys - {1};
    KeepsAll(left, Ask, n);
    assert n + 1 in left;
  }

  // ----- The feed -----

  function SnapshotOf(depth: nat): (m: Payload)
  {
    BookMessage(true, Ladder(depth + 1), ChecksumOf(TrimmedBook(AllPut(EMPTY, Ladder(depth + 1)), depth)))
  }

  function DeletionFrom(b: ChecksumBook, depth: nat): (m: Payload)
  {
    BookMessage(false, [BestDeleted()], ChecksumOf(TrimmedBook(AllPut(b, [BestDeleted()]), depth)))
  }

  lemma NoBidsUncrossed(b: ChecksumBook)
    requires b.bids == map[]
    ensures Uncrossed(Canon(b))
  {}

  lemma TrimsNoBids(b: ChecksumBook, n: nat)
    requires b.bids == map[]
    ensures TrimmedBook(b, n).bids == map[]
  {}

  lemma SnapshotIsAcceptable(depth: nat)
    requires depth < INT64_MAX
    ensures Acceptable(Ladder(depth + 1), SnapshotOf(depth).checksum, depth)
  {
    LadderIsReplaceable(depth + 1);
    LadderHeld(depth + 1);
    TrimsNoBids(AllPut(EMPTY, Ladder(depth + 1)), depth);
    NoBidsUncrossed(TrimmedBook(AllPut(EMPTY, Ladder(depth + 1)), depth));
  }

  lemma UpdateRuling(s: Store, changes: seq<Change>, checksum: bv32)
    requires s.book.state == Valid && AllConsistent(changes)
    ensures RulingOn(s, false, changes, checksum) == Verdict(TrimmedBook(AllPut(s.levels, changes), s.depth), checksum)
  {}

  lemma PutSingle(b: ChecksumBook, c: Change)
    ensures AllPut(b, [c]) == PutOn(b, c)
  {
    var u: seq<Change> := [c];
    assert u[..0] == [];
  }

  lemma TakesWhen(p: Processor, m: Payload, mono: int)
    requires m.BookMessage?
    ensures Takes(p, Op.Message(m, mono)) <==> RulingOn(p.store, m.snapshot, m.changes, m.checksum).Take?
  {
    ReceivedStore(p, mono);
  }

  lemma DeletionRuling(s: Store, checksum: bv32)
    requires s.book.state == Valid
    ensures RulingOn(s, false, [BestDeleted()], checksum) ==
            Verdict(TrimmedBook(AllPut(s.levels, [BestDeleted()]), s.depth), checksum)
  {
    DeletionIsConsistent();
    var changes: seq<Change> := [BestDeleted()];
    assert AllConsistent(changes);
    UpdateRuling(s, changes, checksum);
  }

  lemma DeletionVerdict(b: ChecksumBook, depth: nat)
    requires b.bids == map[]
    ensures Verdict(TrimmedBook(AllPut(b, [BestDeleted()]), depth), DeletionFrom(b, depth).checksum).Take?
  {
    var next := TrimmedBook(AllPut(b, [BestDeleted()]), depth);
    PutSingle(b, BestDeleted());
    TrimsNoBids(AllPut(b, [BestDeleted()]), depth);
    NoBidsUncrossed(next);
    VerdictTakes(next, ChecksumOf(next));
  }

  lemma DeletionIsTaken(p: Processor, mono: int)
    requires p.State() == Valid && p.store.levels.bids == map[]
    ensures Takes(p, Op.Message(DeletionFrom(p.store.levels, p.store.depth), mono))
  {
    var m := DeletionFrom(p.store.levels, p.store.depth);
    DeletionRuling(p.store, m.checksum);
    DeletionVerdict(p.store.levels, p.store.depth);
    TakesWhen(p, m, mono);
  }

  // ----- The processor on this feed -----

  function First(depth: nat, mono: int): (op: Op) { Op.Message(SnapshotOf(depth), mono) }

  /** The deletion from what the processor stored. */
  function Second(depth: nat, mono: int): (op: Op)
  {
    Op.Message(DeletionFrom(After(depth, [First(depth, mono)]).store.levels, depth), mono)
  }

  lemma TakenIsValid(p: Processor, m: Payload, mono: int)
    requires m.BookMessage? && Takes(p, Op.Message(m, mono))
    ensures Done(p, Op.Message(m, mono)).State() == Valid
  {
    ReceivedStore(p, mono);
    RuledStore(Received(p, mono), m, mono);
  }

  lemma SnapshotTaken(depth: nat, mono: int)
    requires depth < INT64_MAX
    ensures Takes(New(depth), Op.Message(SnapshotOf(depth), mono))
  {
    SnapshotIsAcceptable(depth);
    RulingOnSnapshot(New(depth).store, true, Ladder(depth + 1), SnapshotOf(depth).checksum);
    TakesWhen(New(depth), SnapshotOf(depth), mono);
  }

  lemma AfterSnapshot(depth: nat, mono: int)
    requires depth < INT64_MAX
    ensures var p := After(depth, [First(depth, mono)]);
            && p.State() == Valid && p.store.depth == depth
            && p.store.levels == TrimmedBook(AllPut(EMPTY, Ladder(depth + 1)), depth)
  {
    var ops: seq<Op> := [First(depth, mono)];
    assert ops[..0] == [];
    SnapshotTaken(depth, mono);
    TakenIsValid(New(depth), SnapshotOf(depth), mono);
    DoneLevels(New(depth), First(depth, mono));
    BooksStayInSync(depth, ops);
  }

  lemma DeletionTaken(depth: nat, mono: int)
    requires depth < INT64_MAX
    ensures Takes(After(depth, [First(depth, mono)]), Second(depth, mono))
  {
    AfterSnapshot(depth, mono);
    LadderHeld(depth + 1);
    TrimsNoBids(AllPut(EMPTY, Ladder(depth + 1)), depth);
    DeletionIsTaken(After(depth, [First(depth, mono)]), mono);
  }

  lemma SinceFirst(depth: nat, mono: int)
    requires depth < INT64_MAX
    ensures LastSnapshot(depth, [First(depth, mono)]) == Ladder(depth + 1)
    ensures UpdatesSince(depth, [First(depth, mono)]) == []
  {
    var ops: seq<Op> := [First(depth, mono)];
    assert ops[..0] == [];
    SnapshotTaken(depth, mono);
  }

  /** An accepted update is added to the ones since the snapshot. */
  lemma SinceUpdate(depth: nat, ops: seq<Op>, op: Op)
    requires Takes(After(depth, ops), op) && !op.payload.snapshot
    ensures LastSnapshot(depth, ops + [op]) == LastSnapshot(depth, ops)
    ensures UpdatesSince(depth, ops + [op]) == UpdatesSince(depth, ops) + [op.payload.changes]
    ensures After(depth, ops + [op]) == Done(After(depth, ops), op)
  {
    assert (ops + [op])[..|ops|] == ops;
  }

  lemma ShallowLacks(depth: nat)
    requires depth > 0
    ensures depth + 1 !in Shallow(Ladder(depth + 1), [[BestDeleted()]], depth).asks
    ensures depth + 1 in TrimmedBook(Deep(Ladder(depth + 1), [[BestDeleted()]]), depth).asks
  {
    var full := AllPut(EMPTY, Ladder(depth + 1));
    var u: seq<seq<Change>> := [[BestDeleted()]];
    assert u[..0] == [];
    LadderHeld(depth + 1);
    WorstIsCut(full, depth);
    WorstIsLeft(full, depth);
    PutSingle(TrimmedBook(full, depth), BestDeleted());
    PutSingle(full, BestDeleted());
  }

  /** The processor has taken both messages, its book is Valid, and it lacks a level of the best-depth prefix. */
  ghost predicate LostALevel(depth: nat, ops: seq<Op>)
  {
    var p := After(depth, ops);
    && p.State() == Valid
    && depth + 1 !in p.store.levels.asks
    && depth + 1 in TrimmedBook(Deep(LastSnapshot(depth, ops), UpdatesSince(depth, ops)), depth).asks
  }

  lemma LosesLevel(depth: nat, ops: seq<Op>)
    requires depth > 0 && After(depth, ops).State() == Valid
    requires LastSnapshot(depth, ops) == Ladder(depth + 1) && UpdatesSince(depth, ops) == [[BestDeleted()]]
    ensures LostALevel(depth, ops)
  {
    LevelsAreShallow(depth, ops);
    ShallowLacks(depth);
  }

  lemma DeletionLosesLevel(depth: nat, ops: seq<Op>, op: Op)
    requires depth > 0 && LastSnapshot(depth, ops) == Ladder(depth + 1) && UpdatesSince(depth, ops) == []
    requires Takes(After(depth, ops), op) && !op.payload.snapshot && op.payload.changes == [BestDeleted()]
    ensures LostALevel(depth, ops + [op])
  {
    SinceUpdate(depth, ops, op);
    TakenIsValid(After(depth, ops), op.payload, op.mono);
    LosesLevel(depth, ops + [op]);
  }

  lemma AnyDepthLoses(depth: nat, mono: int)
    requires 0 < depth < INT64_MAX
    ensures Takes(New(depth), First(depth, mono))
    ensures Takes(After(depth, [First(depth, mono)]), Second(depth, mono))
    ensures LostALevel(depth, [First(depth, mono)] + [Second(depth, mono)])
  {
    SnapshotTaken(depth, mono);
    DeletionTaken(depth, mono);
    SinceFirst(depth, mono);
    DeletionLosesLevel(depth, [First(depth, mono)], Second(depth, mono));
  }

  /** At every allowed depth there is a feed the processor accepts message by message, after which the book is Valid
      and lacks a level that the best-depth prefix of the untruncated book holds. */
  lemma DeletionLosesDepth(depth: nat, mono: int)
    requires AllowedDepth(depth)
    ensures Takes(New(depth), First(depth, mono))
    ensures Takes(After(depth, [First(depth, mono)]), Second(depth, mono))
    ensures LostALevel(depth, [First(depth, mono)] + [Second(depth, mono)])
  {
    AnyDepthLoses(depth, mono);
  }
}
