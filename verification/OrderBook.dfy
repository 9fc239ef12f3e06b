/** The order book with its staging fast path: src/core/order_book.cpp. */
module OrderBooks {
  import opened Base
  import opened Market

  // ----- Staging: touched prices only, zero quantities kept as tombstones -----

  function StagedOne(s: Sides, c: BookLevel): (r: Sides)
  {
    if c.side == Bid then s.(bids := s.bids[c.price := c.quantity]) else s.(asks := s.asks[c.price := c.quantity])
  }

  function Staged(s: Sides, changes: seq<BookLevel>): (r: Sides)
  {
    if changes == [] then s else StagedOne(Staged(s, changes[..|changes| - 1]), changes[|changes| - 1])
  }

  /** Stored levels with staged ones written over them, tombstones deleting. */
  function Committed(l: Levels, staged: Levels): (r: Levels)
    ensures forall p :: p in r <==> if p in staged then staged[p] != 0 else p in l
    ensures forall p :: p in r ==> r[p] == if p in staged then staged[p] else l[p]
  {
    map p | p in l.Keys + staged.Keys && (p in staged ==> staged[p] != 0) :: if p in staged then staged[p] else l[p]
  }

  function CommittedSides(s: Sides, staged: Sides): (r: Sides)
  {
    Sides(Committed(s.bids, staged.bids), Committed(s.asks, staged.asks))
  }

  lemma CommitOneLevel(l: Levels, staged: Levels, price: nat, quantity: nat)
    ensures Committed(l, staged[price := quantity]) == WithLevel(Committed(l, staged), price, quantity)
  {
    var a, b := Committed(l, staged[price := quantity]), WithLevel(Committed(l, staged), price, quantity);
    assert forall p :: p in a <==> p in b;
    assert forall p :: p in a ==> a[p] == b[p];
  }

  lemma CommitOne(s: Sides, staged: Sides, c: BookLevel)
    ensures CommittedSides(s, StagedOne(staged, c)) == Changed(CommittedSides(s, staged), c)
  {
    CommitOneLevel(s.On(c.side), staged.On(c.side), c.price, c.quantity);
  }

  /** Staging then committing is applying the changes one by one. */
  lemma {:induction false} CommitIsSequential(s: Sides, staged: Sides, changes: seq<BookLevel>)
    ensures CommittedSides(s, Staged(staged, changes)) == AllChanged(CommittedSides(s, staged), changes)
  {
    if changes != [] {
      CommitIsSequential(s, staged, changes[..|changes| - 1]);
      CommitOne(s, Staged(staged, changes[..|changes| - 1]), changes[|changes| - 1]);
    }
  }

  lemma CommitNothing(s: Sides)
    ensures CommittedSides(s, NO_LEVELS) == s
  {
    assert CommittedSides(s, NO_LEVELS).bids == s.bids;
    assert CommittedSides(s, NO_LEVELS).asks == s.asks;
  }

  method StageUpdate(update: MarketEvent, venue: Venue, bids: Levels, asks: Levels)
    returns (ok: bool, newBids: Levels, newAsks: Levels)
    requires update.Update?
    ensures ok <==> update.venue == venue && ValidUpdateLevels(update.levels)
    ensures ok ==> Sides(newBids, newAsks) == Staged(Sides(bids, asks), update.levels)
  {
    newBids, newAsks := bids, asks;
    if update.venue != venue {
      return false, newBids, newAsks;
    }
    for i := 0 to |update.levels|
      invariant ValidUpdateLevels(update.levels[..i])
      invariant Sides(newBids, newAsks) == Staged(Sides(bids, asks), update.levels[..i])
    {
      var change := update.levels[i];
      if change.price == 0 {
        return false, newBids, newAsks;
      }
      assert update.levels[..i + 1][..i] == update.levels[..i];
      if change.side == Bid {
        newBids := newBids[change.price := change.quantity];
      } else {
        newAsks := newAsks[change.price := change.quantity];
      }
    }
    assert update.levels[..|update.levels|] == update.levels;
    ok := true;
  }

  /** Move the staged nodes over, whatever order they are taken in. */
  method CommitChanges(levels: Levels, changes: Levels) returns (r: Levels)
    ensures r == Committed(levels, changes)
  {
    r := levels;
    var left := changes;
    while left.Keys != {}
      invariant Committed(r, left) == Committed(levels, changes)
      decreases left.Keys
    {
      var p :| p in left.Keys;
      MoveOne(r, left, p);
      r := Move(r, p, left[p]);
      left := left - {p};
    }
    assert left == map[];
  }

  /** Erase, overwrite or insert one level. */
  method Move(levels: Levels, price: nat, quantity: nat) returns (r: Levels)
    ensures r == WithLevel(levels, price, quantity)
  {
    if quantity == 0 {
      r := levels - {price};
    } else {
      r := levels[price := quantity];
    }
  }

  lemma MoveOne(l: Levels, staged: Levels, p: nat)
    requires p in staged
    ensures Committed(WithLevel(l, p, staged[p]), staged - {p}) == Committed(l, staged)
  {
    var a, b := Committed(WithLevel(l, p, staged[p]), staged - {p}), Committed(l, staged);
    assert forall q :: q in a <==> q in b;
    assert forall q :: q in a ==> a[q] == b[q];
  }

  class OrderBook {
    const venue: Venue
    var state: BookState
    var bids: Levels
    var asks: Levels
    var lastSequence: Option<nat>

    ghost function Value(): (b: Book)
      reads this
    {
      Book(venue, state, Sides(bids, asks), lastSequence)
    }

    constructor (venue: Venue)
      ensures Value() == NewBook(venue)
    {
      this.venue := venue;
      state, bids, asks, lastSequence := Initializing, map[], map[], None;
    }

    method Mark(s: BookState)
      requires s != Valid
      modifies this
      ensures Value() == old(Value()).(state := s)
    {
      state := s;
    }

    /** Accepted exactly when sequential application accepts it; otherwise nothing changes. */
    method ApplySnapshot(e: MarketEvent) returns (ok: bool)
      requires e.Snapshot?
      modifies this
      ensures ok <==> Applied(old(Value()), e).Some?
      ensures Value() == if ok then Applied(old(Value()), e).value else old(Value())
    {
      if e.venue != venue {
        return false;
      }
      var newBids: Levels, newAsks: Levels := map[], map[];
      for i := 0 to |e.levels|
        invariant Value() == old(Value())
        invariant ValidSnapshotLevels(e.levels[..i]) && DistinctKeys(e.levels[..i])
        invariant Sides(newBids, newAsks) == AllChanged(NO_LEVELS, e.levels[..i])
      {
        var level := e.levels[i];
        if level.price == 0 || level.quantity == 0 {
          return false;
        }
        TakenIsListed(e.levels, i);
        var taken := if level.side == Bid then level.price in newBids else level.price in newAsks;
        if taken {
          return false;
        }
        if level.side == Bid {
          newBids := newBids[level.price := level.quantity];
        } else {
          newAsks := newAsks[level.price := level.quantity];
        }
      }
      assert e.levels[..|e.levels|] == e.levels;
      bids, asks, lastSequence, state := newBids, newAsks, e.sequence, Valid;
      ok := true;
    }

    /** Accepted exactly when sequential application accepts it; otherwise nothing changes. */
    method ApplyUpdate(e: MarketEvent) returns (ok: bool)
      requires e.Update?
      modifies this
      ensures ok <==> Applied(old(Value()), e).Some?
      ensures Value() == if ok then Applied(old(Value()), e).value else old(Value())
    {
      if state != Valid {
        return false;
      }
      var staged, newBids, newAsks := StageUpdate(e, venue, map[], map[]);
      if !staged {
        return false;
      }
      CommitNothing(Sides(bids, asks));
      CommitIsSequential(Sides(bids, asks), NO_LEVELS, e.levels);
      bids := CommitChanges(bids, newBids);
      asks := CommitChanges(asks, newAsks);
      lastSequence := e.sequence;
      ok := true;
    }

    method Apply(e: MarketEvent) returns (ok: bool)
      modifies this
      ensures ok <==> Applied(old(Value()), e).Some?
      ensures Value() == if ok then Applied(old(Value()), e).value else old(Value())
    {
      if e.Snapshot? {
        ok := ApplySnapshot(e);
      } else {
        ok := ApplyUpdate(e);
      }
    }

    /** A batch is all or nothing, and equals applying its events one by one, on both code paths. */
    method ApplyEvents(events: seq<MarketEvent>) returns (ok: bool)
      modifies this
      ensures ok <==> AllApplied(old(Value()), events).Some?
      ensures Value() == if ok then AllApplied(old(Value()), events).value else old(Value())
    {
      if events == [] {
        return true;
      }
      for i := 0 to |events|
        invariant Value() == old(Value())
        invariant forall k :: 0 <= k < i ==> events[k].Update?
      {
        if events[i].Snapshot? {
          ok := ApplyTransaction(events);
          return;
        }
      }
      ok := ApplyUpdates(events);
    }

    /** The snapshot path: a staged copy replaces the book only after every event is accepted. */
    method ApplyTransaction(events: seq<MarketEvent>) returns (ok: bool)
      modifies this
      ensures ok <==> AllApplied(old(Value()), events).Some?
      ensures Value() == if ok then AllApplied(old(Value()), events).value else old(Value())
    {
      var staged := new OrderBook(venue);
      staged.state, staged.bids, staged.asks, staged.lastSequence := state, bids, asks, lastSequence;
      for i := 0 to |events|
        invariant Value() == old(Value()) && staged.venue == venue
        invariant AllApplied(Value(), events[..i]) == Some(staged.Value())
      {
        assert events[..i + 1][..i] == events[..i];
        var accepted := staged.Apply(events[i]);
        if !accepted {
          RejectedPrefix(Value(), events, i + 1);
          return false;
        }
      }
      assert events[..|events|] == events;
      state, bids, asks, lastSequence := staged.state, staged.bids, staged.asks, staged.lastSequence;
      ok := true;
    }

    /** The fast path: stage every update, then commit once. */
    method ApplyUpdates(events: seq<MarketEvent>) returns (ok: bool)
      requires events != [] && forall k :: 0 <= k < |events| ==> events[k].Update?
      modifies this
      ensures ok <==> AllApplied(old(Value()), events).Some?
      ensures Value() == if ok then AllApplied(old(Value()), events).value else old(Value())
    {
      if state != Valid {
        RejectedPrefix(Value(), events, 1);
        return false;
      }
      var newBids: Levels, newAsks: Levels := map[], map[];
      ghost var s := Sides(bids, asks);
      CommitNothing(s);
      for i := 0 to |events|
        invariant Value() == old(Value()) && s == Sides(bids, asks)
        invariant AllApplied(Value(), events[..i]).Some?
        invariant i > 0 ==> AllApplied(Value(), events[..i]).value ==
                            Value().(sides := CommittedSides(s, Sides(newBids, newAsks)),
                                     lastSequence := events[i - 1].sequence)
        invariant i == 0 ==> newBids == map[] && newAsks == map[]
      {
        assert events[..i + 1][..i] == events[..i];
        CommitIsSequential(s, Sides(newBids, newAsks), events[i].levels);
        ok, newBids, newAsks := StageUpdate(events[i], venue, newBids, newAsks);
        if !ok {
          RejectedPrefix(Value(), events, i + 1);
          return;
        }
      }
      assert events[..|events|] == events;
      bids := CommitChanges(bids, newBids);
      asks := CommitChanges(asks, newAsks);
      lastSequence := events[|events| - 1].sequence;
      ok := true;
    }
  }

  /** An insertion is refused exactly when an earlier level of the snapshot has the same side and price. */
  lemma TakenIsListed(levels: seq<BookLevel>, i: nat)
    requires i < |levels| && ValidSnapshotLevels(levels[..i]) && DistinctKeys(levels[..i])
    ensures levels[..i + 1][..i] == levels[..i]
    ensures levels[i].price in AllChanged(NO_LEVELS, levels[..i]).On(levels[i].side) <==> !DistinctKeys(levels[..i + 1])
    ensures !DistinctKeys(levels[..i + 1]) ==> !DistinctKeys(levels)
  {
    var before, c := levels[..i], levels[i];
    assert levels[..i + 1] == before + [c];
    ChangesAreLastWrites(before);
    LastQuantityListed(before, c.side, c.price);
    if LastQuantity(before, c.side, c.price) == 0 {
      assert forall k :: 0 <= k < i ==> !SameKey(before[k], c);
    } else {
      var k :| 0 <= k < i && before[k].side == c.side && before[k].price == c.price;
      assert SameKey(levels[..i + 1][k], levels[..i + 1][i]);
      assert SameKey(levels[k], levels[i]);
    }
  }

  lemma {:induction false} LastQuantityListed(levels: seq<BookLevel>, side: Side, price: nat)
    requires ValidSnapshotLevels(levels)
    ensures LastQuantity(levels, side, price) > 0 <==>
            exists k :: 0 <= k < |levels| && levels[k].side == side && levels[k].price == price
  {
    if levels != [] {
      var n := |levels| - 1;
      LastQuantityListed(levels[..n], side, price);
      if LastQuantity(levels[..n], side, price) > 0 {
        var k :| 0 <= k < n && levels[..n][k].side == side && levels[..n][k].price == price;
        assert levels[k].side == side && levels[k].price == price;
      }
      if k :| 0 <= k < n && levels[k].side == side && levels[k].price == price {
        assert levels[..n][k].side == side && levels[..n][k].price == price;
      }
    }
  }

  lemma RejectedPrefix(b: Book, events: seq<MarketEvent>, n: nat)
    requires n <= |events| && AllApplied(b, events[..n]).None?
    ensures AllApplied(b, events).None?
  {
    if AllApplied(b, events).Some? {
      PrefixAccepted(b, events, n);
    }
  }
}
