/** Canonical market events and the meaning of applying them, one at a time:
    include/core/market_event.hpp and the documented contract of include/core/order_book.hpp. */
module Market {
  import opened Base

  datatype Venue = Coinbase | Kraken

  datatype Side = Bid | Ask

  datatype BookState = Initializing | Valid | Stale | Resyncing | Disconnected | Invalid

  datatype BookLevel = BookLevel(side: Side, price: nat, quantity: nat)

  /** Price to quantity; the two std::map orders are given by Better. */
  type Levels = map<nat, nat>

  datatype Sides = Sides(bids: Levels, asks: Levels)
  {
    function On(side: Side): (l: Levels) { if side == Bid then bids else asks }
  }

  const NO_LEVELS: Sides := Sides(map[], map[])

  datatype MarketEvent =
    | Snapshot(venue: Venue, levels: seq<BookLevel>, sequence: Option<nat>)
    | Update(venue: Venue, levels: seq<BookLevel>, sequence: Option<nat>)

  /** The observable value of an OrderBook. */
  datatype Book = Book(venue: Venue, state: BookState, sides: Sides, lastSequence: Option<nat>)

  function NewBook(venue: Venue): (b: Book) { Book(venue, Initializing, NO_LEVELS, None) }

  // ----- Sequential meaning -----

  /** Quantities are absolute: a positive one replaces the level, zero deletes it. */
  function WithLevel(l: Levels, price: nat, quantity: nat): (r: Levels)
  {
    if quantity == 0 then l - {price} else l[price := quantity]
  }

  function Changed(s: Sides, c: BookLevel): (r: Sides)
  {
    if c.side == Bid then s.(bids := WithLevel(s.bids, c.price, c.quantity))
    else s.(asks := WithLevel(s.asks, c.price, c.quantity))
  }

  /** All changes in order. */
  function AllChanged(s: Sides, changes: seq<BookLevel>): (r: Sides)
  {
    if changes == [] then s else Changed(AllChanged(s, changes[..|changes| - 1]), changes[|changes| - 1])
  }

  predicate ValidUpdateLevels(levels: seq<BookLevel>)
  {
    forall i :: 0 <= i < |levels| ==> levels[i].price > 0
  }

  predicate ValidSnapshotLevels(levels: seq<BookLevel>)
  {
    forall i :: 0 <= i < |levels| ==> levels[i].price > 0 && levels[i].quantity > 0
  }

  predicate SameKey(a: BookLevel, b: BookLevel) { a.side == b.side && a.price == b.price }

  /** No two levels share a side and a price. */
  predicate DistinctKeys(levels: seq<BookLevel>)
  {
    forall i, j :: 0 <= i < j < |levels| ==> !SameKey(levels[i], levels[j])
  }

  /** One event, or None when it is rejected. */
  function Applied(b: Book, e: MarketEvent): (r: Option<Book>)
  {
    match e
    case Snapshot(venue, levels, sequence) =>
      if venue != b.venue || !ValidSnapshotLevels(levels) || !DistinctKeys(levels) then None
      else Some(b.(state := Valid, sides := AllChanged(NO_LEVELS, levels), lastSequence := sequence))
    case Update(venue, changes, sequence) =>
      if b.state != Valid || venue != b.venue || !ValidUpdateLevels(changes) then None
      else Some(b.(sides := AllChanged(b.sides, changes), lastSequence := sequence))
  }

  /** All events one by one; one rejection rejects them all. */
  function AllApplied(b: Book, events: seq<MarketEvent>): (r: Option<Book>)
  {
    if events == [] then Some(b)
    else
      match AllApplied(b, events[..|events| - 1])
      case None => None
      case Some(c) => Applied(c, events[|events| - 1])
  }

  // ----- Positive levels -----

  predicate PositiveLevels(l: Levels) { forall p :: p in l ==> p > 0 && l[p] > 0 }

  predicate PositiveSides(s: Sides) { PositiveLevels(s.bids) && PositiveLevels(s.asks) }

  lemma {:induction false} ChangesStayPositive(s: Sides, changes: seq<BookLevel>)
    requires PositiveSides(s) && ValidUpdateLevels(changes)
    ensures PositiveSides(AllChanged(s, changes))
  {
    if changes != [] {
      ChangesStayPositive(s, changes[..|changes| - 1]);
    }
  }

  /** Every price and quantity a book stores is positive, whatever events it accepts. */
  lemma {:induction false} BooksStayPositive(b: Book, events: seq<MarketEvent>)
    requires PositiveSides(b.sides) && AllApplied(b, events).Some?
    ensures PositiveSides(AllApplied(b, events).value.sides)
  {
    if events != [] {
      var before := AllApplied(b, events[..|events| - 1]).value;
      BooksStayPositive(b, events[..|events| - 1]);
      var e := events[|events| - 1];
      ChangesStayPositive(if e.Snapshot? then NO_LEVELS else before.sides, e.levels);
    }
  }

  /** A rejected event leaves nothing behind, and a prefix of an accepted list is accepted. */
  lemma {:induction false} PrefixAccepted(b: Book, events: seq<MarketEvent>, n: nat)
    requires n <= |events| && AllApplied(b, events).Some?
    ensures AllApplied(b, events[..n]).Some?
    decreases |events|
  {
    if n < |events| {
      assert events[..|events| - 1][..n] == events[..n];
      PrefixAccepted(b, events[..|events| - 1], n);
    } else {
      assert events[..n] == events;
    }
  }

  // ----- Last write wins: a book as a function of its change list -----

  /** The quantity of the last change at a side and price; zero when there is none. */
  function LastQuantity(changes: seq<BookLevel>, side: Side, price: nat): (q: nat)
  {
    if changes == [] then 0
    else
      var c := changes[|changes| - 1];
      if c.side == side && c.price == price then c.quantity
      else LastQuantity(changes[..|changes| - 1], side, price)
  }

  /** Exactly the prices whose last change is positive are stored, at that quantity. */
  ghost predicate HoldsLastWrites(s: Sides, changes: seq<BookLevel>)
  {
    forall side, price :: (price in s.On(side) <==> LastQuantity(changes, side, price) > 0) &&
      (price in s.On(side) ==> s.On(side)[price] == LastQuantity(changes, side, price))
  }

  lemma {:induction false} ChangesAreLastWrites(changes: seq<BookLevel>)
    ensures HoldsLastWrites(AllChanged(NO_LEVELS, changes), changes)
  {
    if changes != [] {
      ChangesAreLastWrites(changes[..|changes| - 1]);
      var before := AllChanged(NO_LEVELS, changes[..|changes| - 1]);
      var after := AllChanged(NO_LEVELS, changes);
      forall side, price: nat
        ensures (price in after.On(side) <==> LastQuantity(changes, side, price) > 0) &&
                (price in after.On(side) ==> after.On(side)[price] == LastQuantity(changes, side, price))
      {
        assert (price in before.On(side) <==> LastQuantity(changes[..|changes| - 1], side, price) > 0);
      }
    }
  }

  lemma {:induction false} ChangesConcat(s: Sides, a: seq<BookLevel>, b: seq<BookLevel>)
    ensures AllChanged(s, a + b) == AllChanged(AllChanged(s, a), b)
  {
    if b == [] {
      assert a + b == a;
    } else {
      assert (a + b)[..|a + b| - 1] == a + b[..|b| - 1];
      ChangesConcat(s, a, b[..|b| - 1]);
    }
  }

  // ----- Price order -----

  /** Map order of a side: bids descend, asks ascend. */
  predicate Better(side: Side, p: nat, q: nat) { if side == Bid then p > q else p < q }

  predicate IsBest(side: Side, prices: set<nat>, p: nat)
  {
    p in prices && forall q :: q in prices && q != p ==> Better(side, p, q)
  }

  lemma {:induction false} BestExists(side: Side, prices: set<nat>) returns (best: nat)
    requires prices != {}
    ensures IsBest(side, prices, best)
    decreases prices
  {
    var x :| x in prices;
    var rest := prices - {x};
    if rest == {} {
      best := x;
      assert forall q :: q in prices ==> q == x || q in rest;
    } else {
      var p := BestExists(side, rest);
      best := if Better(side, x, p) then x else p;
      assert forall q :: q in prices ==> q == x || q in rest;
    }
  }

  /** The first key of the side's map. */
  function Best(side: Side, prices: set<nat>): (p: nat)
    requires prices != {}
    ensures IsBest(side, prices, p)
  {
    assert exists p :: IsBest(side, prices, p) by { var p := BestExists(side, prices); }
    var p :| p in prices && IsBest(side, prices, p);
    p
  }

  /** What best_bid and best_ask expose: nothing unless the book is Valid. */
  function BestLevel(b: Book, side: Side): (r: Option<BookLevel>)
  {
    var l := b.sides.On(side);
    if b.state != Valid || l == map[] then None
    else
      assert l.Keys != {};
      var p := Best(side, l.Keys);
      Some(BookLevel(side, p, l[p]))
  }

  /** The exposed level is stored and no stored price on its side is better; a non-Valid book exposes none. */
  lemma BestLevelIsBest(b: Book, side: Side)
    ensures BestLevel(b, side).Some? <==> b.state == Valid && b.sides.On(side) != map[]
    ensures BestLevel(b, side).Some? ==>
              var v := BestLevel(b, side).value;
              && v.side == side && v.price in b.sides.On(side) && b.sides.On(side)[v.price] == v.quantity
              && forall q :: q in b.sides.On(side) ==> !Better(side, q, v.price)
  {}
}
