/** The checksum book: src/adapters/kraken/kraken_checksum.cpp. It keeps the lexemes of every level, in the same
    price order as the canonical book. */
module KrakenBook {
  import opened Base
  import opened Market
  import opened PriceOrder
  import opened Crc32
  import FixedPoint
  import KrakenNumber

  datatype Change = Change(side: Side, price: nat, quantity: nat, priceLexeme: string, quantityLexeme: string)

  type Lexemes = map<nat, Change>

  datatype ChecksumBook = ChecksumBook(bids: Lexemes, asks: Lexemes)
  {
    function On(side: Side): (l: Lexemes) { if side == Bid then bids else asks }
  }

  const EMPTY: ChecksumBook := ChecksumBook(map[], map[])

  const PRICE_SCALE: int := 2
  const QUANTITY_SCALE: int := 8

  /** The number a lexeme denotes at a scale, in ticks or atoms. */
  function Lexed(token: string, scale: int): (r: Option<int>)
  {
    match KrakenNumber.Expanded(token)
    case None => None
    case Some(text) =>
      match FixedPoint.Parse(text, scale)
      case Ok(raw) => Some(raw as int)
      case _ => None
  }

  /** The lexemes say what the numbers say. */
  predicate Consistent(c: Change)
  {
    && c.price > 0 && Lexed(c.priceLexeme, PRICE_SCALE) == Some(c.price)
    && Lexed(c.quantityLexeme, QUANTITY_SCALE) == Some(c.quantity)
  }

  // ----- Changes -----

  function Put(l: Lexemes, c: Change): (r: Lexemes)
  {
    if c.quantity == 0 then l - {c.price} else l[c.price := c]
  }

  function PutOn(b: ChecksumBook, c: Change): (r: ChecksumBook)
  {
    if c.side == Bid then b.(bids := Put(b.bids, c)) else b.(asks := Put(b.asks, c))
  }

  function AllPut(b: ChecksumBook, changes: seq<Change>): (r: ChecksumBook)
  {
    if changes == [] then b else PutOn(AllPut(b, changes[..|changes| - 1]), changes[|changes| - 1])
  }

  predicate AllConsistent(changes: seq<Change>)
  {
    forall i {:trigger Consistent(changes[i])} :: 0 <= i < |changes| ==> Consistent(changes[i])
  }

  predicate AllPositive(changes: seq<Change>) { forall i :: 0 <= i < |changes| ==> changes[i].quantity > 0 }

  predicate SameSlot(c: Change, d: Change) { c.side == d.side && c.price == d.price }

  predicate DistinctSlots(changes: seq<Change>)
  {
    forall i, j :: 0 <= i < j < |changes| ==> !SameSlot(changes[i], changes[j])
  }

  lemma DistinctSnoc(first: seq<Change>, last: Change)
    ensures DistinctSlots(first + [last]) <==>
            DistinctSlots(first) && forall k :: 0 <= k < |first| ==> !SameSlot(first[k], last)
  {
    var all := first + [last];
    assert all[|first|] == last && forall k :: 0 <= k < |first| ==> all[k] == first[k];
  }

  /** A snapshot is accepted when its levels are consistent, positive and at distinct prices. */
  predicate Replaceable(changes: seq<Change>)
  {
    AllConsistent(changes) && AllPositive(changes) && DistinctSlots(changes)
  }

  /** The change is a positive level of this side and price, and its lexemes denote it. */
  predicate Fits(c: Change, side: Side, price: nat)
  {
    c.side == side && c.price == price && c.quantity > 0 && Consistent(c)
  }

  predicate ProperSide(l: Lexemes, side: Side)
  {
    forall p {:trigger Fits(l[p], side, p)} :: p in l ==> Fits(l[p], side, p)
  }

  /** Every level sits at its own side and price. */
  predicate Proper(b: ChecksumBook) { ProperSide(b.bids, Bid) && ProperSide(b.asks, Ask) }

  lemma PutKeepsProperSide(l: Lexemes, c: Change)
    requires ProperSide(l, c.side) && Consistent(c)
    ensures ProperSide(Put(l, c), c.side)
  {
    var r := Put(l, c);
    forall p | p in r
      ensures Fits(r[p], c.side, p)
    {
      if p == c.price {
        assert r[p] == c;
      } else {
        assert Fits(l[p], c.side, p);
      }
    }
  }

  lemma PutKeepsProper(b: ChecksumBook, c: Change)
    requires Proper(b) && Consistent(c)
    ensures Proper(PutOn(b, c))
  {
    PutKeepsProperSide(b.On(c.side), c);
  }

  lemma {:induction false} AllPutProper(b: ChecksumBook, changes: seq<Change>)
    requires Proper(b) && AllConsistent(changes)
    ensures Proper(AllPut(b, changes))
  {
    if changes != [] {
      AllPutProper(b, changes[..|changes| - 1]);
      PutKeepsProper(AllPut(b, changes[..|changes| - 1]), changes[|changes| - 1]);
    }
  }

  // ----- Depth -----

  function Trimmed(l: Lexemes, side: Side, n: nat): (r: Lexemes)
  {
    var kept := Kept(side, l.Keys, n);
    map p | p in l && p in kept :: l[p]
  }

  function TrimmedBook(b: ChecksumBook, n: nat): (r: ChecksumBook)
  {
    ChecksumBook(Trimmed(b.bids, Bid, n), Trimmed(b.asks, Ask, n))
  }

  lemma TrimmedKeys(l: Lexemes, side: Side, n: nat)
    ensures Trimmed(l, side, n).Keys == Kept(side, l.Keys, n) && |Trimmed(l, side, n)| <= n
  {
    KeptIsTop(side, l.Keys, n);
    assert Trimmed(l, side, n).Keys == Kept(side, l.Keys, n);
    assert |Trimmed(l, side, n)| == |Trimmed(l, side, n).Keys|;
  }

  lemma TrimKeepsProperSide(l: Lexemes, side: Side, n: nat)
    requires ProperSide(l, side)
    ensures ProperSide(Trimmed(l, side, n), side)
  {
    var r := Trimmed(l, side, n);
    forall p | p in r
      ensures Fits(r[p], side, p)
    {
      assert Fits(l[p], side, p);
    }
  }

  lemma TrimKeepsProper(b: ChecksumBook, n: nat)
    requires Proper(b)
    ensures Proper(TrimmedBook(b, n))
  {
    TrimKeepsProperSide(b.bids, Bid, n);
    TrimKeepsProperSide(b.asks, Ask, n);
  }

  // ----- The checksum -----

  const CHECKSUM_LEVELS: nat := 10

  function DigitsOrNothing(token: string): (s: string)
  {
    match KrakenNumber.ChecksumDigits(token) case None => "" case Some(digits) => digits
  }

  function DigitsOf(c: Change): (s: string) { DigitsOrNothing(c.priceLexeme) + DigitsOrNothing(c.quantityLexeme) }

  /** The digits of the levels at these prices, in this order. */
  function Text(l: Lexemes, prices: seq<nat>): (s: string)
    requires forall p :: p in prices ==> p in l
  {
    if prices == [] then "" else Text(l, prices[..|prices| - 1]) + DigitsOf(l[prices[|prices| - 1]])
  }

  /** The prices of a side that enter the checksum. */
  function TopTen(l: Lexemes, side: Side): (s: seq<nat>)
    ensures forall p :: p in s ==> p in l
  {
    assert forall p :: p in Listing(side, l.Keys) ==> p in SetOf(Listing(side, l.Keys));
    Take(Listing(side, l.Keys), CHECKSUM_LEVELS)
  }

  /** CRC-32 of the digits of the ten best asks, then of the ten best bids. */
  function ChecksumOf(b: ChecksumBook): (crc: bv32)
  {
    Crc(Text(b.asks, TopTen(b.asks, Ask)) + Text(b.bids, TopTen(b.bids, Bid)))
  }

  lemma {:induction false} TextAgrees(l: Lexemes, m: Lexemes, prices: seq<nat>)
    requires forall p :: p in prices ==> p in l && p in m && l[p] == m[p]
    ensures Text(l, prices) == Text(m, prices)
  {
    if prices != [] {
      TextAgrees(l, m, prices[..|prices| - 1]);
    }
  }

  lemma TakeTake<T>(s: seq<T>, n: nat, m: nat)
    requires m <= n
    ensures Take(Take(s, n), m) == Take(s, m)
  {}

  lemma TrimKeepsTopTen(l: Lexemes, side: Side, n: nat)
    requires n >= CHECKSUM_LEVELS
    ensures TopTen(Trimmed(l, side, n), side) == TopTen(l, side)
  {
    TrimmedKeys(l, side, n);
    ListingOfKept(side, l.Keys, n);
    TakeTake(Listing(side, l.Keys), n, CHECKSUM_LEVELS);
  }

  lemma TrimKeepsText(l: Lexemes, side: Side, n: nat)
    requires n >= CHECKSUM_LEVELS
    ensures Text(Trimmed(l, side, n), TopTen(Trimmed(l, side, n), side)) == Text(l, TopTen(l, side))
  {
    TrimKeepsTopTen(l, side, n);
    TextAgrees(Trimmed(l, side, n), l, TopTen(l, side));
  }

  /** Trimming to any depth of ten or more leaves the checksum alone. */
  lemma TrimKeepsChecksum(b: ChecksumBook, n: nat)
    requires n >= CHECKSUM_LEVELS
    ensures ChecksumOf(TrimmedBook(b, n)) == ChecksumOf(b)
  {
    TrimKeepsText(b.asks, Ask, n);
    TrimKeepsText(b.bids, Bid, n);
  }

  // ----- Canonical levels -----

  function Quantities(l: Lexemes): (r: Levels) { map p | p in l :: l[p].quantity }

  /** The levels without their lexemes. */
  function Canon(b: ChecksumBook): (s: Sides) { Sides(Quantities(b.bids), Quantities(b.asks)) }

  function LevelList(l: Lexemes, prices: seq<nat>): (s: seq<BookLevel>)
    requires forall p :: p in prices ==> p in l
    ensures |s| == |prices|
    ensures forall i :: 0 <= i < |s| ==> s[i] == BookLevel(l[prices[i]].side, prices[i], l[prices[i]].quantity)
  {
    seq(|prices|, i requires 0 <= i < |prices| => BookLevel(l[prices[i]].side, prices[i], l[prices[i]].quantity))
  }

  function Prices(l: Lexemes, side: Side): (s: seq<nat>)
    ensures Sorted(side, s) && forall p :: p in s <==> p in l
  {
    var s := Listing(side, l.Keys);
    assert forall p :: p in s <==> p in SetOf(s);
    s
  }

  /** Bids from best to worst, then asks. */
  function LevelsOf(b: ChecksumBook): (s: seq<BookLevel>)
  {
    LevelList(b.bids, Prices(b.bids, Bid)) + LevelList(b.asks, Prices(b.asks, Ask))
  }

  predicate Sits(c: Change, side: Side, price: nat) { c.side == side && c.price == price > 0 && c.quantity > 0 }

  /** As ProperSide, but without the lexemes. */
  predicate Seated(l: Lexemes, side: Side) { forall p :: p in l ==> Sits(l[p], side, p) }

  lemma ProperIsSeated(l: Lexemes, side: Side)
    requires ProperSide(l, side)
    ensures Seated(l, side)
  {
    forall p | p in l
      ensures Sits(l[p], side, p)
    {
      assert Fits(l[p], side, p);
    }
  }

  function WithSide(s: Sides, side: Side, l: Levels): (r: Sides)
  {
    if side == Bid then s.(bids := l) else s.(asks := l)
  }

  function Listed(l: Lexemes, prices: seq<nat>): (r: Levels) { map p | p in l && p in prices :: l[p].quantity }

  lemma ListedMore(before: Levels, l: Lexemes, first: seq<nat>, last: nat)
    requires last in l
    ensures (before + Listed(l, first))[last := l[last].quantity] == before + Listed(l, first + [last])
  {}

  lemma ListGrows(s: Sides, l: Lexemes, prices: seq<nat>)
    requires prices != [] && forall p :: p in prices ==> p in l
    ensures var first, last := prices[..|prices| - 1], prices[|prices| - 1];
            AllChanged(s, LevelList(l, prices)) ==
            Changed(AllChanged(s, LevelList(l, first)), BookLevel(l[last].side, last, l[last].quantity))
  {
    assert LevelList(l, prices)[..|prices| - 1] == LevelList(l, prices[..|prices| - 1]);
  }

  lemma {:induction false} ListApplied(s: Sides, l: Lexemes, side: Side, prices: seq<nat>)
    requires Seated(l, side) && forall p :: p in prices ==> p in l
    ensures AllChanged(s, LevelList(l, prices)) == WithSide(s, side, s.On(side) + Listed(l, prices))
  {
    if prices == [] {
      assert s.On(side) + Listed(l, prices) == s.On(side);
    } else {
      var first, last := prices[..|prices| - 1], prices[|prices| - 1];
      ListApplied(s, l, side, first);
      ListGrows(s, l, prices);
      assert Sits(l[last], side, last);
      ListedMore(s.On(side), l, first, last);
      assert prices == first + [last];
    }
  }

  lemma ListIsValid(l: Lexemes, side: Side)
    requires Seated(l, side)
    ensures ValidSnapshotLevels(LevelList(l, Prices(l, side))) && DistinctKeys(LevelList(l, Prices(l, side)))
    ensures forall i :: 0 <= i < |Prices(l, side)| ==> LevelList(l, Prices(l, side))[i].side == side
  {
    var prices := Prices(l, side);
    forall i | 0 <= i < |prices|
      ensures Sits(l[prices[i]], side, prices[i])
    {
      assert prices[i] in prices;
    }
  }

  lemma BothListsAreValid(bids: seq<BookLevel>, asks: seq<BookLevel>)
    requires ValidSnapshotLevels(bids) && ValidSnapshotLevels(asks) && DistinctKeys(bids) && DistinctKeys(asks)
    requires forall i :: 0 <= i < |bids| ==> bids[i].side == Bid
    requires forall i :: 0 <= i < |asks| ==> asks[i].side == Ask
    ensures ValidSnapshotLevels(bids + asks) && DistinctKeys(bids + asks)
  {}

  lemma AllListed(l: Lexemes, side: Side)
    ensures map[] + Listed(l, Prices(l, side)) == Quantities(l)
  {}

  /** The level list of a proper book is always an acceptable snapshot, and applying it gives the same levels. */
  lemma LevelsAreSnapshot(b: ChecksumBook)
    requires Proper(b)
    ensures Applied(NewBook(Venue.Kraken), Snapshot(Venue.Kraken, LevelsOf(b), None)) ==
            Some(Book(Venue.Kraken, Valid, Canon(b), None))
  {
    ProperIsSeated(b.bids, Bid);
    ProperIsSeated(b.asks, Ask);
    SeatedLevelsAreSnapshot(b);
  }

  lemma SeatedLevelsAreSnapshot(b: ChecksumBook)
    requires Seated(b.bids, Bid) && Seated(b.asks, Ask)
    ensures Applied(NewBook(Venue.Kraken), Snapshot(Venue.Kraken, LevelsOf(b), None)) ==
            Some(Book(Venue.Kraken, Valid, Canon(b), None))
  {
    ListIsValid(b.bids, Bid);
    ListIsValid(b.asks, Ask);
    BothListsAreValid(LevelList(b.bids, Prices(b.bids, Bid)), LevelList(b.asks, Prices(b.asks, Ask)));
    LevelsFold(b);
  }

  lemma LevelsFold(b: ChecksumBook)
    requires Seated(b.bids, Bid) && Seated(b.asks, Ask)
    ensures AllChanged(NO_LEVELS, LevelsOf(b)) == Canon(b)
  {
    var bids, asks := LevelList(b.bids, Prices(b.bids, Bid)), LevelList(b.asks, Prices(b.asks, Ask));
    ChangesConcat(NO_LEVELS, bids, asks);
    ListApplied(NO_LEVELS, b.bids, Bid, Prices(b.bids, Bid));
    ListApplied(AllChanged(NO_LEVELS, bids), b.asks, Ask, Prices(b.asks, Ask));
    AllListed(b.bids, Bid);
    AllListed(b.asks, Ask);
  }
}
