/** KrakenChecksumBook with its two maps updated in place: src/adapters/kraken/kraken_checksum.cpp. */
module KrakenChecksum {
  import opened Base
  import opened Market
  import opened PriceOrder
  import opened Crc32
  import opened KrakenBook
  import FixedPoint
  import KrakenNumber

  method Lex(token: string, scale: int) returns (r: Option<int>)
    ensures r == Lexed(token, scale)
  {
    var text := KrakenNumber.DecimalToken(token);
    if text.None? {
      return None;
    }
    var parsed := FixedPoint.ParseDecimal(text.value, scale);
    r := match parsed case Ok(raw) => Some(raw as int) case _ => None;
  }

  /** r is the part of l at its best prices. */
  ghost predicate IsPrefix(r: Lexemes, l: Lexemes, side: Side)
  {
    && r.Keys <= l.Keys && (forall p :: p in r ==> r[p] == l[p])
    && |r.Keys| <= |l.Keys| && Listing(side, r.Keys) == Take(Listing(side, l.Keys), |r.Keys|)
  }

  lemma WholeIsPrefix(l: Lexemes, side: Side)
    ensures IsPrefix(l, l, side)
  {}

  lemma DropKeepsListing(part: set<nat>, side: Side, all: seq<nat>, s: seq<nat>)
    requires s == Listing(side, part) == Take(all, |part|) && s != [] && |part| <= |all|
    ensures var last := s[|s| - 1];
            && last in part && |part - {last}| == |s| - 1
            && Listing(side, part - {last}) == Take(all, |s| - 1)
  {
    DropLast(side, part, s);
    TakeTake(all, |s|, |s| - 1);
  }

  lemma DropKeepsPrefix(r: Lexemes, l: Lexemes, side: Side, s: seq<nat>)
    requires IsPrefix(r, l, side) && s == Listing(side, r.Keys) && s != []
    ensures var next := r - {s[|s| - 1]}; IsPrefix(next, l, side) && |next.Keys| == |r.Keys| - 1
  {
    DropKeepsListing(r.Keys, side, Listing(side, l.Keys), s);
    assert (r - {s[|s| - 1]}).Keys == r.Keys - {s[|s| - 1]};
  }

  /** Erase the last entry of the map until n are left. */
  method Trim(l: Lexemes, side: Side, n: nat) returns (r: Lexemes)
    ensures r == Trimmed(l, side, n)
  {
    r := l;
    WholeIsPrefix(l, side);
    while |r.Keys| > n
      invariant IsPrefix(r, l, side) && (|r.Keys| == |l.Keys| || |r.Keys| >= n)
      decreases |r.Keys|
    {
      var s := Listing(side, r.Keys);
      DropKeepsPrefix(r, l, side, s);
      r := r - {s[|s| - 1]};
    }
    TrimEnds(l, r, side, n);
  }

  lemma TrimEnds(l: Lexemes, r: Lexemes, side: Side, n: nat)
    requires r.Keys <= l.Keys && (forall p :: p in r ==> r[p] == l[p])
    requires |r.Keys| <= n && (|r.Keys| == |l.Keys| || |r.Keys| >= n)
    requires Listing(side, r.Keys) == Take(Listing(side, l.Keys), |r.Keys|)
    ensures r == Trimmed(l, side, n)
  {
    TakeAll(Listing(side, l.Keys), |r.Keys|, n);
    assert r.Keys == SetOf(Listing(side, r.Keys));
    TrimmedKeys(l, side, n);
    SameEntries(r, Trimmed(l, side, n), l);
  }

  lemma TakeAll<T>(s: seq<T>, m: nat, n: nat)
    requires m <= n && m <= |s| && (m == |s| || m >= n)
    ensures Take(s, m) == Take(s, n)
  {}

  lemma SameEntries(a: Lexemes, b: Lexemes, l: Lexemes)
    requires a.Keys == b.Keys <= l.Keys
    requires (forall p :: p in a ==> a[p] == l[p]) && (forall p :: p in b ==> b[p] == l[p])
    ensures a == b
  {}

  method FeedLevel(register: bv32, c: Change) returns (r: bv32)
    requires Fits(c, c.side, c.price)
    ensures r == AllFed(register, DigitsOf(c))
  {
    var price := KrakenNumber.ComputeChecksumDigits(c.priceLexeme);
    var quantity := KrakenNumber.ComputeChecksumDigits(c.quantityLexeme);
    FitsHasDigits(c, c.side, c.price);
    r := Feed(register, price.value + quantity.value);
  }

  lemma TextGrows(register: bv32, l: Lexemes, prices: seq<nat>, n: nat)
    requires n < |prices| && forall p :: p in prices ==> p in l
    ensures prices[n] in l && (forall p :: p in prices[..n + 1] ==> p in l) && (forall p :: p in prices[..n] ==> p in l)
    ensures AllFed(register, Text(l, prices[..n + 1])) ==
            AllFed(AllFed(register, Text(l, prices[..n])), DigitsOf(l[prices[n]]))
  {
    assert prices[..n + 1][..n] == prices[..n];
    FeedConcat(register, Text(l, prices[..n]), DigitsOf(l[prices[n]]));
  }

  /** Feed the digits of the levels at these prices, in this order. */
  method FeedLevels(register: bv32, l: Lexemes, side: Side, prices: seq<nat>) returns (r: bv32)
    requires ProperSide(l, side) && forall p :: p in prices ==> p in l
    ensures r == AllFed(register, Text(l, prices))
  {
    r := register;
    assert prices[..0] == [];
    for n := 0 to |prices|
      invariant (forall p :: p in prices[..n] ==> p in l) && r == AllFed(register, Text(l, prices[..n]))
    {
      TextGrows(register, l, prices, n);
      FitsItself(l, side, prices[n]);
      r := FeedLevel(r, l[prices[n]]);
    }
    assert prices[..|prices|] == prices;
  }

  lemma FitsItself(l: Lexemes, side: Side, p: nat)
    requires ProperSide(l, side) && p in l
    ensures Fits(l[p], l[p].side, l[p].price)
  {
    assert Fits(l[p], side, p);
  }

  lemma FitsHasDigits(c: Change, side: Side, price: nat)
    requires Fits(c, side, price)
    ensures KrakenNumber.ChecksumDigits(c.priceLexeme).Some? && KrakenNumber.ChecksumDigits(c.quantityLexeme).Some?
    ensures DigitsOf(c) == KrakenNumber.ChecksumDigits(c.priceLexeme).value +
            KrakenNumber.ChecksumDigits(c.quantityLexeme).value
  {}

  class KrakenChecksumBook {
    var bids: Lexemes
    var asks: Lexemes

    ghost function Value(): (b: ChecksumBook)
      reads this
    {
      ChecksumBook(bids, asks)
    }

    constructor (b: ChecksumBook)
      ensures Value() == b
    {
      bids, asks := b.bids, b.asks;
    }

    /** ok is false where the source throws. */
    method Apply(c: Change) returns (ok: bool)
      modifies this
      ensures ok <==> Consistent(c)
      ensures Value() == if ok then PutOn(old(Value()), c) else old(Value())
    {
      var price := Lex(c.priceLexeme, PRICE_SCALE);
      var quantity := Lex(c.quantityLexeme, QUANTITY_SCALE);
      if c.price == 0 || price != Some(c.price) || quantity != Some(c.quantity) {
        return false;
      }
      if c.side == Bid {
        bids := if c.quantity == 0 then bids - {c.price} else bids[c.price := c];
      } else {
        asks := if c.quantity == 0 then asks - {c.price} else asks[c.price := c];
      }
      ok := true;
    }

    method ReplaceSnapshot(changes: seq<Change>) returns (ok: bool)
      modifies this
      ensures ok <==> Replaceable(changes)
      ensures Value() == if ok then AllPut(EMPTY, changes) else old(Value())
    {
      var next := new KrakenChecksumBook(EMPTY);
      var seen: set<(Side, nat)> := {};
      for i := 0 to |changes|
        invariant fresh(next) && unchanged(this) && next.Value() == AllPut(EMPTY, changes[..i])
        invariant Replaceable(changes[..i]) && seen == Slots(changes[..i])
      {
        var c := changes[i];
        ReplaceableAt(changes, i);
        if c.quantity == 0 || (c.side, c.price) in seen {
          return false;
        }
        ok := next.Apply(c);
        if !ok {
          return;
        }
        seen := seen + {(c.side, c.price)};
      }
      assert changes[..|changes|] == changes;
      bids, asks := next.bids, next.asks;
      ok := true;
    }

    method Truncate(depth: nat)
      modifies this
      ensures Value() == TrimmedBook(old(Value()), depth)
    {
      bids := Trim(bids, Bid, depth);
      asks := Trim(asks, Ask, depth);
    }

    method Checksum() returns (crc: bv32)
      requires Proper(Value())
      ensures crc == ChecksumOf(Value())
    {
      var register := FeedLevels(START, asks, Ask, TopTen(asks, Ask));
      register := FeedLevels(register, bids, Bid, TopTen(bids, Bid));
      FeedConcat(START, Text(asks, TopTen(asks, Ask)), Text(bids, TopTen(bids, Bid)));
      crc := Finished(register);
    }

    method Levels() returns (s: seq<BookLevel>)
      ensures s == LevelsOf(Value())
    {
      var first := ListLevels([], bids, Bid);
      s := ListLevels(first, asks, Ask);
      assert [] + LevelList(bids, Prices(bids, Bid)) == LevelList(bids, Prices(bids, Bid));
    }
  }

  /** The side and price pairs seen so far. */
  function Slots(changes: seq<Change>): (s: set<(Side, nat)>)
  {
    if changes == [] then {}
    else Slots(changes[..|changes| - 1]) + {(changes[|changes| - 1].side, changes[|changes| - 1].price)}
  }

  lemma {:induction false} SlotsListed(changes: seq<Change>, side: Side, price: nat)
    ensures (side, price) in Slots(changes) <==>
            exists k :: 0 <= k < |changes| && changes[k].side == side && changes[k].price == price
  {
    if changes != [] {
      SlotsListed(changes[..|changes| - 1], side, price);
    }
  }

  lemma ReplaceableAt(changes: seq<Change>, i: nat)
    requires i < |changes| && Replaceable(changes[..i])
    ensures var c := changes[i];
            Replaceable(changes[..i + 1]) <==>
            Consistent(c) && c.quantity > 0 && (c.side, c.price) !in Slots(changes[..i])
    ensures !Replaceable(changes[..i + 1]) ==> !Replaceable(changes)
    ensures Slots(changes[..i + 1]) == Slots(changes[..i]) + {(changes[i].side, changes[i].price)}
    ensures AllPut(EMPTY, changes[..i + 1]) == PutOn(AllPut(EMPTY, changes[..i]), changes[i])
  {
    assert changes[..i + 1][..i] == changes[..i] && changes[..i + 1] == changes[..i] + [changes[i]];
    SlotsListed(changes[..i], changes[i].side, changes[i].price);
    ReplaceableSnoc(changes[..i], changes[i]);
    ReplaceablePrefix(changes, i + 1);
  }

  lemma ReplaceableSnoc(before: seq<Change>, c: Change)
    requires Replaceable(before)
    ensures Replaceable(before + [c]) <==>
            && Consistent(c) && c.quantity > 0
            && !exists k :: 0 <= k < |before| && before[k].side == c.side && before[k].price == c.price
  {
    ConsistentSnoc(before, c);
    PositiveSnoc(before, c);
    DistinctSnoc(before, c);
  }

  lemma ConsistentSnoc(before: seq<Change>, c: Change)
    ensures AllConsistent(before + [c]) <==> AllConsistent(before) && Consistent(c)
  {
    var all := before + [c];
    assert all[|before|] == c && forall k :: 0 <= k < |before| ==> all[k] == before[k];
  }

  lemma PositiveSnoc(before: seq<Change>, c: Change)
    ensures AllPositive(before + [c]) <==> AllPositive(before) && c.quantity > 0
  {
    var all := before + [c];
    assert all[|before|] == c && forall k :: 0 <= k < |before| ==> all[k] == before[k];
  }

  lemma ReplaceablePrefix(changes: seq<Change>, n: nat)
    requires n <= |changes|
    ensures Replaceable(changes) ==> Replaceable(changes[..n])
  {}

  /** Append the levels of a side, from best to worst. */
  method ListLevels(before: seq<BookLevel>, l: Lexemes, side: Side) returns (s: seq<BookLevel>)
    ensures s == before + LevelList(l, Prices(l, side))
  {
    s := AppendLevels(before, l, Prices(l, side));
  }

  method AppendLevels(before: seq<BookLevel>, l: Lexemes, prices: seq<nat>) returns (s: seq<BookLevel>)
    requires forall p :: p in prices ==> p in l
    ensures s == before + LevelList(l, prices)
  {
    s := before;
    ghost var all := LevelList(l, prices);
    for i := 0 to |prices|
      invariant s == before + all[..i]
    {
      var p := prices[i];
      assert p in prices;
      s := s + [BookLevel(l[p].side, p, l[p].quantity)];
    }
  }
}
