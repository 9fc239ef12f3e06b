/** What keeping only the best levels costs, over any sequence of messages since a snapshot, and what the order of a
    snapshot's levels matters. */
module KrakenDepth {
  import opened Market
  import opened PriceOrder
  import opened KrakenBook

  // ----- With and without truncation -----

  /** The book built from a snapshot and updates without ever truncating. */
  function Deep(snapshot: seq<Change>, updates: seq<seq<Change>>): (b: ChecksumBook)
  {
    if updates == [] then AllPut(EMPTY, snapshot)
    else AllPut(Deep(snapshot, updates[..|updates| - 1]), updates[|updates| - 1])
  }

  /** The book as the processor builds it: truncated after every message. */
  function Shallow(snapshot: seq<Change>, updates: seq<seq<Change>>, n: nat): (b: ChecksumBook)
  {
    TrimmedBook(if updates == [] then AllPut(EMPTY, snapshot)
                else AllPut(Shallow(snapshot, updates[..|updates| - 1], n), updates[|updates| - 1]), n)
  }

  predicate SubLexemes(a: Lexemes, b: Lexemes) { forall p :: p in a ==> p in b && a[p] == b[p] }

  predicate SubBook(a: ChecksumBook, b: ChecksumBook) { SubLexemes(a.bids, b.bids) && SubLexemes(a.asks, b.asks) }

  lemma {:induction false} PutKeepsSub(a: ChecksumBook, b: ChecksumBook, changes: seq<Change>)
    requires SubBook(a, b)
    ensures SubBook(AllPut(a, changes), AllPut(b, changes))
  {
    if changes != [] {
      PutKeepsSub(a, b, changes[..|changes| - 1]);
    }
  }

  /** Whatever was deleted or truncated, every level of the truncated book is a level of the untruncated one. */
  lemma {:induction false} TruncatedIsSubmap(snapshot: seq<Change>, updates: seq<seq<Change>>, n: nat)
    ensures SubBook(Shallow(snapshot, updates, n), Deep(snapshot, updates))
  {
    if updates != [] {
      var k := |updates| - 1;
      TruncatedIsSubmap(snapshot, updates[..k], n);
      PutKeepsSub(Shallow(snapshot, updates[..k], n), Deep(snapshot, updates[..k]), updates[k]);
    }
  }

  // ----- Without deletions -----

  lemma TrimTwice(l: Lexemes, side: Side, n: nat)
    ensures Trimmed(Trimmed(l, side, n), side, n) == Trimmed(l, side, n)
  {
    TrimmedKeys(l, side, n);
    TrimmedKeys(Trimmed(l, side, n), side, n);
    ListingOfKept(side, l.Keys, n);
    TakeTake(Listing(side, l.Keys), n, n);
  }

  lemma PutEntries(t: Lexemes, l: Lexemes, c: Change)
    requires c.quantity > 0 && SubLexemes(t, l)
    ensures Put(t, c).Keys == t.Keys + {c.price} && Put(l, c).Keys == l.Keys + {c.price}
    ensures SubLexemes(Put(t, c), Put(l, c))
  {}

  lemma TrimPut(l: Lexemes, side: Side, c: Change, n: nat)
    requires c.quantity > 0
    ensures Trimmed(Put(Trimmed(l, side, n), c), side, n) == Trimmed(Put(l, c), side, n)
  {
    var t := Trimmed(l, side, n);
    PutEntries(t, l, c);
    TrimmedKeys(l, side, n);
    KeptInsert(side, l.Keys, c.price, n);
    var a, b := Put(t, c), Put(l, c);
    SameTrimmed(a, b, side, n);
  }

  lemma SameTrimmed(a: Lexemes, b: Lexemes, side: Side, n: nat)
    requires SubLexemes(a, b) && Kept(side, a.Keys, n) == Kept(side, b.Keys, n)
    ensures Trimmed(a, side, n) == Trimmed(b, side, n)
  {
    TrimmedKeys(a, side, n);
    TrimmedKeys(b, side, n);
    TrimmedEntries(a, side, n);
    TrimmedEntries(b, side, n);
    SameEntries(Trimmed(a, side, n), Trimmed(b, side, n), b);
  }

  lemma TrimmedEntries(l: Lexemes, side: Side, n: nat)
    ensures SubLexemes(Trimmed(l, side, n), l)
  {}

  lemma SameEntries(a: Lexemes, b: Lexemes, l: Lexemes)
    requires a.Keys == b.Keys && SubLexemes(a, l) && SubLexemes(b, l)
    ensures a == b
  {}

  lemma TrimPutOn(b: ChecksumBook, c: Change, n: nat)
    requires c.quantity > 0
    ensures TrimmedBook(PutOn(TrimmedBook(b, n), c), n) == TrimmedBook(PutOn(b, c), n)
  {
    TrimPut(b.On(c.side), c.side, c, n);
    TrimTwice(b.bids, Bid, n);
    TrimTwice(b.asks, Ask, n);
  }

  /** Truncating before the changes makes no difference once the result is truncated. */
  lemma {:induction false} TrimAllPut(b: ChecksumBook, changes: seq<Change>, n: nat)
    requires AllPositive(changes)
    ensures TrimmedBook(AllPut(TrimmedBook(b, n), changes), n) == TrimmedBook(AllPut(b, changes), n)
  {
    if changes == [] {
      TrimTwice(b.bids, Bid, n);
      TrimTwice(b.asks, Ask, n);
    } else {
      var first, c := changes[..|changes| - 1], changes[|changes| - 1];
      TrimAllPut(b, first, n);
      TrimPutOn(AllPut(b, first), c, n);
      TrimPutOn(AllPut(TrimmedBook(b, n), first), c, n);
    }
  }

  predicate NoDeletions(updates: seq<seq<Change>>) { forall i :: 0 <= i < |updates| ==> AllPositive(updates[i]) }

  /** Without deletions the truncated book is exactly the best-n prefix of the untruncated one. */
  lemma {:induction false} TruncatedIsPrefix(snapshot: seq<Change>, updates: seq<seq<Change>>, n: nat)
    requires NoDeletions(updates)
    ensures Shallow(snapshot, updates, n) == TrimmedBook(Deep(snapshot, updates), n)
  {
    if updates != [] {
      var k := |updates| - 1;
      TruncatedIsPrefix(snapshot, updates[..k], n);
      TrimAllPut(Deep(snapshot, updates[..k]), updates[k], n);
    }
  }

  // ----- When truncating early loses a level -----

  lemma KeepsAll(l: Lexemes, side: Side, n: nat)
    requires |l.Keys| <= n
    ensures Trimmed(l, side, n) == l
  {
    assert Take(Listing(side, l.Keys), n) == Listing(side, l.Keys);
  }

  lemma MinusAbsent(l: Lexemes, p: nat)
    requires p !in l
    ensures l - {p} == l
  {}

  lemma KeptWithout(side: Side, prices: set<nat>, p: nat, n: nat)
    requires p in prices && p !in Kept(side, prices, n)
    ensures Kept(side, prices - {p}, n) == Kept(side, prices, n)
  {
    KeptIsTop(side, prices, n);
    KeptIsTop(side, prices - {p}, n);
    TopWithout(side, prices, Kept(side, prices, n), p, n);
    TopIsUnique(side, prices - {p}, Kept(side, prices, n), Kept(side, prices - {p}, n), n);
  }

  /** A price outside the best n can go without changing them. */
  lemma DropOutside(l: Lexemes, side: Side, p: nat, n: nat)
    requires p !in Trimmed(l, side, n)
    ensures Trimmed(l - {p}, side, n) == Trimmed(l, side, n)
  {
    if p in l {
      TrimmedKeys(l, side, n);
      KeptWithout(side, l.Keys, p, n);
      KeysMinus(l, p);
      SameTrimmed(l - {p}, l, side, n);
    } else {
      MinusAbsent(l, p);
    }
  }

  lemma KeysMinus(l: Lexemes, p: nat)
    ensures (l - {p}).Keys == l.Keys - {p} && SubLexemes(l - {p}, l)
  {}

  lemma TopWithout(side: Side, prices: set<nat>, top: set<nat>, p: nat, n: nat)
    requires IsTop(side, prices, top, n) && p in prices && p !in top
    ensures IsTop(side, prices - {p}, top, n)
  {
    if |top| == |prices| {
      Included(top, prices);
    }
  }

  /** Deleting one of the best n of more than n levels leaves room that only the untruncated side can fill. */
  lemma DropInside(l: Lexemes, side: Side, p: nat, n: nat)
    requires p in Trimmed(l, side, n) && |l.Keys| > n
    ensures Trimmed(Trimmed(l, side, n) - {p}, side, n) != Trimmed(l - {p}, side, n)
  {
    var t := Trimmed(l, side, n);
    TrimmedCount(l, side, n);
    TrimmedCount(l - {p}, side, n);
    KeysMinus(t, p);
    KeysMinus(l, p);
    KeepsAll(t - {p}, side, n);
    assert |(t - {p}).Keys| == n - 1 && |Trimmed(l - {p}, side, n).Keys| == n;
  }

  lemma TrimmedCount(l: Lexemes, side: Side, n: nat)
    requires |l.Keys| >= n
    ensures |Trimmed(l, side, n).Keys| == n && Trimmed(l, side, n).Keys <= l.Keys
  {
    TrimmedKeys(l, side, n);
    KeptIsTop(side, l.Keys, n);
  }

  /** The change deletes a level that truncation kept, from a side that truncation shortened. */
  predicate LosesDepth(b: ChecksumBook, c: Change, n: nat)
  {
    c.quantity == 0 && c.price in Trimmed(b.On(c.side), c.side, n) && |b.On(c.side).Keys| > n
  }

  lemma DeleteOutside(l: Lexemes, side: Side, p: nat, n: nat)
    requires p !in Trimmed(l, side, n)
    ensures Trimmed(Trimmed(l, side, n) - {p}, side, n) == Trimmed(l - {p}, side, n)
  {
    DropOutside(l, side, p, n);
    MinusAbsent(Trimmed(l, side, n), p);
    TrimTwice(l, side, n);
  }

  lemma DeleteOnSide(l: Lexemes, side: Side, p: nat, n: nat)
    ensures Trimmed(Trimmed(l, side, n) - {p}, side, n) == Trimmed(l - {p}, side, n) <==>
            !(p in Trimmed(l, side, n) && |l.Keys| > n)
  {
    if p !in Trimmed(l, side, n) {
      DeleteOutside(l, side, p, n);
    } else if |l.Keys| > n {
      DropInside(l, side, p, n);
    } else {
      KeepsAll(l, side, n);
    }
  }

  /** One change: truncating before it as well as after it gives the same book exactly when it does not lose depth. */
  lemma TruncatingEarlyIsHarmless(b: ChecksumBook, c: Change, n: nat)
    ensures TrimmedBook(PutOn(TrimmedBook(b, n), c), n) == TrimmedBook(PutOn(b, c), n) <==> !LosesDepth(b, c, n)
  {
    if c.quantity > 0 {
      TrimPutOn(b, c, n);
    } else {
      DeleteOnSide(b.On(c.side), c.side, c.price, n);
      TrimTwice(b.bids, Bid, n);
      TrimTwice(b.asks, Ask, n);
    }
  }

  predicate Touches(changes: seq<Change>, side: Side, p: nat)
  {
    exists i :: 0 <= i < |changes| && changes[i].side == side && changes[i].price == p
  }

  /** A level that truncation cut off, that the message does not mention, and that ranks among the best n after it. */
  predicate Resurfaces(b: ChecksumBook, changes: seq<Change>, n: nat, side: Side, p: nat)
  {
    && p in b.On(side) && p !in Trimmed(b.On(side), side, n) && !Touches(changes, side, p)
    && p in Kept(side, AllPut(b, changes).On(side).Keys, n)
  }

  lemma TouchesMore(changes: seq<Change>, side: Side, p: nat)
    requires changes != []
    ensures var last := changes[|changes| - 1];
            Touches(changes, side, p) <==>
            Touches(changes[..|changes| - 1], side, p) || (last.side == side && last.price == p)
  {
    var first := changes[..|changes| - 1];
    if Touches(changes, side, p) {
      var i :| 0 <= i < |changes| && changes[i].side == side && changes[i].price == p;
      assert i < |first| ==> first[i] == changes[i];
    }
  }

  /** A price missing from the smaller book stays missing until it is mentioned; otherwise both books agree on it. */
  lemma {:induction false} PutApart(a: ChecksumBook, b: ChecksumBook, changes: seq<Change>, side: Side, p: nat)
    requires SubBook(a, b)
    ensures p in AllPut(a, changes).On(side) <==>
            p in AllPut(b, changes).On(side) && (p in a.On(side) || p !in b.On(side) || Touches(changes, side, p))
    ensures p in b.On(side) && !Touches(changes, side, p) ==> p in AllPut(b, changes).On(side)
  {
    if changes != [] {
      PutApart(a, b, changes[..|changes| - 1], side, p);
      TouchesMore(changes, side, p);
    }
  }

  /** Two sides of which one holds part of the other: their best n agree exactly when the other's are all held. */
  lemma KeptFromPart(side: Side, part: set<nat>, whole: set<nat>, n: nat)
    requires part <= whole
    ensures Kept(side, part, n) == Kept(side, whole, n) <==> Kept(side, whole, n) <= part
  {
    KeptIsTop(side, part, n);
    KeptIsTop(side, whole, n);
    if Kept(side, whole, n) <= part {
      TopOfPart(side, part, whole, Kept(side, whole, n), n);
      TopIsUnique(side, part, Kept(side, part, n), Kept(side, whole, n), n);
    }
  }

  lemma TopOfPart(side: Side, part: set<nat>, whole: set<nat>, top: set<nat>, n: nat)
    requires top <= part <= whole && IsTop(side, whole, top, n)
    ensures IsTop(side, part, top, n)
  {
    NotLarger(part, whole);
    NotLarger(top, part);
  }

  lemma NotLarger(a: set<nat>, b: set<nat>)
    requires a <= b
    ensures |a| <= |b|
  {
    assert b == a + (b - a);
  }

  lemma TrimmedAlike(x: Lexemes, y: Lexemes, side: Side, n: nat)
    requires SubLexemes(x, y)
    ensures Trimmed(x, side, n) == Trimmed(y, side, n) <==> Kept(side, y.Keys, n) <= x.Keys
  {
    KeptFromPart(side, x.Keys, y.Keys, n);
    TrimmedKeys(x, side, n);
    TrimmedKeys(y, side, n);
    if Kept(side, x.Keys, n) == Kept(side, y.Keys, n) {
      SameTrimmed(x, y, side, n);
    }
  }

  ghost predicate ResurfacesOn(b: ChecksumBook, changes: seq<Change>, n: nat, side: Side)
  {
    exists p :: Resurfaces(b, changes, n, side, p)
  }

  ghost predicate AnyResurfaces(b: ChecksumBook, changes: seq<Change>, n: nat)
  {
    ResurfacesOn(b, changes, n, Bid) || ResurfacesOn(b, changes, n, Ask)
  }

  lemma SideResurfaces(b: ChecksumBook, changes: seq<Change>, n: nat, side: Side)
    ensures var x, y := AllPut(TrimmedBook(b, n), changes).On(side), AllPut(b, changes).On(side);
            Trimmed(x, side, n) == Trimmed(y, side, n) <==> !ResurfacesOn(b, changes, n, side)
  {
    var a := TrimmedBook(b, n);
    var x, y := AllPut(a, changes).On(side), AllPut(b, changes).On(side);
    PutKeepsSub(a, b, changes);
    TrimmedAlike(x, y, side, n);
    TrimmedKeys(y, side, n);
    KeptIsTop(side, y.Keys, n);
    forall p | p in Kept(side, y.Keys, n)
      ensures p in x <==> !Resurfaces(b, changes, n, side, p)
    {
      PutApart(a, b, changes, side, p);
    }
  }

  /** Any message: truncating before it as well as after it gives the same book exactly when no level resurfaces. */
  lemma NothingResurfaces(b: ChecksumBook, changes: seq<Change>, n: nat)
    ensures TrimmedBook(AllPut(TrimmedBook(b, n), changes), n) == TrimmedBook(AllPut(b, changes), n) <==>
            !AnyResurfaces(b, changes, n)
  {
    SideResurfaces(b, changes, n, Bid);
    SideResurfaces(b, changes, n, Ask);
  }

  /** After these messages the truncated book is the best-n prefix of the untruncated one. */
  predicate InPrefix(snapshot: seq<Change>, updates: seq<seq<Change>>, n: nat)
  {
    Shallow(snapshot, updates, n) == TrimmedBook(Deep(snapshot, updates), n)
  }

  predicate AlwaysInPrefix(snapshot: seq<Change>, updates: seq<seq<Change>>, n: nat)
  {
    InPrefix(snapshot, updates, n) && (updates == [] || AlwaysInPrefix(snapshot, updates[..|updates| - 1], n))
  }

  ghost predicate NeverResurfaces(snapshot: seq<Change>, updates: seq<seq<Change>>, n: nat)
  {
    updates == [] ||
    (NeverResurfaces(snapshot, updates[..|updates| - 1], n) &&
     !AnyResurfaces(Deep(snapshot, updates[..|updates| - 1]), updates[|updates| - 1], n))
  }

  lemma OneMoreInPrefix(snapshot: seq<Change>, updates: seq<seq<Change>>, n: nat)
    requires updates != [] && InPrefix(snapshot, updates[..|updates| - 1], n)
    ensures InPrefix(snapshot, updates, n) <==>
            !AnyResurfaces(Deep(snapshot, updates[..|updates| - 1]), updates[|updates| - 1], n)
  {
    NothingResurfaces(Deep(snapshot, updates[..|updates| - 1]), updates[|updates| - 1], n);
  }

  /** Over every sequence of messages: the truncated book is the best-n prefix of the untruncated one after each of
      them if and only if no message lets a cut level resurface. */
  lemma {:induction false} PrefixExactly(snapshot: seq<Change>, updates: seq<seq<Change>>, n: nat)
    ensures AlwaysInPrefix(snapshot, updates, n) <==> NeverResurfaces(snapshot, updates, n)
  {
    if updates != [] {
      PrefixExactly(snapshot, updates[..|updates| - 1], n);
      if InPrefix(snapshot, updates[..|updates| - 1], n) {
        OneMoreInPrefix(snapshot, updates, n);
      }
    }
  }

  // ----- The order of a snapshot -----

  /** Each change occurs once and no other change has its side and price. */
  ghost predicate Unique(changes: multiset<Change>)
  {
    && (forall c :: c in changes ==> changes[c] == 1)
    && (forall c, d :: c in changes && d in changes && SameSlot(c, d) ==> c == d)
  }

  lemma {:induction false} DistinctIsUnique(changes: seq<Change>)
    ensures DistinctSlots(changes) <==> Unique(multiset(changes))
  {
    if changes != [] {
      var first, last := changes[..|changes| - 1], changes[|changes| - 1];
      assert changes == first + [last];
      DistinctIsUnique(first);
      DistinctSnoc(first, last);
      UniqueInsert(multiset(first), last);
      assert multiset(changes) == multiset(first) + multiset{last};
      assert (forall d :: d in multiset(first) ==> !SameSlot(d, last)) <==>
             (forall k :: 0 <= k < |first| ==> !SameSlot(first[k], last)) by {
        assert forall k :: 0 <= k < |first| ==> first[k] in multiset(first);
        assert forall d :: d in multiset(first) ==> d in first;
      }
    }
  }

  lemma UniqueInsert(m: multiset<Change>, c: Change)
    ensures Unique(m + multiset{c}) <==> Unique(m) && forall d :: d in m ==> !SameSlot(d, c)
  {
    var n := m + multiset{c};
    assert c in n && forall d :: d in n <==> d in m || d == c;
    assert forall d :: d != c ==> n[d] == m[d];
  }

  /** What a side holds at a price after these changes, each at its own price. */
  predicate HeldAt(l: Lexemes, changes: seq<Change>, side: Side, p: nat)
  {
    && (forall c :: c in changes && c.side == side && c.price == p ==> p in l && l[p] == c)
    && (p in l ==> l[p] in changes && l[p].side == side && l[p].price == p)
  }

  lemma HeldAfter(l: Lexemes, first: seq<Change>, last: Change, side: Side, p: nat)
    requires HeldAt(l, first, side, p) && last.quantity > 0
    requires forall k :: 0 <= k < |first| ==> !SameSlot(first[k], last)
    ensures HeldAt(if last.side == side then Put(l, last) else l, first + [last], side, p)
  {
    assert forall c :: c in first + [last] <==> c in first || c == last;
    assert forall c :: c in first ==> !SameSlot(c, last);
  }

  /** The book holds exactly the snapshot's levels. */
  lemma {:induction false} SnapshotHeld(changes: seq<Change>, side: Side, p: nat)
    requires AllPositive(changes) && DistinctSlots(changes)
    ensures HeldAt(AllPut(EMPTY, changes).On(side), changes, side, p)
  {
    if changes != [] {
      var first, last := changes[..|changes| - 1], changes[|changes| - 1];
      assert changes == first + [last];
      DistinctSnoc(first, last);
      SnapshotHeld(first, side, p);
      HeldAfter(AllPut(EMPTY, first).On(side), first, last, side, p);
    }
  }

  /** Replacing a snapshot does not depend on the order of its levels: neither whether it is accepted nor the result. */
  lemma ReplaceIgnoresOrder(a: seq<Change>, b: seq<Change>)
    requires multiset(a) == multiset(b)
    ensures Replaceable(a) <==> Replaceable(b)
    ensures Replaceable(a) ==> AllPut(EMPTY, a) == AllPut(EMPTY, b)
  {
    SameMembers(a, b);
    DistinctIsUnique(a);
    DistinctIsUnique(b);
    if Replaceable(a) {
      SameHeld(a, b, Bid);
      SameHeld(a, b, Ask);
    }
  }

  lemma SameMembers(a: seq<Change>, b: seq<Change>)
    requires multiset(a) == multiset(b)
    ensures AllConsistent(a) <==> AllConsistent(b)
    ensures AllPositive(a) <==> AllPositive(b)
    ensures forall c :: c in a <==> c in b
  {
    assert forall c :: c in a <==> c in multiset(a);
    assert forall c :: c in b <==> c in multiset(b);
    FewerMembers(a, b);
    FewerMembers(b, a);
  }

  lemma FewerMembers(a: seq<Change>, b: seq<Change>)
    requires forall c :: c in a ==> c in b
    ensures AllConsistent(b) ==> AllConsistent(a)
    ensures AllPositive(b) ==> AllPositive(a)
  {
    forall i | 0 <= i < |a|
      ensures AllConsistent(b) ==> Consistent(a[i])
      ensures AllPositive(b) ==> a[i].quantity > 0
    {
      assert a[i] in b;
      var j :| 0 <= j < |b| && b[j] == a[i];
      assert AllConsistent(b) ==> Consistent(b[j]);
    }
  }

  lemma SameHeld(a: seq<Change>, b: seq<Change>, side: Side)
    requires AllPositive(a) && AllPositive(b) && DistinctSlots(a) && DistinctSlots(b)
    requires forall c :: c in a <==> c in b
    ensures AllPut(EMPTY, a).On(side) == AllPut(EMPTY, b).On(side)
  {
    forall p: nat
      ensures var l, m := AllPut(EMPTY, a).On(side), AllPut(EMPTY, b).On(side);
              (p in l <==> p in m) && (p in l ==> l[p] == m[p])
    {
      SnapshotHeld(a, side, p);
      SnapshotHeld(b, side, p);
    }
  }
}
