/** Sets of prices in the map order of a side: listings, best-depth prefixes and what trimming preserves. */
module PriceOrder {
  import opened Market

  function SetOf(s: seq<nat>): (r: set<nat>) { set x | x in s }

  lemma SetOfCons(x: nat, s: seq<nat>)
    ensures SetOf([x] + s) == {x} + SetOf(s)
  {}

  lemma SetOfSnoc(s: seq<nat>, x: nat)
    ensures SetOf(s + [x]) == SetOf(s) + {x}
  {}

  predicate Sorted(side: Side, s: seq<nat>)
  {
    forall i, j :: 0 <= i < j < |s| ==> Better(side, s[i], s[j])
  }

  lemma BestFirst(side: Side, prices: set<nat>, b: nat, rest: seq<nat>)
    requires IsBest(side, prices, b) && Sorted(side, rest) && SetOf(rest) == prices - {b}
    ensures Sorted(side, [b] + rest) && SetOf([b] + rest) == prices
  {
    SetOfCons(b, rest);
    forall i | 0 <= i < |rest|
      ensures Better(side, b, rest[i])
    {
      assert rest[i] in SetOf(rest);
    }
  }

  /** The prices of a side from best to worst: the iteration order of its map. */
  function Listing(side: Side, prices: set<nat>): (s: seq<nat>)
    ensures Sorted(side, s) && SetOf(s) == prices && |s| == |prices|
  {
    if prices == {} then []
    else
      var b := Best(side, prices);
      var rest := Listing(side, prices - {b});
      BestFirst(side, prices, b, rest);
      [b] + rest
  }

  lemma {:induction false} SortedIsListing(side: Side, s: seq<nat>)
    requires Sorted(side, s)
    ensures Listing(side, SetOf(s)) == s
  {
    if s != [] {
      assert s[0] in SetOf(s) && IsBest(side, SetOf(s), s[0]);
      assert IsBest(side, SetOf(s), Best(side, SetOf(s)));
      assert s == [s[0]] + s[1..];
      SetOfCons(s[0], s[1..]);
      assert s[0] !in s[1..];
      assert SetOf(s) - {s[0]} == SetOf(s[1..]);
      SortedIsListing(side, s[1..]);
    }
  }

  function Take<T>(s: seq<T>, n: nat): (r: seq<T>) { if |s| <= n then s else s[..n] }

  /** The best n prices. */
  function Kept(side: Side, prices: set<nat>, n: nat): (r: set<nat>) { SetOf(Take(Listing(side, prices), n)) }

  /** Listing the best n prices gives the first n of the whole listing. */
  lemma ListingOfKept(side: Side, prices: set<nat>, n: nat)
    ensures Listing(side, Kept(side, prices, n)) == Take(Listing(side, prices), n)
  {
    SortedIsListing(side, Take(Listing(side, prices), n));
  }

  // ----- Best-n prefixes without reference to a listing -----

  function Smaller(a: nat, b: nat): (r: nat) { if a <= b then a else b }

  /** top holds n prices, or all of them, and each is better than every price left out. */
  ghost predicate IsTop(side: Side, prices: set<nat>, top: set<nat>, n: nat)
  {
    && top <= prices && |top| == Smaller(n, |prices|)
    && forall x, y :: x in top && y in prices && y !in top ==> Better(side, x, y)
  }

  lemma KeptIsTop(side: Side, prices: set<nat>, n: nat)
    ensures IsTop(side, prices, Kept(side, prices, n), n)
  {
    var all := Listing(side, prices);
    var first := Take(all, n);
    SortedIsListing(side, first);
    assert |Listing(side, SetOf(first))| == |SetOf(first)|;
    assert forall k :: 0 <= k < |first| ==> all[k] == first[k] && all[k] in SetOf(first);
    forall x, y | x in SetOf(first) && y in prices && y !in SetOf(first)
      ensures Better(side, x, y)
    {
      assert y in SetOf(all);
      var i :| 0 <= i < |first| && first[i] == x;
      var j :| 0 <= j < |all| && all[j] == y;
    }
  }

  lemma TopIsUnique(side: Side, prices: set<nat>, a: set<nat>, b: set<nat>, n: nat)
    requires IsTop(side, prices, a, n) && IsTop(side, prices, b, n)
    ensures a == b
  {
    if a != b {
      SameSizeDiffer(a, b);
    }
  }

  lemma SameSizeDiffer(a: set<nat>, b: set<nat>)
    requires |a| == |b| && a != b
    ensures (exists x :: x in a && x !in b) && (exists y :: y in b && y !in a)
  {
    if a <= b {
      Included(a, b);
    }
    if b <= a {
      Included(b, a);
    }
  }

  lemma Included(a: set<nat>, b: set<nat>)
    requires |a| == |b| && a <= b
    ensures a == b
  {
    assert b == a + (b - a);
    assert |b - a| == |b| - |a|;
  }

  /** Inserting a price into the best n prices and trimming again keeps what trimming after the insertion would. */
  lemma KeptInsert(side: Side, prices: set<nat>, p: nat, n: nat)
    ensures Kept(side, Kept(side, prices, n) + {p}, n) == Kept(side, prices + {p}, n)
  {
    var k := Kept(side, prices, n);
    var top := Kept(side, k + {p}, n);
    KeptIsTop(side, prices, n);
    KeptIsTop(side, k + {p}, n);
    KeptIsTop(side, prices + {p}, n);
    InsertedIsTop(side, prices, k, p, top, n);
    TopIsUnique(side, prices + {p}, top, Kept(side, prices + {p}, n), n);
  }

  lemma InsertedIsTop(side: Side, prices: set<nat>, k: set<nat>, p: nat, top: set<nat>, n: nat)
    requires IsTop(side, prices, k, n) && IsTop(side, k + {p}, top, n)
    ensures IsTop(side, prices + {p}, top, n)
  {
    if |prices| <= n {
      Included(k, prices);
    } else {
      assert |k| == n && |top| == n && |prices + {p}| >= n by {
        Grows(k, p);
        Grows(prices, p);
      }
      forall x, y | x in top && y in prices + {p} && y !in top
        ensures Better(side, x, y)
      {
        if y !in k + {p} {
          if x !in k {
            var z := Displaced(k, p, top);
            assert Better(side, p, z) && Better(side, z, y);
          }
        }
      }
    }
  }

  lemma Grows(s: set<nat>, p: nat)
    ensures |s| <= |s + {p}|
  {
    if p in s {
      assert s + {p} == s;
    }
  }

  /** When the new price is kept, one of the old ones is not. */
  lemma Displaced(k: set<nat>, p: nat, top: set<nat>) returns (z: nat)
    requires p !in k && p in top && |top| == |k| && top <= k + {p}
    ensures z in k && z !in top
  {
    if k <= top {
      Included(k, top);
    }
    z :| z in k && z !in top;
  }

  // ----- Trimming one by one -----

  lemma ListedLast(side: Side, s: seq<nat>, prices: set<nat>)
    requires Sorted(side, s) && s != [] && SetOf(s) == prices
    ensures var last := s[|s| - 1]; last in prices && SetOf(s[..|s| - 1]) == prices - {last}
  {
    var last, first := s[|s| - 1], s[..|s| - 1];
    assert s == first + [last];
    SetOfSnoc(first, last);
    assert last !in first;
  }

  /** Removing the last listed price leaves the others listed as before. */
  lemma DropLast(side: Side, prices: set<nat>, s: seq<nat>)
    requires s == Listing(side, prices) && s != []
    ensures var last := s[|s| - 1]; last in prices && Listing(side, prices - {last}) == s[..|s| - 1]
  {
    ListedLast(side, s, prices);
    SortedIsListing(side, s[..|s| - 1]);
    assert prices - {s[|s| - 1]} == SetOf(s[..|s| - 1]);
  }
}
