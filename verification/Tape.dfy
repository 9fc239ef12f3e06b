/** Tapes: a run's records and lifecycle events in their order, and how a recording rebuilds that order from
    record-positioned events. */
module Tape {
  import opened Base
  import opened Market

  /** A book state change outside the messages, positioned in front of a record index. */
  datatype LifecycleEvent = LifecycleEvent(before: nat, state: BookState, reason: string)

  datatype TapeItem<R> = Recorded(record: R) | Lifecycle(event: LifecycleEvent)

  /** What the queue accepted, in order. */
  function Records<R>(t: seq<TapeItem<R>>): (r: seq<R>)
  {
    if t == [] then []
    else Records(t[..|t| - 1]) + if t[|t| - 1].Recorded? then [t[|t| - 1].record] else []
  }

  /** What the lifecycle observer was told, in order. */
  function Lifecycles<R>(t: seq<TapeItem<R>>): (l: seq<LifecycleEvent>)
  {
    if t == [] then []
    else Lifecycles(t[..|t| - 1]) + if t[|t| - 1].Lifecycle? then [t[|t| - 1].event] else []
  }

  /** Every lifecycle event names the number of records in front of it. */
  predicate Positioned<R>(t: seq<TapeItem<R>>)
  {
    t == [] || (Positioned(t[..|t| - 1]) &&
                (t[|t| - 1].Lifecycle? ==> t[|t| - 1].event.before == |Records(t[..|t| - 1])|))
  }

  /** The lifecycle states a manifest may contain. */
  predicate AllowedStates(l: seq<LifecycleEvent>)
  {
    forall i :: 0 <= i < |l| ==> l[i].state != Valid
  }

  lemma Appended<R>(t: seq<TapeItem<R>>, x: TapeItem<R>)
    ensures Records(t + [x]) == Records(t) + if x.Recorded? then [x.record] else []
    ensures Lifecycles(t + [x]) == Lifecycles(t) + if x.Lifecycle? then [x.event] else []
    ensures Positioned(t + [x]) <==> Positioned(t) && (x.Lifecycle? ==> x.event.before == |Records(t)|)
  {
    assert (t + [x])[..|t|] == t;
  }

  lemma {:induction false} SplitConcat<R>(a: seq<TapeItem<R>>, b: seq<TapeItem<R>>)
    ensures Records(a + b) == Records(a) + Records(b)
    ensures Lifecycles(a + b) == Lifecycles(a) + Lifecycles(b)
  {
    if b == [] {
      assert a + b == a;
    } else {
      var n := |b| - 1;
      assert a + b == (a + b[..n]) + [b[n]] && b == b[..n] + [b[n]];
      SplitConcat(a, b[..n]);
      Appended(a + b[..n], b[n]);
      Appended(b[..n], b[n]);
    }
  }

  // ----- Positions of a positioned tape -----

  /** Nondecreasing positions, none past the record count: what replay demands of a complete manifest. */
  predicate Ordered(l: seq<LifecycleEvent>, records: nat)
  {
    && (forall i, j :: 0 <= i < j < |l| ==> l[i].before <= l[j].before)
    && (forall i :: 0 <= i < |l| ==> l[i].before <= records)
  }

  lemma {:induction false} PositionedIsOrdered<R>(t: seq<TapeItem<R>>)
    requires Positioned(t)
    ensures Ordered(Lifecycles(t), |Records(t)|)
  {
    if t != [] {
      PositionedIsOrdered(t[..|t| - 1]);
      assert t == t[..|t| - 1] + [t[|t| - 1]];
      Appended(t[..|t| - 1], t[|t| - 1]);
    }
  }

  // ----- Merging -----

  /** The order in which replay goes through records and lifecycle events: before record i, the events
      positioned at i that come next in the list. */
  function Merged<R>(records: seq<R>, events: seq<LifecycleEvent>, i: nat, k: nat): (t: seq<TapeItem<R>>)
    requires i <= |records| && k <= |events|
    decreases |records| - i + |events| - k
  {
    if k < |events| && events[k].before == i then [Lifecycle(events[k])] + Merged(records, events, i, k + 1)
    else if i < |records| then [Recorded(records[i])] + Merged(records, events, i + 1, k)
    else []
  }

  /** Positions read from record i on: as Positioned, but front to back. */
  predicate PositionedFrom<R>(t: seq<TapeItem<R>>, i: nat)
    decreases |t|
  {
    t == [] || (if t[0].Lifecycle? then t[0].event.before == i && PositionedFrom(t[1..], i)
                else PositionedFrom(t[1..], i + 1))
  }

  lemma {:induction false} PositionedFromAppend<R>(t: seq<TapeItem<R>>, x: TapeItem<R>, i: nat)
    requires PositionedFrom(t, i) && (x.Lifecycle? ==> x.event.before == i + |Records(t)|)
    ensures PositionedFrom(t + [x], i)
    decreases |t|
  {
    if t == [] {
      assert t + [x] == [x];
    } else {
      assert (t + [x])[1..] == t[1..] + [x];
      assert t == [t[0]] + t[1..];
      SplitConcat([t[0]], t[1..]);
      OneItem(t[0]);
      PositionedFromAppend(t[1..], x, if t[0].Lifecycle? then i else i + 1);
    }
  }

  lemma OneItem<R>(x: TapeItem<R>)
    ensures Records([x]) == if x.Recorded? then [x.record] else []
    ensures Lifecycles([x]) == if x.Lifecycle? then [x.event] else []
  {
    assert [x] == [] + [x];
    Appended<R>([], x);
  }

  lemma {:induction false} FrontToBack<R>(t: seq<TapeItem<R>>)
    requires Positioned(t)
    ensures PositionedFrom(t, 0)
  {
    if t != [] {
      var n := |t| - 1;
      FrontToBack(t[..n]);
      assert t == t[..n] + [t[n]];
      PositionedFromAppend(t[..n], t[n], 0);
    }
  }

  lemma {:induction false} NoEarlierEvent<R>(t: seq<TapeItem<R>>, i: nat)
    requires PositionedFrom(t, i)
    ensures forall k :: 0 <= k < |Lifecycles(t)| ==> Lifecycles(t)[k].before >= i
    decreases |t|
  {
    if t != [] {
      assert t == [t[0]] + t[1..];
      SplitConcat([t[0]], t[1..]);
      OneItem(t[0]);
      NoEarlierEvent(t[1..], if t[0].Lifecycle? then i else i + 1);
    }
  }

  lemma {:induction false} MergeSuffix<R>(records: seq<R>, events: seq<LifecycleEvent>, i: nat, k: nat,
                                          t: seq<TapeItem<R>>)
    requires i <= |records| && k <= |events|
    requires PositionedFrom(t, i) && Records(t) == records[i..] && Lifecycles(t) == events[k..]
    ensures Merged(records, events, i, k) == t
    decreases |t|
  {
    if t == [] {
    } else {
      assert t == [t[0]] + t[1..];
      SplitConcat([t[0]], t[1..]);
      OneItem(t[0]);
      if t[0].Lifecycle? {
        assert events[k..] == [t[0].event] + Lifecycles(t[1..]);
        assert events[k] == events[k..][0] == t[0].event;
        assert events[k + 1..] == events[k..][1..] == Lifecycles(t[1..]);
        MergeSuffix(records, events, i, k + 1, t[1..]);
      } else {
        assert records[i..] == [t[0].record] + Records(t[1..]);
        assert records[i] == records[i..][0] == t[0].record;
        assert records[i + 1..] == records[i..][1..] == Records(t[1..]);
        NoEarlierEvent(t[1..], i + 1);
        if k < |events| {
          assert events[k] == events[k..][0];
        }
        MergeSuffix(records, events, i + 1, k, t[1..]);
      }
    }
  }

  /** Splitting a positioned tape into a record list and an event list loses nothing: merging restores it. */
  lemma MergeRestoresTape<R>(t: seq<TapeItem<R>>)
    requires Positioned(t)
    ensures Merged(Records(t), Lifecycles(t), 0, 0) == t
  {
    FrontToBack(t);
    assert Records(t)[0..] == Records(t) && Lifecycles(t)[0..] == Lifecycles(t);
    MergeSuffix(Records(t), Lifecycles(t), 0, 0, t);
  }

  // ----- Replaying -----

  /** Going through a tape item by item; None stands for an exception, which ends it. */
  function Fold<S, R>(step: (S, TapeItem<R>) -> Option<S>, s: S, t: seq<TapeItem<R>>): (r: Option<S>)
  {
    if t == [] then Some(s)
    else
      match Fold(step, s, t[..|t| - 1])
      case None => None
      case Some(u) => step(u, t[|t| - 1])
  }

  lemma FoldOne<S, R>(step: (S, TapeItem<R>) -> Option<S>, s: S, t: seq<TapeItem<R>>, x: TapeItem<R>)
    ensures Fold(step, s, t + [x]) == match Fold(step, s, t) case None => None case Some(u) => step(u, x)
  {
    assert (t + [x])[..|t|] == t;
  }

  lemma {:induction false} FoldConcat<S, R>(step: (S, TapeItem<R>) -> Option<S>, s: S,
                                            a: seq<TapeItem<R>>, b: seq<TapeItem<R>>)
    ensures Fold(step, s, a + b) == match Fold(step, s, a) case None => None case Some(u) => Fold(step, u, b)
  {
    if b == [] {
      assert a + b == a;
    } else {
      var n := |b| - 1;
      assert a + b == (a + b[..n]) + [b[n]];
      FoldConcat(step, s, a, b[..n]);
      FoldOne(step, s, a + b[..n], b[n]);
    }
  }

  /** What replay will end with from state s, record i and event k on. */
  function Rest<S, R>(step: (S, TapeItem<R>) -> Option<S>, s: S,
                      records: seq<R>, events: seq<LifecycleEvent>, i: nat, k: nat): (r: Option<S>)
    requires i <= |records| && k <= |events|
  {
    Fold(step, s, Merged(records, events, i, k))
  }

  /** The events that will have been consumed. */
  function Consumed<R>(records: seq<R>, events: seq<LifecycleEvent>, i: nat, k: nat): (n: nat)
    requires i <= |records| && k <= |events|
  {
    k + |Lifecycles(Merged(records, events, i, k))|
  }

  /** Replaying records and events from s; every lifecycle event must have been consumed. */
  function Played<S, R>(step: (S, TapeItem<R>) -> Option<S>, s: S,
                        records: seq<R>, events: seq<LifecycleEvent>): (r: Option<S>)
  {
    if Consumed(records, events, 0, 0) != |events| then None else Rest(step, s, records, events, 0, 0)
  }

  /** Past the last record nothing but an event out of place can remain. */
  lemma AtEnd<S, R>(step: (S, TapeItem<R>) -> Option<S>, s: S, records: seq<R>, events: seq<LifecycleEvent>, k: nat)
    requires k <= |events| && (k < |events| ==> events[k].before != |records|)
    ensures Rest(step, s, records, events, |records|, k) == Some(s)
    ensures Consumed(records, events, |records|, k) == k
  {}

  lemma FoldFirst<S, R>(step: (S, TapeItem<R>) -> Option<S>, s: S, x: TapeItem<R>, later: seq<TapeItem<R>>)
    ensures Fold(step, s, [x] + later) == match step(s, x) case None => None case Some(u) => Fold(step, u, later)
    ensures |Lifecycles([x] + later)| == |Lifecycles(later)| + if x.Lifecycle? then 1 else 0
  {
    FoldConcat(step, s, [x], later);
    FoldOne(step, s, [], x);
    assert [] + [x] == [x];
    SplitConcat([x], later);
    OneItem(x);
  }

  lemma EventStep<S, R>(step: (S, TapeItem<R>) -> Option<S>, s: S,
                        records: seq<R>, events: seq<LifecycleEvent>, i: nat, k: nat)
    requires i <= |records| && k < |events| && events[k].before == i
    ensures Rest(step, s, records, events, i, k) ==
            match step(s, Lifecycle(events[k]))
            case None => None
            case Some(u) => Rest(step, u, records, events, i, k + 1)
    ensures Consumed(records, events, i, k) == Consumed(records, events, i, k + 1)
  {
    FoldFirst(step, s, Lifecycle(events[k]), Merged(records, events, i, k + 1));
  }

  lemma RecordStep<S, R>(step: (S, TapeItem<R>) -> Option<S>, s: S,
                         records: seq<R>, events: seq<LifecycleEvent>, i: nat, k: nat)
    requires i < |records| && k <= |events| && (k < |events| ==> events[k].before != i)
    ensures Rest(step, s, records, events, i, k) ==
            match step(s, Recorded(records[i]))
            case None => None
            case Some(u) => Rest(step, u, records, events, i + 1, k)
    ensures Consumed(records, events, i, k) == Consumed(records, events, i + 1, k)
  {
    FoldFirst(step, s, Recorded(records[i]), Merged(records, events, i + 1, k));
  }
}
