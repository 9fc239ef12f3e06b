/** What a replayed Coinbase book holds, for every recording whether or not a live run produced it. */
module CoinbaseReplayBooks {
  import opened Base
  import opened Envelope
  import opened Market
  import opened Tape
  import opened CoinbaseFeed
  import opened CoinbaseHistory
  import opened CoinbaseReplay
  import CoinbaseJournal

  /** One result per record; a Valid book belongs to the connection of the last record and descends from a snapshot
      recorded on it. */
  ghost predicate Sourced(s: Replayer, records: seq<Record<Payload>>)
  {
    && |s.results| == |records|
    && (s.lifecycleConnected ==> s.feed.book.state != Valid)
    && (s.feed.book.state == Valid ==> s.connection.Some?)
    && (s.connection.Some? ==> Descends(s.feed, CoinbaseJournal.HistoryOf(records, s.results), s.connection.value))
  }

  lemma EventSourced(s: Replayer, records: seq<Record<Payload>>, e: LifecycleEvent)
    requires Sourced(s, records) && e.state != Valid
    ensures Sourced(AppliedEvent(s, e), records)
  {}

  /** Across a connection boundary the book is not Valid. */
  lemma BoundarySourced(s: Replayer, records: seq<Record<Payload>>, r: Record<Payload>)
    requires Sourced(s, records)
    ensures var b := Bounded(s, r);
            b.results == s.results && Descends(b.feed, CoinbaseJournal.HistoryOf(records, s.results), r.connection)
  {}

  lemma RecordSourced(s: Replayer, records: seq<Record<Payload>>, r: Record<Payload>)
    requires Sourced(s, records) && StepItem(s, Recorded(r)).Some?
    ensures Sourced(StepItem(s, Recorded(r)).value, records + [r])
  {
    var b := Bounded(s, r);
    BoundarySourced(s, records, r);
    var p := Processed(b.feed, r.payload, r.mono);
    ProcessingDescends(b.feed, CoinbaseJournal.HistoryOf(records, s.results), r.connection, r.payload, r.mono);
    CoinbaseJournal.HistoryAppend(records, s.results, r, p.result);
  }

  /** However a recording came about, while its replayed book is Valid the levels are the last writes since the latest
      accepted snapshot, and the accepted sequences since then run unbroken up to the tracker. */
  lemma {:induction false} ReplayedBookIsSourced(hasLifecycle: bool, t: seq<TapeItem<Record<Payload>>>)
    requires AllowedStates(Lifecycles(t)) && RunTape(Initial(hasLifecycle), t).Some?
    ensures Sourced(RunTape(Initial(hasLifecycle), t).value, Records(t))
  {
    if t != [] {
      var first, last := t[..|t| - 1], t[|t| - 1];
      assert t == first + [last];
      Appended(first, last);
      assert AllowedStates(Lifecycles(first)) by {
        assert forall i :: 0 <= i < |Lifecycles(first)| ==> Lifecycles(first)[i] == Lifecycles(t)[i];
      }
      ReplayedBookIsSourced(hasLifecycle, first);
      var s := RunTape(Initial(hasLifecycle), first).value;
      match last
      case Lifecycle(e) =>
        assert e == Lifecycles(t)[|Lifecycles(first)|];
        EventSourced(s, Records(first), e);
      case Recorded(r) => RecordSourced(s, Records(first), r);
    }
  }
}
