/** Where the levels of a Valid Coinbase book come from: a reading of the processed messages that does not
    mention the book. */
module CoinbaseHistory {
  import opened Base
  import opened Market
  import opened CoinbaseFeed

  /** A processed message: its connection, what it said, and what became of it. */
  datatype Entry = Entry(connection: nat, payload: Payload, outcome: Outcome)

  predicate Restores(e: Entry)
  {
    e.outcome == BookUpdated && e.payload.L2? && SnapshotCount(e.payload.items) > 0
  }

  predicate Extends(e: Entry) { e.outcome == BookUpdated && e.payload.L2? }

  /** An envelope that carried a sequence and continued the tracker without failing. */
  predicate Sequenced(e: Entry)
  {
    e.outcome in {BookUpdated, Ignored} && SequenceOf(e.payload).Some?
  }

  /** The changes of one envelope from its last snapshot on; all of them when it has none. */
  function ChangesOf(items: seq<L2Item>): (c: seq<BookLevel>)
  {
    if items == [] then []
    else
      var last := items[|items| - 1];
      if last.snapshot then last.levels else ChangesOf(items[..|items| - 1]) + last.levels
  }

  /** Every L2 change accepted since the latest snapshot, in order. */
  function ChangesSince(h: seq<Entry>): (c: seq<BookLevel>)
  {
    if h == [] then []
    else
      var e := h[|h| - 1];
      if Restores(e) then ChangesOf(e.payload.items)
      else if Extends(e) then ChangesSince(h[..|h| - 1]) + ChangesOf(e.payload.items)
      else ChangesSince(h[..|h| - 1])
  }

  /** The sequences accepted from the envelope of the latest snapshot on. */
  function SequencesSince(h: seq<Entry>): (s: seq<nat>)
  {
    if h == [] then []
    else
      var e := h[|h| - 1];
      if Restores(e) then [e.payload.number]
      else if Sequenced(e) then SequencesSince(h[..|h| - 1]) + [SequenceOf(e.payload).value]
      else SequencesSince(h[..|h| - 1])
  }

  /** The connection on which the latest snapshot was accepted. */
  function SnapshotConnection(h: seq<Entry>): (c: Option<nat>)
  {
    if h == [] then None
    else if Restores(h[|h| - 1]) then Some(h[|h| - 1].connection)
    else SnapshotConnection(h[..|h| - 1])
  }

  predicate Unbroken(s: seq<nat>) { forall i :: 0 < i < |s| ==> s[i] == s[i - 1] + 1 }

  /** A Valid book holds exactly the last writes since a snapshot of the current connection, and the accepted
      sequences since that snapshot run unbroken up to the tracker, which is not behind the book. */
  ghost predicate Descends(f: Feed, h: seq<Entry>, connection: nat)
  {
    f.book.state == Valid ==>
      && SnapshotConnection(h) == Some(connection)
      && f.book.sides == AllChanged(NO_LEVELS, ChangesSince(h))
      && HoldsLastWrites(f.book.sides, ChangesSince(h))
      && SequencesSince(h) != [] && Unbroken(SequencesSince(h))
      && f.sequence == Some(SequencesSince(h)[|SequencesSince(h)| - 1])
      && f.book.lastSequence.Some? && f.book.lastSequence.value <= f.sequence.value
  }

  /** Applying one envelope's events, read off its items. */
  lemma {:induction false} EnvelopeApplied(b: Book, items: seq<L2Item>, number: nat)
    requires items != [] && AllApplied(b, EventsOf(items, number)).Some?
    ensures var r := AllApplied(b, EventsOf(items, number)).value;
            && r.state == Valid && r.lastSequence == Some(number)
            && r.sides == AllChanged(if SnapshotCount(items) > 0 then NO_LEVELS else b.sides, ChangesOf(items))
  {
    var n := |items| - 1;
    var events := EventsOf(items, number);
    assert EventsOf(items[..n], number) == events[..n];
    assert events[n] == EventOf(items[n], number);
    if items[n].snapshot {
    } else if n == 0 {
      assert items[..n] == [];
      assert [] + items[n].levels == items[n].levels;
    } else {
      EnvelopeApplied(b, items[..n], number);
      var sides := if SnapshotCount(items[..n]) > 0 then NO_LEVELS else b.sides;
      ChangesConcat(sides, ChangesOf(items[..n]), items[n].levels);
    }
  }

  lemma {:induction false} FirstSnapshotCounts(items: seq<L2Item>)
    requires items != [] && items[0].snapshot
    ensures SnapshotCount(items) > 0
  {
    if |items| > 1 {
      FirstSnapshotCounts(items[..|items| - 1]);
    }
  }

  /** One message through the shared processor keeps the property, whatever it is. */
  lemma ProcessingDescends(f: Feed, h: seq<Entry>, connection: nat, p: Payload, mono: int)
    requires Descends(f, h, connection)
    ensures var (g, r) := Absorbed(Processed(f, p, mono));
            Descends(g, h + [Entry(connection, p, r.outcome)], connection)
  {
    var (g, r) := Absorbed(Processed(f, p, mono));
    var e := Entry(connection, p, r.outcome);
    assert (h + [e])[..|h|] == h;
    if g.book.state == Valid {
      ValidAfter(f, p, mono);
      if r.outcome == BookUpdated {
        AppliedDescends(f, h, connection, p, mono);
      }
    }
  }

  /** What processing can have done when the book ends Valid. */
  lemma ValidAfter(f: Feed, p: Payload, mono: int)
    requires Absorbed(Processed(f, p, mono)).0.book.state == Valid
    ensures var (g, r) := Absorbed(Processed(f, p, mono));
            && r.outcome in {BookUpdated, Ignored, DuplicateMessage, OutOfOrderMessage}
            && (r.outcome != BookUpdated ==> g.book == f.book)
            && (r.outcome in {DuplicateMessage, OutOfOrderMessage} ==> g.sequence == f.sequence)
            && (r.outcome in {BookUpdated, Ignored} ==>
                  if SequenceOf(p).None? then g.sequence == f.sequence
                  else g.sequence == SequenceOf(p) &&
                       (f.sequence.Some? ==> SequenceOf(p).value == f.sequence.value + 1))
            && (r.outcome == BookUpdated ==>
                  && p.L2? && p.items != [] && AllApplied(f.book, EventsOf(p.items, p.number)) == Some(g.book)
                  && (f.book.state == Valid || p.items[0].snapshot))
  {}

  lemma AppliedDescends(f: Feed, h: seq<Entry>, connection: nat, p: Payload, mono: int)
    requires Descends(f, h, connection)
    requires Absorbed(Processed(f, p, mono)).0.book.state == Valid
    requires Absorbed(Processed(f, p, mono)).1.outcome == BookUpdated
    ensures Descends(Absorbed(Processed(f, p, mono)).0, h + [Entry(connection, p, BookUpdated)], connection)
  {
    ValidAfter(f, p, mono);
    var e := Entry(connection, p, BookUpdated);
    assert (h + [e])[..|h|] == h;
    EnvelopeApplied(f.book, p.items, p.number);
    if f.book.state != Valid {
      FirstSnapshotCounts(p.items);
    }
    if !Restores(e) {
      ChangesConcat(NO_LEVELS, ChangesSince(h), ChangesOf(p.items));
    }
    ChangesAreLastWrites(ChangesSince(h + [e]));
  }
}
