/** What the runtime relies on of one step of the connection manager: its counters, its records and its flags. */
module CoinbaseLedger {
  import opened Base
  import opened Envelope
  import opened Tape
  import opened CoinbaseFeed
  import opened CoinbaseManager
  import opened CoinbaseJournal
  import CoinbaseLink
  import Market
  import CoinbaseRuns

  datatype Ledger = Ledger(
    records: seq<Record<Payload>>, next: nat, received: Option<nat>, enqueued: Option<nat>, processed: Option<nat>,
    terminal: bool)

  function LedgerOf(j: Journal): (l: Ledger)
  {
    Ledger(Records(j.tape), j.nextIndex, j.received, j.enqueued, j.processed, j.terminal)
  }

  /** The event is a message the manager will take. */
  predicate Takes(m: Manager, e: Event) { e.OnMessage? && Live(m, e.generation) && m.connected }

  /** The ledger after an offered message. */
  function Entered(l: Ledger, connection: nat, e: Event): (r: Ledger)
    requires e.OnMessage?
  {
    if e.pushed == Accepted
    then Ledger(l.records + [Record(l.next, connection, e.mono, e.size, e.payload)], l.next + 1,
                Some(l.next), Some(l.next), Some(l.next), l.terminal)
    else l.(next := l.next + 1, received := Some(l.next), terminal := true)
  }

  lemma MarkedLedger(j: Journal, state: Market.BookState, reason: string, recovering: bool)
    ensures LedgerOf(Marked(j, state, reason, recovering)) == LedgerOf(j)
  {
    var k := Marked(j, state, reason, recovering);
    if reason != "" {
      Appended(j.tape, k.tape[|j.tape|]);
    }
  }

  lemma TerminatedLedger(j: Journal, running: bool)
    ensures LedgerOf(Terminated(j, running)) == LedgerOf(j).(terminal := true)
  {
    var t := j.(terminal := true);
    MarkedLedger(t, Market.Disconnected, "requested_shutdown", false);
    var s := if running then Marked(t, Market.Disconnected, "requested_shutdown", false) else t;
    MarkedLedger(s, Market.Invalid, "terminal_failure", false);
  }

  lemma HandedLedger(j: Journal, p: Payload, size: nat, mono: int, pushed: PushResult)
    ensures var e := OnMessage(0, p, size, mono, pushed);
            var l := LedgerOf(Handed(j, p, size, mono, pushed));
            if pushed == Accepted then l == Entered(LedgerOf(j), j.connectionId, e)
            else l.(terminal := true) == Entered(LedgerOf(j), j.connectionId, e)
  {
    Appended(j.tape, Recorded(Record(j.nextIndex, j.connectionId, mono, size, p)));
  }

  lemma MessageLedger(j: Journal, move: Move)
    requires move.Message?
    ensures LedgerOf(Moved(j, move)) ==
            Entered(LedgerOf(j), j.connectionId, OnMessage(0, move.payload, move.size, move.mono, move.pushed))
  {
    var k := Handed(j, move.payload, move.size, move.mono, move.pushed);
    var result := ResultOf(j, move.payload, move.mono, move.pushed);
    HandedLedger(j, move.payload, move.size, move.mono, move.pushed);
    var i := Intake(j.feed, j.nextIndex, j.received, j.enqueued, j.processed);
    CoinbaseLink.RestoringResult(i, move.payload, move.mono, move.pushed);
    if move.pushed != Accepted {
      TerminatedLedger(k, true);
    } else if result.error != "" {
      MarkedLedger(k, Market.Invalid, result.error, true);
    }
  }

  lemma MoveLedger(j: Journal, move: Move)
    requires !move.Message?
    ensures LedgerOf(Moved(j, move)) == LedgerOf(j).(terminal := j.terminal || move.Fail?)
  {
    match move
    case Keep =>
    case Mark(state, reason, recovering, timeouts) => MarkedLedger(TimeoutsSet(j, timeouts), state, reason, recovering);
    case Open(now) => MarkedLedger(j, Market.Initializing, "new_connection", false);
    case Fail(running) => TerminatedLedger(j, running);
  }

  /** A step enters the message it takes; any other step leaves the ledger alone. Only a rejected push and an
      explicit failure are terminal. */
  lemma StepLedger(m: Manager, e: Event, now: int)
    requires CoinbaseRuns.Kept(m)
    ensures var a, b := LedgerOf(JournalOf(m)), LedgerOf(JournalOf(Step(m, e, now)));
            b == if Takes(m, e) then Entered(a, m.connectionId, e) else a.(terminal := a.terminal || e.FailTerminally?)
  {
    var move := StepMoves(m, e, now);
    if move.Message? {
      MessageLedger(JournalOf(m), move);
    } else {
      MoveLedger(JournalOf(m), move);
    }
  }

  /** A stopped manager stays stopped until it is started again. */
  lemma StepStops(m: Manager, e: Event, now: int)
    ensures m.stopping && !e.Start? ==> Step(m, e, now).stopping
    ensures e.Stop? || e.FailTerminally? ==> Step(m, e, now).stopping
  {}

  /** The books balance: counters agree with the record list, and records are numbered from zero. */
  predicate Balanced(l: Ledger)
  {
    && l.received == LastOf(l.next) && l.enqueued == l.processed == LastOf(|l.records|) && |l.records| <= l.next
    && (!l.terminal ==> l.next == |l.records|) && Numbered(l.records)
  }

  lemma KeptIsBalanced(m: Manager)
    requires CoinbaseRuns.Kept(m)
    ensures Balanced(LedgerOf(JournalOf(m)))
    ensures m.stopping ==> !m.recoveryPending
    ensures m.terminal ==> m.stopping
  {}
}
