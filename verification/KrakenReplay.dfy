/** Session replay for Kraken: the Kraken branch of sessions::replay in src/session/session.cpp. */
module KrakenReplay {
  import opened Base
  import opened Envelope
  import opened Market
  import opened Tape
  import opened KrakenProcessor

  datatype Replayer = Replayer(processor: Processor, connection: Option<nat>)

  function Initial(depth: nat): (s: Replayer) { Replayer(New(depth), None) }

  /** A lifecycle event makes the book Stale, Invalid or, whatever else it names, Disconnected. */
  function AppliedEvent(s: Replayer, e: LifecycleEvent): (r: Replayer)
  {
    var state := if e.state == Stale then Stale else if e.state == Invalid then Invalid else Disconnected;
    s.(processor := s.processor.WithState(state))
  }

  function Bounded(s: Replayer, connection: nat): (r: Replayer)
  {
    if s.connection == Some(connection) then s
    else Replayer(if s.connection.Some? then Reset(s.processor) else s.processor, Some(connection))
  }

  /** One item; None stands for the exception on a connection id that goes back. */
  function StepItem(s: Replayer, item: TapeItem<Record<Payload>>): (r: Option<Replayer>)
  {
    match item
    case Lifecycle(e) => Some(AppliedEvent(s, e))
    case Recorded(record) =>
      if s.connection.Some? && record.connection < s.connection.value then None
      else
        var b := Bounded(s, record.connection);
        Some(b.(processor := Processed(b.processor, record.payload, record.mono).0))
  }

  function RunTape(s: Replayer, t: seq<TapeItem<Record<Payload>>>): (r: Option<Replayer>) { Fold(StepItem, s, t) }

  /** Replaying a complete session. */
  function Replayed(depth: nat, records: seq<Record<Payload>>, events: seq<LifecycleEvent>): (r: Option<Replayer>)
  {
    Played(StepItem, Initial(depth), records, events)
  }
}
