/** A live Kraken capture, without sockets and threads: the step logic of src/pipeline/kraken_runtime.cpp. */
module KrakenLive {
  import opened Base
  import opened Envelope
  import opened Market
  import opened Tape
  import opened KrakenProcessor
  import CoinbaseManager

  /** Seconds; zero switches the limit off. */
  datatype Config = Config(depth: nat, duration: nat, force: nat)

  /** The variables the handlers of the market thread share; fatal says that a fatal error was recorded or seen. */
  datatype Link = Link(
    index: nat, connection: nat, stopping: bool, recovering: bool, connected: bool,
    firstRecord: bool, seenRecord: bool, forced: bool, connectedAt: int, delay: nat, fatal: bool)

  /** The tape stands for the recording queue and the lifecycle log. */
  datatype Live = Live(config: Config, started: int, link: Link, processor: Processor,
                       tape: seq<TapeItem<Record<Payload>>>)

  function Init(config: Config, now: int): (l: Live)
  {
    var link := Link(0, 0, false, false, false, true, false, false, now, CoinbaseManager.FIRST_DELAY, false);
    Live(config, now, link, New(config.depth), [])
  }

  const SECOND: int := 1_000_000_000
  const MESSAGE_TIMEOUT: int := 5 * SECOND
  const SNAPSHOT_TIMEOUT: int := 15 * SECOND

  function Stopped(l: Live): (r: Live) { l.(link := l.link.(stopping := true, connected := false)) }

  /** A fatal error makes the book Invalid. */
  function Doomed(l: Live): (r: Live)
  {
    l.(link := l.link.(fatal := true), processor := l.processor.WithState(Invalid))
  }

  function Recovered(l: Live, reason: string, stale: bool): (r: Live)
  {
    if l.link.stopping || l.link.recovering then l
    else
      var state := if stale then Stale else Disconnected;
      l.(link := l.link.(recovering := true, connected := false, delay := CoinbaseManager.NextDelay(l.link.delay)),
         processor := l.processor.WithState(state),
         tape := l.tape + [Lifecycle(LifecycleEvent(l.link.index, state, reason))])
  }

  function Connecting(l: Live, now: int): (r: Live)
  {
    l.(link := l.link.(recovering := false, firstRecord := true, connection := l.link.connection + 1,
                       connectedAt := now))
  }

  /** The first record of a later connection resets the processor. */
  function Entered(l: Live): (r: Live)
  {
    if !l.link.firstRecord then l
    else l.(link := l.link.(firstRecord := false, seenRecord := true),
            processor := if l.link.seenRecord then Reset(l.processor) else l.processor)
  }

  /** After processing: the message is counted, and a failed one starts a recovery. */
  function Concluded(e: Live, result: (Processor, bool), reason: string): (r: Live)
  {
    var q := Counted(e, result.0);
    if !result.1 then Recovered(q, reason, false)
    else if result.0.State() == Valid then q.(link := q.link.(delay := CoinbaseManager.FIRST_DELAY)) else q
  }

  function Counted(e: Live, p: Processor): (r: Live) { e.(processor := p, link := e.link.(index := e.link.index + 1)) }

  function Recording(l: Live, m: Payload, size: nat, mono: int): (r: Live)
  {
    l.(tape := l.tape + [Recorded(Record(l.link.index, l.link.connection, mono, size, m))])
  }

  /** An accepted message: recorded, entered and processed. */
  function Taken(l: Live, m: Payload, size: nat, mono: int, reason: string): (r: Live)
  {
    var e := Entered(Recording(l, m, size, mono));
    Concluded(e, Processed(e.processor, m, mono), reason)
  }

  function Messaged(l: Live, m: Payload, size: nat, mono: int, answer: PushResult, reason: string): (r: Live)
  {
    if l.link.stopping then l
    else if answer != PushResult.Accepted then Stopped(Doomed(l))
    else Taken(l, m, size, mono, reason)
  }

  /** The liveness limits of a tick. */
  function Watched(l: Live, now: int): (r: Live)
  {
    if !l.link.connected || l.link.recovering then l
    else
      var last := if l.link.firstRecord || l.processor.lastMessage.None? then l.link.connectedAt
                  else l.processor.lastMessage.value;
      if now - last > MESSAGE_TIMEOUT then Recovered(l, "message_timeout", true)
      else if l.processor.State() != Valid && now - l.link.connectedAt > SNAPSHOT_TIMEOUT
      then Recovered(l, "snapshot_timeout", false)
      else l
  }

  predicate Due(limit: nat, elapsed: int) { limit != 0 && elapsed >= limit * SECOND }

  function Forced(l: Live, now: int): (r: Live)
  {
    if !l.link.recovering && !l.link.forced && Due(l.config.force, now - l.started)
    then Recovered(l.(link := l.link.(forced := true)), "forced_disconnect", false) else l
  }

  /** A tick reads the shared status twice: seen and again say whether it held a fatal error. */
  function Ticked(l: Live, now: int, requested: bool, seen: bool, again: bool): (r: Live)
  {
    var i := if seen then Doomed(l) else l;
    var s := if requested || again || Due(l.config.duration, now - l.started) then Stopped(i) else i;
    var f := if again then s.(link := s.link.(fatal := true)) else s;
    if f.link.stopping then f else Watched(Forced(f, now), now)
  }

  // ----- Events and runs -----

  datatype Event =
    | Connect(now: int)                           // at startup, or a retry that fired
    | OnConnected(now: int)
    | OnMessage(payload: Payload, size: nat, mono: int, answer: PushResult, reason: string)
    | OnError(reason: string)
    | Tick(now: int, requested: bool, seen: bool, again: bool)
    | Halt                                        // a fatal error was found at startup

  function Step(l: Live, e: Event): (r: Live)
  {
    match e
    case Connect(now) => if l.link.stopping then l else Connecting(l, now)
    case OnConnected(now) => l.(link := l.link.(connected := true, connectedAt := now))
    case OnMessage(m, size, mono, answer, reason) => Messaged(l, m, size, mono, answer, reason)
    case OnError(reason) => Recovered(l, reason, false)
    case Tick(now, requested, seen, again) => Ticked(l, now, requested, seen, again)
    case Halt => Stopped(l)
  }

  function Run(config: Config, start: int, events: seq<Event>): (l: Live)
  {
    if events == [] then Init(config, start) else Step(Run(config, start, events[..|events| - 1]), events[|events| - 1])
  }
}
