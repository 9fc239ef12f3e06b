/** A live Coinbase capture: market thread, writer thread and main thread of src/pipeline/live_runtime.cpp,
    interleaved. Each action is one critical section together with the thread-local work around it. */
module CoinbaseRuntime {
  import opened Base
  import opened Envelope
  import opened Tape
  import R = Recording
  import W = WriterThread
  import opened RuntimeStatus
  import opened CoinbaseFeed
  import opened CoinbaseManager
  import opened CoinbaseLedger
  import CoinbaseJournal
  import CoinbaseRuns

  // ----- State -----

  /** Where the market thread stands. */
  datatype Phase =
    | Awaiting                                  // for the writer to be ready or done
    | Registered                                // the post callback is registered
    | Copied(fatal: Option<string>)             // the initial status has been copied
    | Looping                                   // between two handlers of the event loop
    | Pushed(message: Event, now: int)          // an envelope was offered and answered
    | Ticked(fatal: Option<string>)             // a tick has copied the status
    | TickStopped                               // a tick has made its decision
    | Caught(error: string)                     // an exception left the loop
    | CaughtClosed(error: string)               // ... and the queue was closed
    | Leaving                                   // past the try block
    | Left                                      // the queue is closed for good
    | Gone

  /** What the threads see of the connection manager. */
  datatype Desk = Desk(ledger: Ledger, connectionId: nat, stopping: bool, lifecycle: seq<LifecycleEvent>)

  function DeskOf(m: Manager): (d: Desk)
  {
    Desk(LedgerOf(CoinbaseJournal.JournalOf(m)), m.connectionId, m.stopping, Lifecycles(m.tape))
  }

  /** The three threads, without the manager's inside. */
  datatype Threads = Threads(
    desk: Desk, pipe: R.Pipeline<Payload>, status: Status, phase: Phase, stopping: bool, ticking: bool,
    ready: bool, writerDone: bool, registered: bool, posted: Option<string>, joined: bool)

  datatype Runtime = Runtime(config: HealthConfig, start: int, history: seq<Timed>, manager: Manager, threads: Threads)

  // ----- Actions -----

  datatype Action =
    | Register
    | CopyStatus
    | Begin(requested: bool)
    | Offer(message: Event)
    | Settle
    | Act(event: Event)
    | HandlePosted
    | Tick
    | TickDecide(requested: bool)
    | TickEnd
    | Leave
    | Throw(error: string)
    | CloseCaught
    | ReportCaught
    | CloseLeaving
    | SignOff
    | Write(action: R.Action<Payload>)
    | Join

  /** Events that reach the manager from timers and transport, without passing the queue. */
  predicate FromOutside(e: Event) { e.OnConnected? || e.OnError? || e.OnRetry? || e.CheckHealth? || e.ForceDisconnect? }

  /** The manager call made by the stop function of the market thread. */
  function HaltEvent(t: Threads, error: string): (e: Option<Event>)
  {
    if error != "" then Some(FailTerminally(error)) else if !t.stopping then Some(Stop) else None
  }

  predicate TickHalts(t: Threads, requested: bool)
    requires t.phase.Ticked?
  {
    requested || t.phase.fatal.Some? || t.desk.ledger.terminal
  }

  function OrEmpty(error: Option<string>): (s: string) { if error.Some? then error.value else "" }

  /** Phases inside the try block from which an exception can leave. */
  predicate MayThrow(p: Phase)
  {
    p.Awaiting? || p.Registered? || p.Copied? || p.Looping? || p.Ticked? || p.TickStopped?
  }

  /** The manager call an action makes, if any. */
  function Call(t: Threads, a: Action): (e: Option<Event>)
  {
    match a
    case Begin(requested) =>
      if !t.phase.Copied? then None
      else if t.phase.fatal.Some? || requested then HaltEvent(t, OrEmpty(t.phase.fatal))
      else Some(Start)
    case Settle => if t.phase.Pushed? then Some(t.phase.message) else None
    case Act(e) => if t.phase.Looping? && FromOutside(e) then Some(e) else None
    case HandlePosted => if t.phase.Looping? && t.posted.Some? then HaltEvent(t, t.posted.value) else None
    case TickDecide(requested) =>
      if t.phase.Ticked? && TickHalts(t, requested) then HaltEvent(t, OrEmpty(t.phase.fatal)) else None
    case Throw(_) => if MayThrow(t.phase) then Some(Stop) else None   // the manager's destructor
    case _ => None
  }

  // ----- The threads -----

  /** The manager made its move; its lifecycle observer wrote to the shared status. */
  function Seen(t: Threads, d: Desk): (u: Threads) { t.(desk := d, status := t.status.(lifecycle := d.lifecycle)) }

  function ClosedQueue(t: Threads): (u: Threads) { t.(pipe := R.Shut(t.pipe)) }

  function Halted(t: Threads, d: Desk): (u: Threads)
  {
    if t.stopping then Seen(t, d) else ClosedQueue(Seen(t, d).(stopping := true))
  }

  /** The envelope of the next message. */
  function NextEnvelope(t: Threads, e: Event): (r: Record<Payload>)
    requires e.OnMessage?
  {
    Record(t.pipe.received, t.desk.connectionId, e.mono, e.size, e.payload)
  }

  function Offered(t: Threads, e: Event, now: int): (u: Threads)
    requires e.OnMessage?
  {
    var r := NextEnvelope(t, e);
    t.(pipe := R.Offered(t.pipe, r), phase := Pushed(e.(pushed := R.Answer(t.pipe.queue, t.pipe.limits, r)), now))
  }

  /** The rest of the handler: processing and the publish callback. */
  function Settled(t: Threads, pushed: PushResult, d: Desk): (u: Threads)
  {
    var s := Seen(t, d);
    var l := d.ledger;
    s.(status := Published(s.status, pushed != Accepted, RejectionError(pushed), l.received, l.enqueued, l.processed),
       pipe := if pushed == Accepted then R.Taken(t.pipe, R.Process) else t.pipe,
       phase := Looping)
  }

  function TickEnded(t: Threads): (u: Threads)
  {
    if !t.stopping then t.(phase := Looping)
    else if t.writerDone then t.(phase := Looping, ticking := false)
    else t.(phase := Looping, status := Draining(t.status))
  }

  /** What the writer thread works on. */
  function BenchOf(t: Threads): (b: W.Bench<Payload>) { W.Bench(t.pipe, t.status, t.ready, t.writerDone) }

  /** A writer action; a failure is also posted to the market thread while its callback is registered. */
  function Written(t: Threads, a: R.Action<Payload>): (u: Threads)
  {
    var b, w := W.Worked(BenchOf(t), a), t.pipe.writer.phase;
    t.(pipe := b.pipe, status := b.status, ready := b.ready, writerDone := b.done,
       posted := if a.Report? && w.Failing? && t.registered then Some(w.error) else t.posted)
  }

  /** One action, given the desk after the manager call it makes; takes tells whether the manager takes an offered
      message. An action that is not enabled changes nothing. */
  function Moved(t: Threads, a: Action, now: int, d: Desk, takes: bool): (u: Threads)
  {
    match a
    case Register =>
      if t.phase.Awaiting? && (t.ready || t.writerDone) then t.(phase := Registered, registered := true) else t
    case CopyStatus => if t.phase.Registered? then t.(phase := Copied(t.status.fatal)) else t
    case Begin(requested) =>
      if !t.phase.Copied? then t
      else if t.phase.fatal.Some? || requested then Halted(t, d).(phase := Looping)
      else Seen(t.(status := t.status.(state := Running)), d).(phase := Looping)
    case Offer(e) => if t.phase.Looping? && takes && e.OnMessage? then Offered(t, e, now) else t
    case Settle => if t.phase.Pushed? && t.phase.message.OnMessage? then Settled(t, t.phase.message.pushed, d) else t
    case Act(e) => if t.phase.Looping? && FromOutside(e) then Seen(t, d) else t
    case HandlePosted => if t.phase.Looping? && t.posted.Some? then Halted(t.(posted := None), d) else t
    case Tick => if t.phase.Looping? && t.ticking then t.(phase := Ticked(t.status.fatal)) else t
    case TickDecide(requested) =>
      if !t.phase.Ticked? then t
      else if TickHalts(t, requested) then Halted(t, d).(phase := TickStopped) else t.(phase := TickStopped)
    case TickEnd => if t.phase.TickStopped? then TickEnded(t) else t
    case Leave => if t.phase.Looping? && !t.ticking then t.(phase := Leaving, registered := false) else t
    case Throw(error) => if MayThrow(t.phase) then Seen(t, d).(phase := Caught(error), registered := false) else t
    case CloseCaught => if t.phase.Caught? then ClosedQueue(t).(phase := CaughtClosed(t.phase.error)) else t
    case ReportCaught =>
      if t.phase.CaughtClosed?
      then t.(status := Failing(t.status, t.phase.error, StoppedProcessingError), registered := false, phase := Leaving)
      else t
    case CloseLeaving => if t.phase.Leaving? then ClosedQueue(t).(phase := Left) else t
    case SignOff => if t.phase.Left? then t.(phase := Gone) else t
    case Write(w) => if W.OfWriter(w) then Written(t, w) else t
    case Join => if t.phase.Gone? && t.writerDone && !t.joined then t.(status := Ended(t.status), joined := true) else t
  }

  // ----- The runtime -----

  function Launched(config: HealthConfig, start: int, limits: R.Limits): (r: Runtime)
  {
    var m := Init(config, start);
    Runtime(config, start, [], m,
            Threads(DeskOf(m), R.Idle(limits), NEW_STATUS, Awaiting, false, true, false, false, false, None, false))
  }

  /** An action and the clock reading the manager gets for it. */
  datatype TimedAction = TimedAction(action: Action, now: int)

  function Called(m: Manager, e: Option<Event>, now: int): (n: Manager) { if e.Some? then Step(m, e.value, now) else m }

  function Taken(r: Runtime, a: Action, now: int): (s: Runtime)
  {
    var call := Call(r.threads, a);
    var m := Called(r.manager, call, now);
    var takes := a.Offer? && Takes(r.manager, a.message);
    r.(history := if call.Some? then r.history + [Timed(call.value, now)] else r.history, manager := m,
       threads := Moved(r.threads, a, now, DeskOf(m), takes))
  }

  function Reached(config: HealthConfig, start: int, limits: R.Limits, actions: seq<TimedAction>): (r: Runtime)
  {
    if actions == [] then Launched(config, start, limits)
    else
      var a := actions[|actions| - 1];
      Taken(Reached(config, start, limits, actions[..|actions| - 1]), a.action, a.now)
  }
}
