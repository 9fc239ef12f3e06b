/** A live Kraken capture: market thread, writer thread and main thread of src/pipeline/kraken_runtime.cpp,
    interleaved. Each action is one critical section together with the thread-local work around it. */
module KrakenRuntime {
  import opened Base
  import opened Envelope
  import opened Tape
  import R = Recording
  import W = WriterThread
  import opened RuntimeStatus
  import opened KrakenProcessor
  import opened KrakenLive

  /** Where the market thread stands. */
  datatype Phase =
    | Awaiting                    // for the writer to be ready or done
    | Checked(fatal: bool)        // the initial status has been read
    | Looping                     // between two handlers of the event loop
    | Pushed(message: Event)      // an envelope was offered and answered
    | Noted(message: Event)       // ... and the answer is in the status
    | Ticked(seen: bool)          // a tick has read the status once
    | Caught(error: string)       // an exception left the loop
    | Leaving                     // past the try block
    | Left                        // the queue is closed for good
    | Gone

  /** What the threads see of the market thread's variables. */
  datatype Desk = Desk(
    records: seq<Record<Payload>>, lifecycle: seq<LifecycleEvent>, stopping: bool, fatal: bool, connection: nat)

  function DeskOf(l: Live): (d: Desk)
  {
    Desk(Records(l.tape), Lifecycles(l.tape), l.link.stopping, l.link.fatal, l.link.connection)
  }

  datatype Threads = Threads(
    desk: Desk, pipe: R.Pipeline<Payload>, status: Status, phase: Phase, ticking: bool, ready: bool, writerDone: bool,
    joined: bool)

  datatype Runtime = Runtime(config: Config, start: int, history: seq<Event>, live: Live, threads: Threads)

  // ----- Actions -----

  datatype Action =
    | CheckStatus
    | Begin(now: int)
    | Offer(message: Event)
    | Note
    | Settle
    | Act(event: Event)
    | TickRead
    | TickDecide(now: int, requested: bool)
    | Leave
    | Throw(error: string)
    | ReportCaught
    | CloseLeaving
    | SignOff
    | Write(action: R.Action<Payload>)
    | Join

  /** Events from transport and timers that do not pass the queue. */
  predicate FromOutside(e: Event) { e.Connect? || e.OnConnected? || e.OnError? }

  /** The handler an action runs on the market thread's variables, if any. */
  function Call(t: Threads, a: Action): (e: Option<Event>)
  {
    match a
    case Begin(now) => if !t.phase.Checked? then None else if t.phase.fatal then Some(Halt) else Some(Connect(now))
    case Settle => if t.phase.Noted? then Some(t.phase.message) else None
    case Act(e) => if t.phase.Looping? && FromOutside(e) then Some(e) else None
    case TickDecide(now, requested) =>
      if t.phase.Ticked? then Some(Tick(now, requested, t.phase.seen, t.status.fatal.Some?)) else None
    case _ => None
  }

  // ----- The threads -----

  function Seen(t: Threads, d: Desk): (u: Threads) { t.(desk := d, status := t.status.(lifecycle := d.lifecycle)) }

  function ClosedQueue(t: Threads): (u: Threads) { t.(pipe := R.Shut(t.pipe)) }

  function Closing(t: Threads, close: bool): (u: Threads) { if close then ClosedQueue(t) else t }

  /** Offers are made only while the thread is not stopping. */
  function Offered(t: Threads, e: Event): (u: Threads)
    requires e.OnMessage?
  {
    var r := Record(t.pipe.received, t.desk.connection, e.mono, e.size, e.payload);
    t.(pipe := R.Offered(t.pipe, r), phase := Pushed(e.(answer := R.Answer(t.pipe.queue, t.pipe.limits, r))))
  }

  /** The first locked section of the message handler: a rejected push is a full queue, whatever the answer was. */
  function Noting(s: Status, rejected: bool): (t: Status)
  {
    var r := s.(received := s.received + 1, lastReceived := Some(s.received));
    if rejected then Failing(r, QUEUE_FULL, StoppedQueueFull)
    else r.(enqueued := r.enqueued + 1, lastEnqueued := Some(s.received))
  }

  function Settled(t: Threads, accepted: bool, d: Desk): (u: Threads)
  {
    var s := Seen(t, d).(phase := Looping);
    if !accepted then ClosedQueue(s)
    else s.(status := s.status.(processed := s.status.processed + 1, lastProcessed := Some(s.status.processed)),
            pipe := R.Taken(t.pipe, R.Process))
  }

  /** What the writer thread works on. */
  function BenchOf(t: Threads): (b: W.Bench<Payload>) { W.Bench(t.pipe, t.status, t.ready, t.writerDone) }

  function Written(t: Threads, a: R.Action<Payload>): (u: Threads)
  {
    var b := W.Worked(BenchOf(t), a);
    t.(pipe := b.pipe, status := b.status, ready := b.ready, writerDone := b.done)
  }

  predicate MayThrow(p: Phase) { p.Awaiting? || p.Checked? || p.Looping? || p.Ticked? }

  /** One action, given the desk after the handler it runs. An action that is not enabled changes nothing. */
  function Moved(t: Threads, a: Action, d: Desk): (u: Threads)
  {
    match a
    case CheckStatus =>
      if t.phase.Awaiting? && (t.ready || t.writerDone) then t.(phase := Checked(t.status.fatal.Some?)) else t
    case Begin(_) =>
      if !t.phase.Checked? then t
      else if t.phase.fatal then ClosedQueue(Seen(t, d)).(phase := Looping)
      else Seen(t.(status := t.status.(state := Running)), d).(phase := Looping)
    case Offer(e) => if t.phase.Looping? && !t.desk.stopping && e.OnMessage? then Offered(t, e) else t
    case Note =>
      if t.phase.Pushed? && t.phase.message.OnMessage?
      then t.(status := Noting(t.status, t.phase.message.answer != PushResult.Accepted),
              phase := Noted(t.phase.message))
      else t
    case Settle =>
      if t.phase.Noted? && t.phase.message.OnMessage? then Settled(t, t.phase.message.answer == PushResult.Accepted, d)
      else t
    case Act(e) => if t.phase.Looping? && FromOutside(e) then Seen(t, d) else t
    case TickRead => if t.phase.Looping? && t.ticking then t.(phase := Ticked(t.status.fatal.Some?)) else t
    case TickDecide(_, _) =>
      if t.phase.Ticked? then Closing(Seen(t, d), d.stopping).(phase := Looping, ticking := !d.stopping) else t
    case Leave => if t.phase.Looping? && !t.ticking then t.(phase := Leaving) else t
    case Throw(error) => if MayThrow(t.phase) then t.(phase := Caught(error)) else t
    case ReportCaught =>
      if t.phase.Caught?
      then t.(status := t.status.(fatal := Some(t.phase.error), state := StoppedProcessingError), phase := Leaving)
      else t
    case CloseLeaving => if t.phase.Leaving? then ClosedQueue(t).(phase := Left) else t
    case SignOff => if t.phase.Left? then t.(phase := Gone) else t
    case Write(w) => if W.OfWriter(w) then Written(t, w) else t
    case Join => if t.phase.Gone? && t.writerDone && !t.joined then t.(status := Ended(t.status), joined := true) else t
  }

  // ----- The runtime -----

  function Launched(config: Config, start: int, limits: R.Limits): (r: Runtime)
  {
    var l := Init(config, start);
    Runtime(config, start, [], l, Threads(DeskOf(l), R.Idle(limits), NEW_STATUS, Awaiting, true, false, false, false))
  }

  function Called(l: Live, e: Option<Event>): (r: Live) { if e.Some? then Step(l, e.value) else l }

  function Taken(r: Runtime, a: Action): (s: Runtime)
  {
    var call := Call(r.threads, a);
    var l := Called(r.live, call);
    r.(history := if call.Some? then r.history + [call.value] else r.history, live := l,
       threads := Moved(r.threads, a, DeskOf(l)))
  }

  function Reached(config: Config, start: int, limits: R.Limits, actions: seq<Action>): (r: Runtime)
  {
    if actions == [] then Launched(config, start, limits)
    else Taken(Reached(config, start, limits, actions[..|actions| - 1]), actions[|actions| - 1])
  }
}
