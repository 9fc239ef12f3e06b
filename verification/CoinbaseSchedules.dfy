/** Interleavings of a live Coinbase capture written out action by action, all at one clock reading. */
module CoinbaseSchedules {
  import opened Base
  import opened Envelope
  import R = Recording
  import opened RuntimeStatus
  import opened CoinbaseFeed
  import opened CoinbaseManager
  import opened CoinbaseLedger
  import opened CoinbaseRuntime
  import CoinbaseCapture

  /** What a capture is started with. */
  datatype Setup = Setup(config: HealthConfig, now: int, limits: R.Limits)

  function At(u: Setup, s: seq<TimedAction>): (r: Runtime) { Reached(u.config, u.now, u.limits, s) }

  /** After these actions the manager is m, its events are h and the threads stand at t. */
  predicate StandsAt(u: Setup, s: seq<TimedAction>, m: Manager, h: seq<Timed>, t: Threads)
  {
    At(u, s).manager == m && At(u, s).history == h && At(u, s).threads == t && t.desk == DeskOf(m)
  }

  lemma Extended(u: Setup, s: seq<TimedAction>, a: Action)
    ensures At(u, s + [TimedAction(a, u.now)]) == Taken(At(u, s), a, u.now)
  {
    assert (s + [TimedAction(a, u.now)])[..|s|] == s;
  }

  /** An action that calls nothing. */
  lemma Rests(u: Setup, s: seq<TimedAction>, m: Manager, h: seq<Timed>, t: Threads, a: Action, v: Threads)
    returns (more: seq<TimedAction>)
    requires StandsAt(u, s, m, h, t) && !a.Offer? && Call(t, a).None? && v == Moved(t, a, u.now, t.desk, false)
    requires v.desk == t.desk
    ensures StandsAt(u, more, m, h, v)
  {
    more := s + [TimedAction(a, u.now)];
    Extended(u, s, a);
  }

  /** An action that calls the manager. */
  lemma Acts(u: Setup, s: seq<TimedAction>, m: Manager, h: seq<Timed>, t: Threads, a: Action, e: Event, n: Manager,
             v: Threads)
    returns (more: seq<TimedAction>)
    requires StandsAt(u, s, m, h, t) && !a.Offer? && Call(t, a) == Some(e) && n == Step(m, e, u.now)
    requires v == Moved(t, a, u.now, DeskOf(n), false) && v.desk == DeskOf(n)
    ensures StandsAt(u, more, n, h + [Timed(e, u.now)], v)
  {
    more := s + [TimedAction(a, u.now)];
    Extended(u, s, a);
  }

  /** A message the manager will take is offered to the queue. */
  lemma Offers(u: Setup, s: seq<TimedAction>, m: Manager, h: seq<Timed>, t: Threads, e: Event)
    returns (more: seq<TimedAction>)
    requires StandsAt(u, s, m, h, t) && t.phase.Looping? && Takes(m, e)
    ensures StandsAt(u, more, m, h, Offered(t, e, u.now))
  {
    more := s + [TimedAction(Offer(e), u.now)];
    Extended(u, s, Offer(e));
  }

  function InPhase(t: Threads, p: R.WriterPhase<Payload>): (v: Threads)
  {
    t.(pipe := t.pipe.(writer := t.pipe.writer.(phase := p)))
  }

  function Up(u: Setup): (t: Threads)
  {
    InPhase(Launched(u.config, u.now, u.limits).threads, R.Waiting).(
      ready := true, registered := true, phase := Copied(None))
  }

  /** The writer gets ready, and the market thread copies a status without a failure. */
  lemma ComesUp(u: Setup) returns (s: seq<TimedAction>)
    ensures StandsAt(u, s, Init(u.config, u.now), [], Up(u))
  {
    var m := Init(u.config, u.now);
    var t0 := Launched(u.config, u.now, u.limits).threads;
    var t1 := InPhase(t0, R.Waiting).(ready := true);
    s := Rests(u, [], m, [], t0, Write(R.Open(true, "")), t1);
    var t2 := t1.(phase := Registered, registered := true);
    s := Rests(u, s, m, [], t1, Register, t2);
    s := Rests(u, s, m, [], t2, CopyStatus, Up(u));
  }

  // ----- Winding down -----

  /** The market thread has stopped without a failure, and the writer has written all there is. */
  predicate WindingDown(t: Threads)
  {
    && t.phase == Looping && t.stopping && t.ticking && !t.joined && t.status.fatal.None? && !t.desk.ledger.terminal
    && t.pipe.queue == R.Queue([], 0, true)
  }

  /** The writer finds the queue closed and empty, and closes its file. */
  lemma ClosesFile(u: Setup, s: seq<TimedAction>, m: Manager, h: seq<Timed>, t: Threads)
    returns (more: seq<TimedAction>)
    requires StandsAt(u, s, m, h, t) && WindingDown(t) && t.pipe.writer.phase.Waiting?
    ensures StandsAt(u, more, m, h, InPhase(t, R.Finishing))
  {
    var t1 := InPhase(t, R.Draining);
    more := Rests(u, s, m, h, t, Write(R.Pop), t1);
    more := Rests(u, more, m, h, t1, Write(R.CloseFile(true)), InPhase(t, R.Finishing));
  }

  /** It signs off. */
  lemma Drains(u: Setup, s: seq<TimedAction>, m: Manager, h: seq<Timed>, t: Threads)
    returns (more: seq<TimedAction>, v: Threads)
    requires StandsAt(u, s, m, h, t) && WindingDown(t) && t.pipe.writer.phase.Waiting?
    ensures StandsAt(u, more, m, h, v) && v == InPhase(t, R.Finished).(writerDone := true)
  {
    more := ClosesFile(u, s, m, h, t);
    v := InPhase(t, R.Finished).(writerDone := true);
    more := Rests(u, more, m, h, InPhase(t, R.Finishing), Write(R.Finish), v);
  }

  /** The market thread ticks a last time. */
  lemma TicksLast(u: Setup, s: seq<TimedAction>, m: Manager, h: seq<Timed>, t: Threads)
    returns (more: seq<TimedAction>)
    requires StandsAt(u, s, m, h, t) && WindingDown(t)
    ensures StandsAt(u, more, m, h, t.(phase := TickStopped))
  {
    var t1 := t.(phase := Ticked(None));
    more := Rests(u, s, m, h, t, Tick, t1);
    more := Rests(u, more, m, h, t1, TickDecide(false), t.(phase := TickStopped));
  }

  /** It finds the writer done and leaves its loop. */
  lemma StopsTicking(u: Setup, s: seq<TimedAction>, m: Manager, h: seq<Timed>, t: Threads)
    returns (more: seq<TimedAction>, v: Threads)
    requires StandsAt(u, s, m, h, t) && WindingDown(t) && t.writerDone
    ensures StandsAt(u, more, m, h, v) && v == t.(phase := Leaving, ticking := false, registered := false)
  {
    more := TicksLast(u, s, m, h, t);
    var t1 := t.(ticking := false);
    more := Rests(u, more, m, h, t.(phase := TickStopped), TickEnd, t1);
    v := t1.(phase := Leaving, registered := false);
    more := Rests(u, more, m, h, t1, Leave, v);
  }

  /** It closes the queue once more. */
  lemma ClosesAgain(u: Setup, s: seq<TimedAction>, m: Manager, h: seq<Timed>, t: Threads)
    returns (more: seq<TimedAction>, v: Threads)
    requires StandsAt(u, s, m, h, t) && t.phase.Leaving?
    ensures StandsAt(u, more, m, h, v) && v == ClosedQueue(t).(phase := Left)
  {
    v := ClosedQueue(t).(phase := Left);
    more := Rests(u, s, m, h, t, CloseLeaving, v);
  }

  /** The main thread joins both threads. */
  lemma Joins(u: Setup, s: seq<TimedAction>, m: Manager, h: seq<Timed>, t: Threads)
    returns (more: seq<TimedAction>, v: Threads)
    requires StandsAt(u, s, m, h, t) && t.phase.Left? && t.writerDone && !t.joined && t.status.fatal.None?
    ensures StandsAt(u, more, m, h, v) && v.joined
    ensures v.status == t.status.(state := RuntimeState.Stopped) && v.pipe == t.pipe
  {
    var t1 := t.(phase := Gone);
    more := Rests(u, s, m, h, t, SignOff, t1);
    v := t1.(status := Ended(t1.status), joined := true);
    more := Rests(u, more, m, h, t1, Join, v);
  }

  /** From there every capture can be joined without a failure, and neither manager nor file changes any more. */
  lemma WindsDown(u: Setup, s: seq<TimedAction>, m: Manager, h: seq<Timed>, t: Threads)
    returns (more: seq<TimedAction>, v: Threads)
    requires StandsAt(u, s, m, h, t) && WindingDown(t) && t.pipe.writer.phase.Waiting?
    ensures StandsAt(u, more, m, h, v)
    ensures v.joined && v.status == t.status.(state := RuntimeState.Stopped) && v.pipe.writer.file == t.pipe.writer.file
  {
    var t1, t2, t3;
    more, t1 := Drains(u, s, m, h, t);
    more, t2 := StopsTicking(u, more, m, h, t1);
    more, t3 := ClosesAgain(u, more, m, h, t2);
    more, v := Joins(u, more, m, h, t3);
  }

  // ----- One message -----

  /** A market thread in its loop, without a failure. */
  predicate GoesOn(t: Threads)
  {
    t.phase == Looping && !t.stopping && t.ticking && !t.joined && !t.writerDone && t.status.fatal.None?
  }

  /** The writer takes a message from the queue. */
  lemma Pops(u: Setup, s: seq<TimedAction>, m: Manager, h: seq<Timed>, t: Threads, r: Record<Payload>)
    returns (more: seq<TimedAction>, v: Threads)
    requires StandsAt(u, s, m, h, t) && t.pipe.queue == R.Queue([r], r.size, false)
    requires t.pipe.writer == R.Writer(R.Waiting, [], [], false)
    ensures StandsAt(u, more, m, h, v)
    ensures v == t.(pipe := t.pipe.(queue := R.Queue([], 0, false), writer := R.Writer(R.Holding(r), [], [], false)))
  {
    v := t.(pipe := t.pipe.(queue := R.Queue([], 0, false), writer := R.Writer(R.Holding(r), [], [], false)));
    more := Rests(u, s, m, h, t, Write(R.Pop), v);
  }

  /** It appends the first message to its file. */
  lemma WritesOne(u: Setup, s: seq<TimedAction>, m: Manager, h: seq<Timed>, t: Threads, r: Record<Payload>)
    returns (more: seq<TimedAction>, v: Threads)
    requires StandsAt(u, s, m, h, t) && GoesOn(t) && t.pipe.queue == R.Queue([r], r.size, false)
    requires t.pipe.writer == R.Writer(R.Waiting, [], [], false) && r.index == 0
    ensures StandsAt(u, more, m, h, v) && GoesOn(v)
    ensures v.pipe.queue == R.Queue([], 0, false) && v.pipe.writer.phase.Waiting?
  {
    var t1;
    more, t1 := Pops(u, s, m, h, t, r);
    v := t1.(pipe := t1.pipe.(writer := R.Writer(R.Waiting, [r], [], false)), status := Wrote(t1.status, 0));
    more := Rests(u, more, m, h, t1, Write(R.Append(true)), v);
  }

  /** A tick copies a status without a failure. */
  lemma TicksOnce(u: Setup, s: seq<TimedAction>, m: Manager, h: seq<Timed>, t: Threads)
    returns (more: seq<TimedAction>, v: Threads)
    requires StandsAt(u, s, m, h, t) && GoesOn(t)
    ensures StandsAt(u, more, m, h, v) && v == t.(phase := Ticked(None))
  {
    v := t.(phase := Ticked(None));
    more := Rests(u, s, m, h, t, Tick, v);
  }

  /** It finds a stop request, stops the manager and closes the queue. */
  lemma TickStops(u: Setup, s: seq<TimedAction>, m: Manager, h: seq<Timed>, t: Threads, n: Manager)
    returns (more: seq<TimedAction>, v: Threads)
    requires StandsAt(u, s, m, h, t) && GoesOn(t.(phase := Looping)) && t.phase == Ticked(None)
    requires n == Step(m, Stop, u.now)
    ensures StandsAt(u, more, n, h + [Timed(Stop, u.now)], v)
    ensures v == ClosedQueue(Seen(t, DeskOf(n)).(stopping := true)).(phase := TickStopped)
  {
    v := ClosedQueue(Seen(t, DeskOf(n)).(stopping := true)).(phase := TickStopped);
    DecidesToStop(t, u.now, DeskOf(n));
    more := Acts(u, s, m, h, t, TickDecide(true), Stop, n, v);
  }

  lemma DecidesToStop(t: Threads, now: int, d: Desk)
    requires t.phase == Ticked(None) && !t.stopping
    ensures Call(t, TickDecide(true)) == Some(Stop)
    ensures Moved(t, TickDecide(true), now, d, false) ==
            ClosedQueue(Seen(t, d).(stopping := true)).(phase := TickStopped)
  {}

  /** The tick ends with the writer still draining. */
  lemma TickDrains(u: Setup, s: seq<TimedAction>, m: Manager, h: seq<Timed>, t: Threads)
    returns (more: seq<TimedAction>, v: Threads)
    requires StandsAt(u, s, m, h, t) && t.phase == TickStopped && t.stopping && !t.writerDone
    ensures StandsAt(u, more, m, h, v) && v == t.(phase := Looping, status := Draining(t.status))
  {
    v := t.(phase := Looping, status := Draining(t.status));
    more := Rests(u, s, m, h, t, TickEnd, v);
  }

  lemma NotTerminal(u: Setup, s: seq<TimedAction>, m: Manager, h: seq<Timed>, t: Threads)
    requires StandsAt(u, s, m, h, t) && t.status.fatal.None?
    ensures !t.desk.ledger.terminal
  {
    CoinbaseCapture.ReachedIsWhole(u.config, u.now, u.limits, s);
  }

  /** A running capture whose queue is empty can be stopped and joined without a failure. */
  lemma StopsAndJoins(u: Setup, s: seq<TimedAction>, m: Manager, h: seq<Timed>, t: Threads)
    returns (more: seq<TimedAction>, v: Threads)
    requires StandsAt(u, s, m, h, t) && GoesOn(t)
    requires t.pipe.queue == R.Queue([], 0, false) && t.pipe.writer.phase.Waiting?
    ensures StandsAt(u, more, Step(m, Stop, u.now), h + [Timed(Stop, u.now)], v) && v.joined && v.status.fatal.None?
  {
    var n, g := Step(m, Stop, u.now), h + [Timed(Stop, u.now)];
    var t1, t2, t3;
    more, t1 := TicksOnce(u, s, m, h, t);
    more, t2 := TickStops(u, more, m, h, t1, n);
    more, t3 := TickDrains(u, more, n, g, t2);
    NotTerminal(u, more, n, g, t3);
    more, v := WindsDown(u, more, n, g, t3);
  }
}
