/** A malformed heartbeat in a live capture: the handler absorbs it, the session is complete, and its replay throws. */
module CoinbaseBadHeartbeat {
  import opened Base
  import opened Envelope
  import R = Recording
  import opened RuntimeStatus
  import opened Sessions
  import opened CoinbaseFeed
  import opened CoinbaseManager
  import opened CoinbaseLedger
  import opened CoinbaseRuntime
  import opened CoinbaseSchedules
  import CoinbaseCapture
  import CoinbaseSession
  import CoinbaseReplay
  import CoinbaseAgreement

  /** The queue has room for one message of two bytes. */
  predicate Roomy(u: Setup) { u.limits.messages > 0 && u.limits.bytes >= 2 }

  function Begun(u: Setup): (m: Manager) { Step(Init(u.config, u.now), Start, u.now) }

  function Online(u: Setup): (m: Manager) { Step(Begun(u), OnConnected(1), u.now) }

  function Beat(u: Setup): (e: Event) { OnMessage(1, CoinbaseAgreement.BAD_HEARTBEAT, 2, u.now, Accepted) }

  function Beaten(u: Setup): (m: Manager) { Step(Online(u), Beat(u), u.now) }

  function Ended(u: Setup): (m: Manager) { Step(Beaten(u), Stop, u.now) }

  function Beginning(u: Setup): (h: seq<Timed>) { [] + [Timed(Start, u.now)] }

  function Connecting(u: Setup): (h: seq<Timed>) { Beginning(u) + [Timed(OnConnected(1), u.now)] }

  function Beating(u: Setup): (h: seq<Timed>) { Connecting(u) + [Timed(Beat(u), u.now)] }

  function Ending(u: Setup): (h: seq<Timed>) { Beating(u) + [Timed(Stop, u.now)] }

  /** These are the events of the run on which replay throws. */
  lemma EndingIsRun(u: Setup)
    ensures Ending(u) ==
            CoinbaseAgreement.ConnectingRun(u.now) + [Timed(Beat(u), u.now), Timed(Stop, u.now)]
  {}

  /** The manager is started and the transport connects. */
  lemma Connects(u: Setup) returns (s: seq<TimedAction>, t: Threads)
    ensures StandsAt(u, s, Online(u), Connecting(u), t) && GoesOn(t)
    ensures t.pipe == Up(u).pipe
  {
    s := ComesUp(u);
    var t0 := Up(u);
    var t1 := Seen(t0.(status := t0.status.(state := RuntimeState.Running)), DeskOf(Begun(u))).(phase := Looping);
    s := Acts(u, s, Init(u.config, u.now), [], t0, Begin(false), Start, Begun(u), t1);
    t := Seen(t1, DeskOf(Online(u)));
    s := Acts(u, s, Begun(u), Beginning(u), t1, Act(OnConnected(1)), OnConnected(1), Online(u), t);
  }

  lemma TakesBeat(u: Setup)
    ensures Takes(Online(u), Beat(u))
  {
    assert Begun(u).connects == [1];
  }

  /** The heartbeat is offered and accepted. */
  lemma Receives(u: Setup) returns (s: seq<TimedAction>, t: Threads, r: Record<Payload>)
    requires Roomy(u)
    ensures StandsAt(u, s, Online(u), Connecting(u), t)
    ensures t.phase == Pushed(Beat(u), u.now) && GoesOn(t.(phase := Looping)) && r.index == 0
    ensures t.pipe.queue == R.Queue([r], r.size, false) && t.pipe.writer == R.Writer(R.Waiting, [], [], false)
  {
    var t0;
    s, t0 := Connects(u);
    TakesBeat(u);
    r := NextEnvelope(t0, Beat(u));
    t := Offered(t0, Beat(u), u.now);
    s := Offers(u, s, Online(u), Connecting(u), t0, Beat(u));
  }

  /** The handler absorbs it. */
  lemma Settles(u: Setup) returns (s: seq<TimedAction>, t: Threads, r: Record<Payload>)
    requires Roomy(u)
    ensures StandsAt(u, s, Beaten(u), Beating(u), t)
    ensures GoesOn(t) && r.index == 0
    ensures t.pipe.queue == R.Queue([r], r.size, false) && t.pipe.writer == R.Writer(R.Waiting, [], [], false)
  {
    var t0;
    s, t0, r := Receives(u);
    t := Settled(t0, Accepted, DeskOf(Beaten(u)));
    s := Acts(u, s, Online(u), Connecting(u), t0, Settle, Beat(u), Beaten(u), t);
  }

  /** It is written, and the capture is stopped and joined. */
  lemma Finishes(u: Setup) returns (s: seq<TimedAction>, t: Threads)
    requires Roomy(u)
    ensures StandsAt(u, s, Ended(u), Ending(u), t) && t.joined && t.status.fatal.None?
  {
    var t0, t1, r;
    s, t0, r := Settles(u);
    s, t1 := WritesOne(u, s, Beaten(u), Beating(u), t0, r);
    s, t := StopsAndJoins(u, s, Beaten(u), Beating(u), t1);
  }

  lemma ReplayThrows(u: Setup, r: Runtime)
    requires CoinbaseCapture.Whole(r) && r.threads.joined && r.threads.status.fatal.None?
    requires r.manager == Run(u.config, u.now, Ending(u))
    ensures CoinbaseReplay.Replayed(r.threads.pipe.writer.file, r.threads.status.lifecycle) == None
  {
    CoinbaseCapture.SafeAndClean(r.threads);
    EndingIsRun(u);
    CoinbaseAgreement.MalformedHeartbeatDiffers(u.config, u.now);
  }

  /** There is an interleaving that receives one malformed heartbeat, whose session is published as complete and
      passes every check of replay, and whose replay throws. */
  lemma CompleteSessionCanThrow(u: Setup) returns (s: seq<TimedAction>)
    requires Roomy(u)
    ensures var r := At(u, s);
            var file := r.threads.pipe.writer.file;
            var m := Finalized(r.threads.status, Scan(|file|, 1));
            && r.threads.joined && m.status == Complete && Passes(m, |file|)
            && CoinbaseReplay.Replayed(file, m.lifecycle) == None
  {
    var t;
    s, t := Finishes(u);
    CoinbaseSession.PublishedSessionReplays(u.config, u.now, u.limits, s, 1);
    EndsAsRun(u, s, t);
    ReplayThrows(u, At(u, s));
  }

  lemma EndsAsRun(u: Setup, s: seq<TimedAction>, t: Threads)
    requires StandsAt(u, s, Ended(u), Ending(u), t)
    ensures CoinbaseCapture.Whole(At(u, s)) && At(u, s).manager == Run(u.config, u.now, Ending(u))
  {
    CoinbaseCapture.ReachedIsWhole(u.config, u.now, u.limits, s);
    CoinbaseCapture.SameCapture(u.config, u.now, u.limits, s);
  }
}
