/** What every interleaving of a live capture keeps, and what its joined status means. */
module CoinbaseCapture {
  import opened Base
  import opened Envelope
  import opened Tape
  import R = Recording
  import W = WriterThread
  import opened RuntimeStatus
  import opened CoinbaseFeed
  import opened CoinbaseManager
  import opened CoinbaseLedger
  import opened CoinbaseRuntime
  import CoinbaseJournal
  import CoinbaseRuns
  import CoinbaseReplay
  import CoinbaseAgreement

  // ----- The first cause is kept -----

  lemma MoveKeepsCause(t: Threads, a: Action, now: int, d: Desk, takes: bool)
    requires t.status.fatal.Some?
    ensures Moved(t, a, now, d, takes).status.fatal == t.status.fatal
  {
    if a.Write? {
      assert W.Noted(BenchOf(t), a.action).status.fatal == t.status.fatal;
    } else if a.Settle? {
      if t.phase.Pushed? {
        SettledCause(t, t.phase.message, d);
      }
    } else if Calls(a) {
      CallsKeepCause(t, a, now, d, takes);
    } else {
      OthersKeepCause(t, a, now, d, takes);
    }
  }

  lemma HaltedCause(t: Threads, d: Desk)
    ensures Halted(t, d).status.fatal == t.status.fatal
  {}

  lemma BeginKeepsCause(t: Threads, requested: bool, now: int, d: Desk, takes: bool)
    ensures Moved(t, Begin(requested), now, d, takes).status.fatal == t.status.fatal
  {
    HaltedCause(t, d);
  }

  lemma PostedKeepsCause(t: Threads, now: int, d: Desk, takes: bool)
    ensures Moved(t, HandlePosted, now, d, takes).status.fatal == t.status.fatal
  {
    HaltedCause(t.(posted := None), d);
  }

  lemma DecideKeepsCause(t: Threads, requested: bool, now: int, d: Desk, takes: bool)
    ensures Moved(t, TickDecide(requested), now, d, takes).status.fatal == t.status.fatal
  {
    HaltedCause(t, d);
  }

  lemma CallsKeepCause(t: Threads, a: Action, now: int, d: Desk, takes: bool)
    requires t.status.fatal.Some? && Calls(a) && !a.Settle?
    ensures Moved(t, a, now, d, takes).status.fatal == t.status.fatal
  {
    match a
    case Begin(requested) => BeginKeepsCause(t, requested, now, d, takes);
    case HandlePosted => PostedKeepsCause(t, now, d, takes);
    case TickDecide(requested) => DecideKeepsCause(t, requested, now, d, takes);
    case Act(_) =>
    case Throw(_) =>
  }

  lemma OthersKeepCause(t: Threads, a: Action, now: int, d: Desk, takes: bool)
    requires t.status.fatal.Some? && !a.Write? && !Calls(a)
    ensures Moved(t, a, now, d, takes).status.fatal == t.status.fatal
  {
    if a.Offer? || a.Register? || a.CopyStatus? || a.Tick? {
      StartsKeepCause(t, a, now, d, takes);
    }
  }

  lemma StartsKeepCause(t: Threads, a: Action, now: int, d: Desk, takes: bool)
    requires a.Offer? || a.Register? || a.CopyStatus? || a.Tick?
    ensures Moved(t, a, now, d, takes).status == t.status
  {}

  lemma SettledCause(t: Threads, message: Event, d: Desk)
    requires t.status.fatal.Some?
    ensures message.OnMessage? ==> Settled(t, message.pushed, d).status.fatal == t.status.fatal
  {}

  /** Once a fatal error is recorded, no later action of any thread replaces it. */
  lemma {:induction false} FirstCauseKept(config: HealthConfig, start: int, limits: R.Limits,
                                          actions: seq<TimedAction>, more: seq<TimedAction>)
    requires Reached(config, start, limits, actions).threads.status.fatal.Some?
    ensures Reached(config, start, limits, actions + more).threads.status.fatal ==
            Reached(config, start, limits, actions).threads.status.fatal
  {
    if more == [] {
      assert actions + more == actions;
    } else {
      var k := |more| - 1;
      assert (actions + more)[..|actions + more| - 1] == actions + more[..k];
      FirstCauseKept(config, start, limits, actions, more[..k]);
      StepKeepsCause(Reached(config, start, limits, actions + more[..k]), more[k].action, more[k].now);
    }
  }

  lemma StepKeepsCause(r: Runtime, a: Action, now: int)
    requires r.threads.status.fatal.Some?
    ensures Taken(r, a, now).threads.status.fatal == r.threads.status.fatal
  {
    var m := Called(r.manager, Call(r.threads, a), now);
    MoveKeepsCause(r.threads, a, now, DeskOf(m), a.Offer? && Takes(r.manager, a.message));
  }

  // ----- Invariant of the threads -----

  /** The pipeline holds what the manager recorded, and while a message is being handled one envelope more. */
  predicate InStep(t: Threads)
  {
    var l, p := t.desk.ledger, t.pipe;
    if t.phase.Pushed? then
      var e := t.phase.message;
      && e.OnMessage? && !l.terminal && p.received == l.next + 1 && p.processed == |l.records|
      && p.accepted == l.records +
           (if e.pushed == Accepted then [Record(l.next, t.desk.connectionId, e.mono, e.size, e.payload)] else [])
      && (e.pushed == Closed ==> t.status.fatal.Some?)
    else p.received == l.next && p.accepted == l.records && p.processed == |l.records|
  }

  /** The shared counters of the market thread are the manager's. */
  predicate Reported(t: Threads)
  {
    var s, l := t.status, t.desk.ledger;
    && s.received == l.next && s.enqueued == s.processed == |l.records|
    && s.lastReceived == l.received && s.lastEnqueued == l.enqueued && s.lastProcessed == l.processed
    && s.lifecycle == t.desk.lifecycle
  }

  /** What the market thread takes for a failure is one. */
  predicate Judged(t: Threads)
  {
    && (t.desk.ledger.terminal || t.posted.Some? ==> t.status.fatal.Some?)
    && (t.phase.Copied? && t.phase.fatal.Some? ==> t.status.fatal.Some?)
    && (t.phase.Ticked? && t.phase.fatal.Some? ==> t.status.fatal.Some?)
  }

  predicate Leaves(p: Phase) { p.Leaving? || p.Left? || p.Gone? }

  /** Why the queue can be closed and the loop be left. */
  predicate Guarded(t: Threads)
  {
    && (t.stopping ==> t.desk.stopping && t.pipe.queue.closed)
    && (t.pipe.queue.closed ==> t.stopping || t.status.fatal.Some? || t.phase.CaughtClosed? || Leaves(t.phase))
    && (!t.ticking ==> t.stopping)
    && (Leaves(t.phase) ==> t.stopping || t.status.fatal.Some?)
    && (t.joined ==> t.phase.Gone?)
  }

  predicate StartsUp(p: Phase) { p.Awaiting? || p.Registered? || p.Copied? }

  /** During startup the writer is quiet, and past the wait it is ready or has failed. */
  predicate Quiet(t: Threads)
  {
    StartsUp(t.phase) ==>
      && !t.stopping && W.Quiet(BenchOf(t), t.phase.Copied? && t.phase.fatal.None?)
      && (!t.phase.Awaiting? ==> t.ready || t.status.fatal.Some?)
  }

  predicate Tidy(t: Threads)
  {
    && Balanced(t.desk.ledger) && (t.desk.ledger.terminal ==> t.desk.stopping) && W.Orderly(BenchOf(t), t.joined)
    && InStep(t) && Reported(t) && Judged(t) && Guarded(t) && Quiet(t)
  }

  ghost predicate Safe(t: Threads) { R.Sound(t.pipe) && Tidy(t) }

  /** How a manager call changes the desk. */
  predicate Follows(d: Desk, call: Option<Event>, n: Desk)
  {
    && Balanced(n.ledger) && (n.ledger.terminal ==> n.stopping)
    && match call
       case None => n == d
       case Some(e) =>
         && ((d.stopping && !e.Start?) || e.Stop? || e.FailTerminally? ==> n.stopping)
         && n.ledger == if e.OnMessage? then Entered(d.ledger, d.connectionId, e)
                        else d.ledger.(terminal := d.ledger.terminal || e.FailTerminally?)
  }

  // ----- Every action keeps it -----

  /** The queue is closed, and for a reason. */
  lemma HaltedKeeps(t: Threads, error: string, d: Desk, next: Phase)
    requires Tidy(t) && Follows(t.desk, HaltEvent(t, error), d) && (error != "" ==> t.status.fatal.Some?)
    requires (t.phase.Copied? || t.phase.Looping? || t.phase.Ticked?) && (next.Looping? || next.TickStopped?)
    ensures Tidy(Halted(t, d).(phase := next))
  {}

  lemma BeginKeeps(t: Threads, d: Desk)
    requires Tidy(t) && t.phase.Copied? && t.phase.fatal.None? && Follows(t.desk, Some(Start), d)
    ensures Tidy(Seen(t.(status := t.status.(state := Running)), d).(phase := Looping))
  {}

  /** Before the first message: the writer can neither finish nor fail unnoticed. */
  lemma RegisterKeeps(t: Threads)
    requires Tidy(t) && t.phase.Awaiting? && (t.ready || t.writerDone)
    ensures Tidy(t.(phase := Registered, registered := true))
  {}

  lemma CopyKeeps(t: Threads)
    requires Tidy(t) && t.phase.Registered?
    ensures Tidy(t.(phase := Copied(t.status.fatal)))
  {}

  lemma StartupKeeps(t: Threads, a: Action, now: int, d: Desk, takes: bool)
    requires Tidy(t) && Follows(t.desk, Call(t, a), d) && (a.Register? || a.CopyStatus? || a.Begin?)
    ensures Tidy(Moved(t, a, now, d, takes))
  {
    match a
    case Register => if t.phase.Awaiting? && (t.ready || t.writerDone) { RegisterKeeps(t); }
    case CopyStatus => if t.phase.Registered? { CopyKeeps(t); }
    case Begin(requested) =>
      if t.phase.Copied? {
        if t.phase.fatal.Some? || requested {
          HaltedKeeps(t, OrEmpty(t.phase.fatal), d, Looping);
        } else {
          BeginKeeps(t, d);
        }
      }
  }

  lemma OfferKeeps(t: Threads, e: Event, now: int)
    requires Tidy(t) && t.phase.Looping? && e.OnMessage? && !t.desk.stopping
    ensures Tidy(Offered(t, e, now))
  {}

  lemma SettleKeeps(t: Threads, d: Desk)
    requires Tidy(t) && t.phase.Pushed? && t.phase.message.OnMessage? && Follows(t.desk, Some(t.phase.message), d)
    ensures Tidy(Settled(t, t.phase.message.pushed, d))
  {}

  lemma ActKeeps(t: Threads, e: Event, d: Desk)
    requires Tidy(t) && t.phase.Looping? && FromOutside(e) && Follows(t.desk, Some(e), d)
    ensures Tidy(Seen(t, d))
  {}

  lemma PostedKeeps(t: Threads, d: Desk)
    requires Tidy(t) && t.phase.Looping? && t.posted.Some? && Follows(t.desk, HaltEvent(t, t.posted.value), d)
    ensures Tidy(Halted(t.(posted := None), d))
  {
    HaltedKeeps(t.(posted := None), t.posted.value, d, Looping);
  }

  lemma LoopKeeps(t: Threads, a: Action, now: int, d: Desk, takes: bool)
    requires Tidy(t) && Follows(t.desk, Call(t, a), d) && (takes ==> !t.desk.stopping)
    requires a.Offer? || a.Settle? || a.Act? || a.HandlePosted?
    ensures Tidy(Moved(t, a, now, d, takes))
  {
    match a
    case Offer(e) => if t.phase.Looping? && takes && e.OnMessage? { OfferKeeps(t, e, now); }
    case Settle => if t.phase.Pushed? && t.phase.message.OnMessage? { SettleKeeps(t, d); }
    case Act(e) => if t.phase.Looping? && FromOutside(e) { ActKeeps(t, e, d); }
    case HandlePosted => if t.phase.Looping? && t.posted.Some? { PostedKeeps(t, d); }
  }

  lemma TickStartKeeps(t: Threads)
    requires Tidy(t) && t.phase.Looping?
    ensures Tidy(t.(phase := Ticked(t.status.fatal)))
  {}

  lemma TickEndKeeps(t: Threads)
    requires Tidy(t) && t.phase.TickStopped?
    ensures Tidy(TickEnded(t))
  {}

  lemma TickPassKeeps(t: Threads)
    requires Tidy(t) && t.phase.Ticked?
    ensures Tidy(t.(phase := TickStopped))
  {}

  lemma TickKeeps(t: Threads, a: Action, now: int, d: Desk, takes: bool)
    requires Tidy(t) && Follows(t.desk, Call(t, a), d) && (a.Tick? || a.TickDecide? || a.TickEnd?)
    ensures Tidy(Moved(t, a, now, d, takes))
  {
    match a
    case Tick => if t.phase.Looping? { TickStartKeeps(t); }
    case TickDecide(requested) =>
      if t.phase.Ticked? {
        if TickHalts(t, requested) {
          HaltedKeeps(t, OrEmpty(t.phase.fatal), d, TickStopped);
        } else {
          TickPassKeeps(t);
        }
      }
    case TickEnd => if t.phase.TickStopped? { TickEndKeeps(t); }
  }

  lemma LeaveKeeps(t: Threads)
    requires Tidy(t) && t.phase.Looping? && !t.ticking
    ensures Tidy(t.(phase := Leaving, registered := false))
  {}

  lemma ThrowKeeps(t: Threads, error: string, d: Desk)
    requires Tidy(t) && MayThrow(t.phase) && Follows(t.desk, Some(Stop), d)
    ensures Tidy(Seen(t, d).(phase := Caught(error), registered := false))
  {}

  lemma CloseCaughtKeeps(t: Threads)
    requires Tidy(t) && t.phase.Caught?
    ensures Tidy(ClosedQueue(t).(phase := CaughtClosed(t.phase.error)))
  {}

  lemma ReportCaughtKeeps(t: Threads)
    requires Tidy(t) && t.phase.CaughtClosed?
    ensures var s := Failing(t.status, t.phase.error, StoppedProcessingError);
            Tidy(t.(status := s, registered := false, phase := Leaving))
  {}

  lemma CloseLeavingKeeps(t: Threads)
    requires Tidy(t) && t.phase.Leaving?
    ensures Tidy(ClosedQueue(t).(phase := Left))
  {}

  lemma SignOffKeeps(t: Threads)
    requires Tidy(t) && t.phase.Left?
    ensures Tidy(t.(phase := Gone))
  {}

  lemma JoinKeeps(t: Threads)
    requires Tidy(t) && t.phase.Gone? && t.writerDone && !t.joined
    ensures Tidy(t.(status := Ended(t.status), joined := true))
  {}

  lemma CatchKeeps(t: Threads, a: Action, now: int, d: Desk, takes: bool)
    requires Tidy(t) && Follows(t.desk, Call(t, a), d) && (a.Throw? || a.CloseCaught? || a.ReportCaught?)
    ensures Tidy(Moved(t, a, now, d, takes))
  {
    match a
    case Throw(error) => if MayThrow(t.phase) { ThrowKeeps(t, error, d); }
    case CloseCaught => if t.phase.Caught? { CloseCaughtKeeps(t); }
    case ReportCaught => if t.phase.CaughtClosed? { ReportCaughtKeeps(t); }
  }

  lemma ExitKeeps(t: Threads, a: Action, now: int, d: Desk, takes: bool)
    requires Tidy(t) && (a.Leave? || a.CloseLeaving? || a.SignOff? || a.Join?)
    ensures Tidy(Moved(t, a, now, d, takes))
  {
    match a
    case Leave => if t.phase.Looping? && !t.ticking { LeaveKeeps(t); }
    case CloseLeaving => if t.phase.Leaving? { CloseLeavingKeeps(t); }
    case SignOff => if t.phase.Left? { SignOffKeeps(t); }
    case Join => if t.phase.Gone? && t.writerDone && !t.joined { JoinKeeps(t); }
  }

  lemma WriteKeeps(t: Threads, w: R.Action<Payload>)
    requires Tidy(t) && W.Grounded(t.pipe) && W.OfWriter(w)
    ensures Tidy(Written(t, w))
  {
    W.WorkKeeps(BenchOf(t), w, t.joined);
    WrittenKeeps(t, w);
  }

  /** A writer action leaves the market thread's side aside. */
  lemma WrittenKeeps(t: Threads, w: R.Action<Payload>)
    requires Tidy(t)
    requires var c := W.Worked(BenchOf(t), w);
             && W.Orderly(c, t.joined) && W.Aside(BenchOf(t), c)
             && forall cleared :: W.Quiet(BenchOf(t), cleared) ==> W.Quiet(c, cleared)
    ensures Tidy(Written(t, w))
  {}

  lemma MoveKeeps(t: Threads, a: Action, now: int, d: Desk, takes: bool)
    requires Safe(t) && Follows(t.desk, Call(t, a), d) && (takes ==> !t.desk.stopping)
    ensures Tidy(Moved(t, a, now, d, takes))
  {
    if a.Register? || a.CopyStatus? || a.Begin? {
      StartupKeeps(t, a, now, d, takes);
    } else if a.Offer? || a.Settle? || a.Act? || a.HandlePosted? {
      LoopKeeps(t, a, now, d, takes);
    } else if a.Tick? || a.TickDecide? || a.TickEnd? {
      TickKeeps(t, a, now, d, takes);
    } else if a.Throw? || a.CloseCaught? || a.ReportCaught? {
      CatchKeeps(t, a, now, d, takes);
    } else if a.Write? {
      if W.OfWriter(a.action) {
        W.SoundIsGrounded(t.pipe);
        WriteKeeps(t, a.action);
      }
    } else {
      ExitKeeps(t, a, now, d, takes);
    }
  }

  /** The pipeline is untouched or closed. */
  predicate Closes(p: R.Pipeline<Payload>, q: R.Pipeline<Payload>) { q == p || q == R.Shut(p) }

  lemma HaltedCloses(t: Threads, d: Desk)
    ensures Closes(t.pipe, Halted(t, d).pipe)
  {}

  lemma BeginCloses(t: Threads, requested: bool, now: int, d: Desk, takes: bool)
    ensures Closes(t.pipe, Moved(t, Begin(requested), now, d, takes).pipe)
  {
    HaltedCloses(t, d);
  }

  lemma DecideCloses(t: Threads, requested: bool, now: int, d: Desk, takes: bool)
    ensures Closes(t.pipe, Moved(t, TickDecide(requested), now, d, takes).pipe)
  {
    HaltedCloses(t, d);
  }

  lemma PostedCloses(t: Threads, now: int, d: Desk, takes: bool)
    ensures Closes(t.pipe, Moved(t, HandlePosted, now, d, takes).pipe)
  {
    HaltedCloses(t.(posted := None), d);
  }

  lemma CallCloses(t: Threads, a: Action, now: int, d: Desk, takes: bool)
    requires Calls(a) && !a.Settle?
    ensures Closes(t.pipe, Moved(t, a, now, d, takes).pipe)
  {
    match a
    case Begin(requested) => BeginCloses(t, requested, now, d, takes);
    case HandlePosted => PostedCloses(t, now, d, takes);
    case TickDecide(requested) => DecideCloses(t, requested, now, d, takes);
    case Act(_) =>
    case Throw(_) =>
  }

  lemma OtherCloses(t: Threads, a: Action, now: int, d: Desk, takes: bool)
    requires !Calls(a) && !a.Offer? && !a.Write?
    ensures Closes(t.pipe, Moved(t, a, now, d, takes).pipe)
  {
    if a.TickEnd? {
      assert TickEnded(t).pipe == t.pipe;
    } else if !a.CloseCaught? && !a.CloseLeaving? {
      assert Moved(t, a, now, d, takes).pipe == t.pipe;
    }
  }

  lemma OffersInTurn(t: Threads)
    requires Tidy(t) && t.phase.Looping? && !t.desk.stopping
    ensures R.MayOffer(t.pipe)
  {}

  /** Every action leaves the pipeline sound. */
  lemma MoveIsSound(t: Threads, a: Action, now: int, d: Desk, takes: bool)
    requires Safe(t) && (takes ==> !t.desk.stopping)
    ensures R.Sound(Moved(t, a, now, d, takes).pipe)
  {
    if takes && t.phase.Looping? {
      OffersInTurn(t);
    }
    PipeIsSound(t, a, now, d, takes);
  }

  lemma PipeIsSound(t: Threads, a: Action, now: int, d: Desk, takes: bool)
    requires R.Sound(t.pipe) && (takes && t.phase.Looping? ==> R.MayOffer(t.pipe))
    ensures R.Sound(Moved(t, a, now, d, takes).pipe)
  {
    match a
    case Offer(e) => if t.phase.Looping? && takes && e.OnMessage? { R.OfferKeeps(t.pipe, NextEnvelope(t, e)); }
    case Settle => R.ActionKeeps(t.pipe, R.Process);
    case Write(w) => R.ActionKeeps(t.pipe, w);
    case _ =>
      R.ActionKeeps(t.pipe, R.Close);
      MoveCloses(t, a, now, d, takes);
  }

  lemma MoveCloses(t: Threads, a: Action, now: int, d: Desk, takes: bool)
    requires !a.Offer? && !a.Settle? && !a.Write?
    ensures Closes(t.pipe, Moved(t, a, now, d, takes).pipe)
  {
    if Calls(a) {
      CallCloses(t, a, now, d, takes);
    } else {
      OtherCloses(t, a, now, d, takes);
    }
  }

  // ----- The whole runtime -----

  /** The manager is a run of its event history, and a message in flight is still one it takes. */
  ghost predicate Whole(r: Runtime)
  {
    && r.manager == Run(r.config, r.start, r.history) && r.threads.desk == DeskOf(r.manager)
    && (r.threads.phase.Pushed? ==> Takes(r.manager, r.threads.phase.message))
    && Safe(r.threads)
  }

  lemma CallFollows(m: Manager, call: Option<Event>, now: int)
    requires CoinbaseRuns.Kept(m) && (call.Some? && call.value.OnMessage? ==> Takes(m, call.value))
    ensures Follows(DeskOf(m), call, DeskOf(Called(m, call, now))) && CoinbaseRuns.Kept(Called(m, call, now))
  {
    KeptIsBalanced(m);
    if call.Some? {
      StepLedger(m, call.value, now);
      StepStops(m, call.value, now);
      CoinbaseRuns.StepKeeps(m, call.value, now);
      KeptIsBalanced(Step(m, call.value, now));
    }
  }

  lemma RunExtends(config: HealthConfig, start: int, history: seq<Timed>, e: Event, now: int)
    ensures Run(config, start, history + [Timed(e, now)]) == Step(Run(config, start, history), e, now)
  {
    assert (history + [Timed(e, now)])[..|history|] == history;
  }

  /** A message stays one the manager takes while only the threads move; the answer does not matter. */
  lemma StillTaken(r: Runtime, a: Action, now: int)
    requires Whole(r) && Taken(r, a, now).threads.phase.Pushed?
    ensures Takes(Taken(r, a, now).manager, Taken(r, a, now).threads.phase.message)
  {
    var d, takes := DeskOf(Called(r.manager, Call(r.threads, a), now)), a.Offer? && Takes(r.manager, a.message);
    PushedComesFromOffer(r.threads, a, now, d, takes);
  }

  lemma PushedComesFromOffer(t: Threads, a: Action, now: int, d: Desk, takes: bool)
    requires InStep(t) && Moved(t, a, now, d, takes).phase.Pushed?
    ensures Call(t, a) == None
    ensures var u := Moved(t, a, now, d, takes);
            u.phase == t.phase ||
            (&& a.Offer? && takes && a.message.OnMessage?
             && u.phase.message == a.message.(pushed := u.phase.message.pushed))
  {}

  /** Actions that may call the manager. */
  predicate Calls(a: Action)
  {
    a.Begin? || a.Settle? || a.Act? || a.HandlePosted? || a.TickDecide? || a.Throw?
  }

  lemma DeskMoves(t: Threads, a: Action, now: int, d: Desk, takes: bool)
    requires InStep(t) && (Call(t, a).None? ==> d == t.desk)
    ensures Moved(t, a, now, d, takes).desk == d
  {
    if !Calls(a) {
      DeskStays(t, a, now, d, takes);
    }
  }

  lemma DeskStays(t: Threads, a: Action, now: int, d: Desk, takes: bool)
    requires !Calls(a)
    ensures Moved(t, a, now, d, takes).desk == t.desk
  {
    match a
    case TickEnd => assert TickEnded(t).desk == t.desk;
    case _ =>
  }

  /** The manager call of an action changes the desk as Follows says. */
  lemma ActionFollows(r: Runtime, a: Action, now: int)
    requires Whole(r)
    ensures Follows(r.threads.desk, Call(r.threads, a), DeskOf(Called(r.manager, Call(r.threads, a), now)))
    ensures a.Offer? && Takes(r.manager, a.message) ==> !r.threads.desk.stopping
  {
    CoinbaseRuns.RunKeeps(r.config, r.start, r.history);
    var call := Call(r.threads, a);
    if call.Some? && call.value.OnMessage? {
      CallsTakenMessages(r.threads, a);
    }
    CallFollows(r.manager, Call(r.threads, a), now);
  }

  lemma CallsTakenMessages(t: Threads, a: Action)
    requires Call(t, a).Some? && Call(t, a).value.OnMessage?
    ensures t.phase.Pushed? && Call(t, a).value == t.phase.message
  {}

  lemma StepSafe(r: Runtime, a: Action, now: int)
    requires Whole(r)
    ensures Safe(Taken(r, a, now).threads) && Taken(r, a, now).threads.desk == DeskOf(Taken(r, a, now).manager)
  {
    ActionFollows(r, a, now);
    var d, takes := DeskOf(Called(r.manager, Call(r.threads, a), now)), a.Offer? && Takes(r.manager, a.message);
    MoveKeeps(r.threads, a, now, d, takes);
    MoveIsSound(r.threads, a, now, d, takes);
    DeskMoves(r.threads, a, now, d, takes);
  }

  lemma StepRuns(r: Runtime, a: Action, now: int)
    requires r.manager == Run(r.config, r.start, r.history)
    ensures var s := Taken(r, a, now); s.manager == Run(s.config, s.start, s.history)
  {
    var call := Call(r.threads, a);
    if call.Some? {
      RunExtends(r.config, r.start, r.history, call.value, now);
    }
  }

  lemma StepKeepsWhole(r: Runtime, a: Action, now: int)
    requires Whole(r)
    ensures Whole(Taken(r, a, now))
  {
    StepSafe(r, a, now);
    StepRuns(r, a, now);
    if Taken(r, a, now).threads.phase.Pushed? {
      StillTaken(r, a, now);
    }
  }

  lemma LaunchedIsWhole(config: HealthConfig, start: int, limits: R.Limits)
    ensures Whole(Launched(config, start, limits))
  {
    R.IdleIsSound<Payload>(limits);
    LaunchedIsTidy(config, start, limits);
  }

  lemma LaunchedIsTidy(config: HealthConfig, start: int, limits: R.Limits)
    ensures Tidy(Launched(config, start, limits).threads)
  {}

  lemma {:induction false} ReachedIsWhole(config: HealthConfig, start: int, limits: R.Limits, actions: seq<TimedAction>)
    ensures Whole(Reached(config, start, limits, actions))
  {
    if actions == [] {
      LaunchedIsWhole(config, start, limits);
    } else {
      var k := |actions| - 1;
      ReachedIsWhole(config, start, limits, actions[..k]);
      StepKeepsWhole(Reached(config, start, limits, actions[..k]), actions[k].action, actions[k].now);
    }
  }

  lemma {:induction false} SameCapture(config: HealthConfig, start: int, limits: R.Limits, actions: seq<TimedAction>)
    ensures var r := Reached(config, start, limits, actions); r.config == config && r.start == start
  {
    if actions != [] {
      SameCapture(config, start, limits, actions[..|actions| - 1]);
    }
  }

  // ----- What the joined status means -----

  /** In every interleaving a failure state goes with a recorded fatal error; once both threads are joined the state
      is Stopped exactly when there is none, so no joined runtime is left Starting, Running or Stopping. */
  lemma JoinedState(config: HealthConfig, start: int, limits: R.Limits, actions: seq<TimedAction>)
    ensures var t := Reached(config, start, limits, actions).threads;
            && (IsFailure(t.status.state) <==> t.status.fatal.Some?)
            && (t.joined ==> (t.status.state == Stopped <==> t.status.fatal.None?))
            && (t.joined ==> t.status.state == Stopped || IsFailure(t.status.state))
  {
    ReachedIsWhole(config, start, limits, actions);
    SafeStates(Reached(config, start, limits, actions).threads);
  }

  lemma SafeStates(t: Threads)
    requires Safe(t)
    ensures IsFailure(t.status.state) <==> t.status.fatal.Some?
    ensures t.joined ==> (t.status.state == Stopped <==> t.status.fatal.None?)
  {}

  /** At join, whatever happened: records are numbered from zero, the file is a prefix of the accepted records, the
      counters are those of the record lists, the reported range is exactly what was processed and not written, and
      it is empty unless the writer failed. */
  lemma JoinedCounts(config: HealthConfig, start: int, limits: R.Limits, actions: seq<TimedAction>, i: nat)
    requires Reached(config, start, limits, actions).threads.joined
    ensures var r := Reached(config, start, limits, actions);
            var s, records, file := r.threads.status, Records(r.manager.tape), r.threads.pipe.writer.file;
            && Numbered(records) && file <= records
            && s.written == |file| <= s.processed == s.enqueued == |records| <= s.received
            && (R.Within(i, R.UnpersistedRange(s.lastProcessed, s.lastWritten)) <==> |file| <= i < |records|)
            && (!r.threads.pipe.writer.failed ==> R.UnpersistedRange(s.lastProcessed, s.lastWritten) == None)
  {
    ReachedIsWhole(config, start, limits, actions);
    SafeCounts(Reached(config, start, limits, actions).threads);
  }

  lemma SafeCounts(t: Threads)
    requires Safe(t) && t.joined
    ensures var s, l, file := t.status, t.desk.ledger, t.pipe.writer.file;
            && Numbered(l.records) && file <= l.records
            && s.written == |file| <= s.processed == s.enqueued == |l.records| <= s.received
            && s.lastProcessed == LastOf(|l.records|) && s.lastWritten == LastOf(|file|)
            && (!t.pipe.writer.failed ==> file == l.records)
  {
    R.SoundIsFaithful(t.pipe);
  }

  /** Joined without a fatal error: everything received is in the file, the manager is stopped and nothing is lost. */
  lemma SafeAndClean(t: Threads)
    requires Safe(t) && t.joined && t.status.fatal.None?
    ensures var s, n := t.status, |t.pipe.writer.file|;
            && t.pipe.writer.file == t.desk.ledger.records && t.desk.ledger.next == n && t.desk.stopping
            && s.state == Stopped && s.received == s.written == n
            && s.lastReceived == s.lastEnqueued == s.lastProcessed == s.lastWritten == LastOf(n)
  {
    R.SoundIsFaithful(t.pipe);
  }

  /** A capture that was joined without a fatal error, replayed from its file and its lifecycle log, ends exactly where
      the live manager ended, if and only if the manager was ever started and no message made the heartbeat parser
      throw. */
  lemma CleanCaptureReplays(config: HealthConfig, start: int, limits: R.Limits, actions: seq<TimedAction>)
    requires var t := Reached(config, start, limits, actions).threads; t.joined && t.status.fatal.None?
    ensures var r := Reached(config, start, limits, actions);
            var s := r.threads.status;
            var replayed := CoinbaseReplay.Replayed(r.threads.pipe.writer.file, s.lifecycle);
            replayed.Some? && CoinbaseAgreement.Reproduces(replayed.value, r.manager) <==>
            s.lifecycle != [] && !CoinbaseAgreement.EverThrows(config, start, r.history)
  {
    ReachedIsWhole(config, start, limits, actions);
    SameCapture(config, start, limits, actions);
    CleanReplays(Reached(config, start, limits, actions));
  }

  lemma CleanReplays(r: Runtime)
    requires Whole(r) && r.threads.joined && r.threads.status.fatal.None?
    ensures var replayed := CoinbaseReplay.Replayed(r.threads.pipe.writer.file, r.threads.status.lifecycle);
            replayed.Some? && CoinbaseAgreement.Reproduces(replayed.value, r.manager) <==>
            r.threads.status.lifecycle != [] && !CoinbaseAgreement.EverThrows(r.config, r.start, r.history)
  {
    SafeAndClean(r.threads);
    CoinbaseRuns.RunKeeps(r.config, r.start, r.history);
    KeptIsBalanced(r.manager);
    CoinbaseAgreement.ReplayReproducesRun(r.config, r.start, r.history);
  }
}
