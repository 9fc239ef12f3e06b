/** What every interleaving of a live Kraken capture keeps, and what its joined status means. */
module KrakenCapture {
  import opened Base
  import opened Envelope
  import opened Market
  import opened Tape
  import R = Recording
  import W = WriterThread
  import opened RuntimeStatus
  import opened Sessions
  import opened KrakenProcessor
  import opened KrakenLive
  import opened KrakenRuntime
  import CoinbaseManager
  import KrakenReplay
  import KrakenAgreement

  // ----- What a handler does to the desk -----

  /** Records are numbered, lifecycle events positioned, and the index counts the records. */
  ghost predicate Logged(l: Live)
  {
    && l.link.index == |Records(l.tape)| && Numbered(Records(l.tape)) && Positioned(l.tape)
    && AllowedStates(Lifecycles(l.tape))
  }

  lemma RecoveredLogged(l: Live, reason: string, stale: bool)
    requires Logged(l)
    ensures var r := Recovered(l, reason, stale);
            && Logged(r) && DeskOf(r) == DeskOf(l).(lifecycle := Lifecycles(r.tape))
  {
    if !l.link.stopping && !l.link.recovering {
      Appended(l.tape, Lifecycle(LifecycleEvent(l.link.index, if stale then Stale else Disconnected, reason)));
    }
  }

  lemma TakenLogged(l: Live, m: Payload, size: nat, mono: int, reason: string)
    requires Logged(l)
    ensures var r := KrakenLive.Taken(l, m, size, mono, reason);
            && Logged(r)
            && DeskOf(r) == DeskOf(l).(lifecycle := Lifecycles(r.tape),
                                       records := Records(l.tape) +
                                                  [Record(|Records(l.tape)|, l.link.connection, mono, size, m)])
  {
    Appended(l.tape, Recorded(Record(l.link.index, l.link.connection, mono, size, m)));
    var e := Entered(Recording(l, m, size, mono));
    ConcludedLogged(e, Processed(e.processor, m, mono), reason);
  }

  lemma ConcludedLogged(e: Live, result: (Processor, bool), reason: string)
    requires Logged(e.(link := e.link.(index := e.link.index + 1)))
    ensures var r := Concluded(e, result, reason); Logged(r) && DeskOf(r) == DeskOf(e).(lifecycle := Lifecycles(r.tape))
  {
    var q := KrakenLive.Counted(e, result.0);
    CountedLogged(e, result.0);
    RecoveredLogged(q, reason, false);
    DelayLogged(q, CoinbaseManager.FIRST_DELAY);
  }

  lemma CountedLogged(e: Live, p: Processor)
    requires Logged(e.(link := e.link.(index := e.link.index + 1)))
    ensures Logged(KrakenLive.Counted(e, p)) && DeskOf(KrakenLive.Counted(e, p)) == DeskOf(e)
  {
    LoggedAlike(e.(link := e.link.(index := e.link.index + 1)), KrakenLive.Counted(e, p));
  }

  lemma DelayLogged(l: Live, delay: nat)
    requires Logged(l)
    ensures var r := l.(link := l.link.(delay := delay)); Logged(r) && DeskOf(r) == DeskOf(l)
  {}

  /** Only the index and the tape matter. */
  lemma LoggedAlike(l: Live, r: Live)
    requires Logged(l) && r.tape == l.tape && r.link.index == l.link.index
    ensures Logged(r)
  {}

  lemma ForcedLogged(l: Live, now: int)
    requires Logged(l)
    ensures var r := Forced(l, now); Logged(r) && DeskOf(r) == DeskOf(l).(lifecycle := Lifecycles(r.tape))
  {
    var f := l.(link := l.link.(forced := true));
    LoggedAlike(l, f);
    RecoveredLogged(f, "forced_disconnect", false);
  }

  lemma WatchedLogged(l: Live, now: int)
    requires Logged(l)
    ensures var r := Watched(l, now); Logged(r) && DeskOf(r) == DeskOf(l).(lifecycle := Lifecycles(r.tape))
  {
    RecoveredLogged(l, "message_timeout", true);
    RecoveredLogged(l, "snapshot_timeout", false);
  }

  /** How a handler changes the desk. */
  predicate Follows(d: Desk, e: Event, n: Desk)
  {
    && (d.stopping ==> n.stopping)
    && match e
       case OnMessage(m, size, mono, answer, _) =>
         if d.stopping then n == d
         else if answer == PushResult.Accepted then
           n == d.(lifecycle := n.lifecycle, records := d.records + [Record(|d.records|, d.connection, mono, size, m)])
         else n.records == d.records && n.stopping && n.fatal
       case Tick(_, requested, seen, again) =>
         n.records == d.records && n.fatal == (d.fatal || seen || again) && (requested || again ==> n.stopping)
       case Halt => n == d.(stopping := true)
       case _ => n.records == d.records && n.fatal == d.fatal && n.stopping == d.stopping
  }

  lemma StepFollows(l: Live, e: Event)
    requires Logged(l)
    ensures Logged(Step(l, e)) && Follows(DeskOf(l), e, DeskOf(Step(l, e)))
  {
    match e
    case OnMessage(m, size, mono, answer, reason) => TakenLogged(l, m, size, mono, reason);
    case OnError(reason) => RecoveredLogged(l, reason, false);
    case Tick(now, requested, seen, again) => TickFollows(l, now, requested, seen, again);
    case _ =>
  }

  lemma TickFollows(l: Live, now: int, requested: bool, seen: bool, again: bool)
    requires Logged(l)
    ensures var r := KrakenLive.Ticked(l, now, requested, seen, again);
            Logged(r) && Follows(DeskOf(l), Tick(now, requested, seen, again), DeskOf(r))
  {
    var i := if seen then Doomed(l) else l;
    var s := if requested || again || Due(l.config.duration, now - l.started) then KrakenLive.Stopped(i) else i;
    var f := if again then s.(link := s.link.(fatal := true)) else s;
    LoggedAlike(l, f);
    ForcedLogged(f, now);
    WatchedLogged(Forced(f, now), now);
  }

  // ----- Invariant of the threads -----

  predicate Handles(p: Phase) { p.Pushed? || p.Noted? }

  /** The pipeline holds what was recorded, and while a message is being handled one envelope more. */
  predicate InStep(t: Threads)
  {
    var d, p := t.desk, t.pipe;
    && p.processed == |d.records|
    && (if Handles(t.phase) then
          var e := t.phase.message;
          && e.OnMessage? && !d.stopping && p.received == |d.records| + 1
          && p.accepted == d.records +
               (if e.answer == PushResult.Accepted
                then [Record(|d.records|, d.connection, e.mono, e.size, e.payload)] else [])
          && (e.answer != PushResult.Accepted && (e.answer == Closed || t.phase.Noted?) ==> t.status.fatal.Some?)
        else
          && p.accepted == d.records && |d.records| <= p.received
          && (p.received != |d.records| ==> d.stopping && t.status.fatal.Some?))
  }

  /** The shared counters are those of the pipeline; the answer of a push is noted after it was given. */
  predicate Reported(t: Threads)
  {
    var s, p := t.status, t.pipe;
    && s.received + (if t.phase.Pushed? then 1 else 0) == p.received && s.lastReceived == LastOf(s.received)
    && s.enqueued + (if Unnoted(t.phase) then 1 else 0) == |p.accepted| && s.lastEnqueued == LastOf(s.enqueued)
    && s.processed == p.processed && s.lastProcessed == LastOf(s.processed)
    && s.lifecycle == t.desk.lifecycle
  }

  /** An accepted push is not in the status yet. */
  predicate Unnoted(p: Phase)
  {
    p.Pushed? && p.message.OnMessage? && p.message.answer == PushResult.Accepted
  }

  /** What the market thread takes for a failure is one. */
  predicate Judged(t: Threads)
  {
    && (t.desk.fatal ==> t.status.fatal.Some?)
    && (t.phase.Checked? && t.phase.fatal ==> t.status.fatal.Some?)
    && (t.phase.Ticked? && t.phase.seen ==> t.status.fatal.Some?)
  }

  predicate Leaves(p: Phase) { p.Leaving? || p.Left? || p.Gone? }

  predicate Guarded(t: Threads)
  {
    && (t.desk.stopping ==> t.pipe.queue.closed)
    && (t.pipe.queue.closed ==> t.desk.stopping || t.status.fatal.Some? || Leaves(t.phase))
    && (!t.ticking ==> t.desk.stopping)
    && (Leaves(t.phase) ==> t.desk.stopping || t.status.fatal.Some?)
    && (t.joined ==> t.phase.Gone?)
  }

  predicate StartsUp(p: Phase) { p.Awaiting? || p.Checked? }

  /** During startup the writer is quiet, and past the wait it is ready or has failed. */
  predicate Quiet(t: Threads)
  {
    StartsUp(t.phase) ==>
      && !t.desk.stopping && W.Quiet(BenchOf(t), t.phase.Checked? && !t.phase.fatal)
      && (t.phase.Checked? ==> t.ready || t.status.fatal.Some?)
  }

  predicate Tidy(t: Threads)
  {
    && Numbered(t.desk.records) && W.Orderly(BenchOf(t), t.joined)
    && InStep(t) && Reported(t) && Judged(t) && Guarded(t) && Quiet(t)
  }

  ghost predicate Safe(t: Threads) { R.Sound(t.pipe) && Tidy(t) }

  predicate CallFollows(d: Desk, call: Option<Event>, n: Desk)
  {
    Numbered(n.records) && if call.Some? then Follows(d, call.value, n) else n == d
  }

  // ----- Every action keeps it -----

  lemma CheckKeeps(t: Threads)
    requires Tidy(t) && t.phase.Awaiting? && (t.ready || t.writerDone)
    ensures Tidy(t.(phase := Checked(t.status.fatal.Some?)))
  {}

  lemma HaltKeeps(t: Threads, d: Desk)
    requires Tidy(t) && t.phase.Checked? && t.phase.fatal && CallFollows(t.desk, Some(Halt), d)
    ensures Tidy(ClosedQueue(Seen(t, d)).(phase := Looping))
  {}

  lemma BeginKeeps(t: Threads, now: int, d: Desk)
    requires Tidy(t) && t.phase.Checked? && !t.phase.fatal && CallFollows(t.desk, Some(Connect(now)), d)
    ensures Tidy(Seen(t.(status := t.status.(state := Running)), d).(phase := Looping))
  {}

  lemma StartupKeeps(t: Threads, a: Action, d: Desk)
    requires Tidy(t) && CallFollows(t.desk, Call(t, a), d) && (a.CheckStatus? || a.Begin?)
    ensures Tidy(Moved(t, a, d))
  {
    match a
    case CheckStatus => if t.phase.Awaiting? && (t.ready || t.writerDone) { CheckKeeps(t); }
    case Begin(now) => if t.phase.Checked? { if t.phase.fatal { HaltKeeps(t, d); } else { BeginKeeps(t, now, d); } }
  }

  lemma OfferKeeps(t: Threads, e: Event)
    requires Tidy(t) && t.phase.Looping? && !t.desk.stopping && e.OnMessage?
    ensures Tidy(Offered(t, e))
  {}

  lemma NoteKeeps(t: Threads)
    requires Tidy(t) && t.phase.Pushed? && t.phase.message.OnMessage?
    ensures var rejected := t.phase.message.answer != PushResult.Accepted;
            Tidy(t.(status := Noting(t.status, rejected), phase := Noted(t.phase.message)))
  {}

  lemma SettleKeeps(t: Threads, d: Desk)
    requires Tidy(t) && t.phase.Noted? && t.phase.message.OnMessage? && CallFollows(t.desk, Some(t.phase.message), d)
    ensures Tidy(Settled(t, t.phase.message.answer == PushResult.Accepted, d))
  {}

  lemma ActKeeps(t: Threads, e: Event, d: Desk)
    requires Tidy(t) && t.phase.Looping? && FromOutside(e) && CallFollows(t.desk, Some(e), d)
    ensures Tidy(Seen(t, d))
  {}

  lemma LoopKeeps(t: Threads, a: Action, d: Desk)
    requires Tidy(t) && CallFollows(t.desk, Call(t, a), d) && (a.Offer? || a.Note? || a.Settle? || a.Act?)
    ensures Tidy(Moved(t, a, d))
  {
    match a
    case Offer(e) => if t.phase.Looping? && !t.desk.stopping && e.OnMessage? { OfferKeeps(t, e); }
    case Note => if t.phase.Pushed? && t.phase.message.OnMessage? { NoteKeeps(t); }
    case Settle => if t.phase.Noted? && t.phase.message.OnMessage? { SettleKeeps(t, d); }
    case Act(e) => if t.phase.Looping? && FromOutside(e) { ActKeeps(t, e, d); }
  }

  lemma TickReadKeeps(t: Threads)
    requires Tidy(t) && t.phase.Looping?
    ensures Tidy(t.(phase := Ticked(t.status.fatal.Some?)))
  {}

  /** A tick that finds the thread stopping closes the queue and is the last one. */
  lemma TickDecideKeeps(t: Threads, now: int, requested: bool, d: Desk)
    requires Tidy(t) && t.phase.Ticked?
    requires CallFollows(t.desk, Some(Tick(now, requested, t.phase.seen, t.status.fatal.Some?)), d)
    ensures Tidy(Closing(Seen(t, d), d.stopping).(phase := Looping, ticking := !d.stopping))
  {}

  lemma TickKeeps(t: Threads, a: Action, d: Desk)
    requires Tidy(t) && CallFollows(t.desk, Call(t, a), d) && (a.TickRead? || a.TickDecide?)
    ensures Tidy(Moved(t, a, d))
  {
    match a
    case TickRead => if t.phase.Looping? { TickReadKeeps(t); }
    case TickDecide(now, requested) => if t.phase.Ticked? { TickDecideKeeps(t, now, requested, d); }
  }

  lemma LeaveKeeps(t: Threads)
    requires Tidy(t) && t.phase.Looping? && !t.ticking
    ensures Tidy(t.(phase := Leaving))
  {}

  lemma ThrowKeeps(t: Threads, error: string)
    requires Tidy(t) && MayThrow(t.phase)
    ensures Tidy(t.(phase := Caught(error)))
  {}

  lemma ReportCaughtKeeps(t: Threads)
    requires Tidy(t) && t.phase.Caught?
    ensures var s := t.status.(fatal := Some(t.phase.error), state := StoppedProcessingError);
            Tidy(t.(status := s, phase := Leaving))
  {}

  lemma CloseLeavingKeeps(t: Threads)
    requires Tidy(t) && t.phase.Leaving?
    ensures Tidy(ClosedQueue(t).(phase := Left))
  {}

  lemma SignOffKeeps(t: Threads)
    requires Tidy(t) && t.phase.Left?
    ensures Tidy(t.(phase := Gone))
  {}

  lemma JoinKeeps(t: Threads)
    requires Tidy(t) && t.phase.Gone? && t.writerDone && !t.joined
    ensures Tidy(t.(status := Ended(t.status), joined := true))
  {}

  lemma ExitKeeps(t: Threads, a: Action, d: Desk)
    requires Tidy(t) && (a.Leave? || a.Throw? || a.ReportCaught?)
    ensures Tidy(Moved(t, a, d))
  {
    match a
    case Leave => if t.phase.Looping? && !t.ticking { LeaveKeeps(t); }
    case Throw(error) => if MayThrow(t.phase) { ThrowKeeps(t, error); }
    case ReportCaught => if t.phase.Caught? { ReportCaughtKeeps(t); }
  }

  lemma EndKeeps(t: Threads, a: Action, d: Desk)
    requires Tidy(t) && (a.CloseLeaving? || a.SignOff? || a.Join?)
    ensures Tidy(Moved(t, a, d))
  {
    match a
    case CloseLeaving => if t.phase.Leaving? { CloseLeavingKeeps(t); }
    case SignOff => if t.phase.Left? { SignOffKeeps(t); }
    case Join => if t.phase.Gone? && t.writerDone && !t.joined { JoinKeeps(t); }
  }

  lemma WriteKeeps(t: Threads, w: R.Action<Payload>)
    requires Tidy(t) && W.Grounded(t.pipe) && W.OfWriter(w)
    ensures Tidy(Written(t, w))
  {
    W.WorkKeeps(BenchOf(t), w, t.joined);
    WrittenKeeps(t, w);
  }

  /** A writer action leaves the market thread's side aside. */
  lemma WrittenKeeps(t: Threads, w: R.Action<Payload>)
    requires Tidy(t)
    requires var c := W.Worked(BenchOf(t), w);
             && W.Orderly(c, t.joined) && W.Aside(BenchOf(t), c)
             && forall cleared :: W.Quiet(BenchOf(t), cleared) ==> W.Quiet(c, cleared)
    ensures Tidy(Written(t, w))
  {}

  lemma MoveKeeps(t: Threads, a: Action, d: Desk)
    requires Safe(t) && CallFollows(t.desk, Call(t, a), d)
    ensures Tidy(Moved(t, a, d))
  {
    if a.CheckStatus? || a.Begin? {
      StartupKeeps(t, a, d);
    } else if a.Offer? || a.Note? || a.Settle? || a.Act? {
      LoopKeeps(t, a, d);
    } else if a.TickRead? || a.TickDecide? {
      TickKeeps(t, a, d);
    } else if a.Leave? || a.Throw? || a.ReportCaught? {
      ExitKeeps(t, a, d);
    } else if a.Write? {
      if W.OfWriter(a.action) {
        W.SoundIsGrounded(t.pipe);
        WriteKeeps(t, a.action);
      }
    } else {
      EndKeeps(t, a, d);
    }
  }

  lemma OtherPipes(t: Threads, a: Action, d: Desk)
    requires !a.Offer? && !a.Settle? && !a.Write?
    ensures Moved(t, a, d).pipe == t.pipe || Moved(t, a, d).pipe == R.Shut(t.pipe)
  {}

  lemma OffersInTurn(t: Threads)
    requires Tidy(t) && t.phase.Looping? && !t.desk.stopping
    ensures R.MayOffer(t.pipe)
  {}

  /** Every action leaves the pipeline sound. */
  lemma MoveIsSound(t: Threads, a: Action, d: Desk)
    requires Safe(t)
    ensures R.Sound(Moved(t, a, d).pipe)
  {
    if t.phase.Looping? && !t.desk.stopping {
      OffersInTurn(t);
    }
    PipeIsSound(t, a, d);
  }

  lemma PipeIsSound(t: Threads, a: Action, d: Desk)
    requires R.Sound(t.pipe) && (t.phase.Looping? && !t.desk.stopping ==> R.MayOffer(t.pipe))
    ensures R.Sound(Moved(t, a, d).pipe)
  {
    match a
    case Offer(e) =>
      if t.phase.Looping? && !t.desk.stopping && e.OnMessage? {
        R.OfferKeeps(t.pipe, Record(t.pipe.received, t.desk.connection, e.mono, e.size, e.payload));
      }
    case Settle =>
      R.ActionKeeps(t.pipe, R.Process);
      R.ActionKeeps(t.pipe, R.Close);
    case Write(w) => R.ActionKeeps(t.pipe, w);
    case _ =>
      R.ActionKeeps(t.pipe, R.Close);
      OtherPipes(t, a, d);
  }

  // ----- The whole runtime -----

  ghost predicate Whole(r: Runtime)
  {
    && r.live == Run(r.config, r.start, r.history) && Logged(r.live)
    && r.threads.desk == DeskOf(r.live) && Safe(r.threads)
  }

  lemma DeskMoves(t: Threads, a: Action, d: Desk)
    requires InStep(t) && (Call(t, a).None? ==> d == t.desk)
    ensures Moved(t, a, d).desk == d
  {}

  lemma HandlerFollows(l: Live, call: Option<Event>)
    requires Logged(l)
    ensures Logged(Called(l, call)) && CallFollows(DeskOf(l), call, DeskOf(Called(l, call)))
  {
    if call.Some? {
      StepFollows(l, call.value);
    }
  }

  lemma StepRuns(r: Runtime, a: Action)
    requires r.live == Run(r.config, r.start, r.history)
    ensures var s := KrakenRuntime.Taken(r, a); s.live == Run(s.config, s.start, s.history)
  {
    var call := Call(r.threads, a);
    if call.Some? {
      assert (r.history + [call.value])[..|r.history|] == r.history;
    }
  }

  lemma StepSafe(r: Runtime, a: Action)
    requires Whole(r)
    ensures var s := KrakenRuntime.Taken(r, a); Logged(s.live) && s.threads.desk == DeskOf(s.live) && Safe(s.threads)
  {
    var call := Call(r.threads, a);
    HandlerFollows(r.live, call);
    MoveKeeps(r.threads, a, DeskOf(Called(r.live, call)));
    MoveIsSound(r.threads, a, DeskOf(Called(r.live, call)));
    DeskMoves(r.threads, a, DeskOf(Called(r.live, call)));
  }

  lemma LaunchedIsWhole(config: Config, start: int, limits: R.Limits)
    ensures Whole(Launched(config, start, limits))
  {
    R.IdleIsSound<Payload>(limits);
    LaunchedIsTidy(config, start, limits);
  }

  lemma LaunchedIsTidy(config: Config, start: int, limits: R.Limits)
    ensures Tidy(Launched(config, start, limits).threads)
  {}

  lemma {:induction false} ReachedIsWhole(config: Config, start: int, limits: R.Limits, actions: seq<Action>)
    ensures Whole(Reached(config, start, limits, actions))
    ensures var r := Reached(config, start, limits, actions); r.config == config && r.start == start
  {
    if actions == [] {
      LaunchedIsWhole(config, start, limits);
    } else {
      var r := Reached(config, start, limits, actions[..|actions| - 1]);
      ReachedIsWhole(config, start, limits, actions[..|actions| - 1]);
      StepRuns(r, actions[|actions| - 1]);
      StepSafe(r, actions[|actions| - 1]);
    }
  }

  /** A recorded cause is replaced only when an exception leaves the market thread's loop. */
  lemma OnlyExceptionsReplaceCause(r: Runtime, a: Action)
    requires r.threads.status.fatal.Some?
    ensures KrakenRuntime.Taken(r, a).threads.status.fatal ==
            if a.ReportCaught? && r.threads.phase.Caught? then Some(r.threads.phase.error) else r.threads.status.fatal
  {
    MoveKeepsCause(r.threads, a, DeskOf(Called(r.live, Call(r.threads, a))));
  }

  lemma MoveKeepsCause(t: Threads, a: Action, d: Desk)
    requires t.status.fatal.Some?
    ensures Moved(t, a, d).status.fatal ==
            if a.ReportCaught? && t.phase.Caught? then Some(t.phase.error) else t.status.fatal
  {
    match a
    case Write(w) => assert W.Noted(BenchOf(t), w).status.fatal == t.status.fatal;
    case _ =>
  }

  // ----- What the joined status means -----

  lemma SafeStates(t: Threads)
    requires Safe(t) && t.joined
    ensures t.status.state == RuntimeState.Stopped <==> t.status.fatal.None?
    ensures t.status.state == RuntimeState.Stopped || IsFailure(t.status.state)
  {}

  lemma SafeCounts(t: Threads)
    requires Safe(t) && t.joined
    ensures var s, d, file := t.status, t.desk, t.pipe.writer.file;
            && Numbered(d.records) && file <= d.records
            && s.written == |file| <= s.processed == s.enqueued == |d.records| <= s.received
            && s.lastProcessed == LastOf(|d.records|) && s.lastWritten == LastOf(|file|)
            && (!t.pipe.writer.failed ==> file == d.records)
  {
    R.SoundIsFaithful(t.pipe);
  }

  /** At join, whatever happened: records are numbered from zero, the file is a prefix of the accepted records, the
      counters are those of the record lists, the reported range is exactly what was processed and not written, and
      it is empty unless the writer failed. */
  lemma JoinedCounts(config: Config, start: int, limits: R.Limits, actions: seq<Action>, i: nat)
    requires Reached(config, start, limits, actions).threads.joined
    ensures var r := Reached(config, start, limits, actions);
            var s, records, file := r.threads.status, Records(r.live.tape), r.threads.pipe.writer.file;
            && Numbered(records) && file <= records
            && s.written == |file| <= s.processed == s.enqueued == |records| <= s.received
            && (R.Within(i, R.UnpersistedRange(s.lastProcessed, s.lastWritten)) <==> |file| <= i < |records|)
            && (!r.threads.pipe.writer.failed ==> R.UnpersistedRange(s.lastProcessed, s.lastWritten) == None)
  {
    ReachedIsWhole(config, start, limits, actions);
    SafeCounts(Reached(config, start, limits, actions).threads);
  }

  lemma SafeAndClean(t: Threads)
    requires Safe(t) && t.joined && t.status.fatal.None?
    ensures var s, n := t.status, |t.pipe.writer.file|;
            && t.pipe.writer.file == t.desk.records && !t.desk.fatal
            && s.state == RuntimeState.Stopped && s.received == s.written == n
            && s.lastReceived == s.lastEnqueued == s.lastProcessed == s.lastWritten == LastOf(n)
  {
    R.SoundIsFaithful(t.pipe);
  }

  /** In every interleaving that ends with both threads joined, the session can be published; it is published as
      complete exactly when there was no fatal error, and then it passes all of replay's checks and the replay ends
      with the live processor: book, checksum, metrics and state times. */
  lemma PublishedSessionReplays(config: Config, start: int, limits: R.Limits, actions: seq<Action>, connections: nat)
    requires Reached(config, start, limits, actions).threads.joined
    ensures var r := Reached(config, start, limits, actions);
            var s, file := r.threads.status, r.threads.pipe.writer.file;
            var m := Finalized(s, Scan(|file|, connections));
            && !IsRunning(s.state)
            && (m.status == Complete <==> s.fatal.None?)
            && (m.status == Complete ==> Passes(m, |file|))
            && (m.status == Complete ==>
                  var replayed := KrakenReplay.Replayed(config.depth, file, m.lifecycle);
                  replayed.Some? && replayed.value.processor == r.live.processor)
  {
    var r := Reached(config, start, limits, actions);
    ReachedIsWhole(config, start, limits, actions);
    SafeStates(r.threads);
    if r.threads.status.fatal.None? {
      SafeAndClean(r.threads);
      PositionedIsOrdered(r.live.tape);
      AgreeingStatusPasses(r.threads.status, connections);
      KrakenAgreement.ReplayReproducesRun(config, start, r.history);
    }
  }
}
