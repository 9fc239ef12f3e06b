/** The writer thread as both runtimes share it: its actions on pipeline and status, src/pipeline/runtime_status.cpp. */
module WriterThread {
  import opened Base
  import opened Envelope
  import opened Recording
  import opened RuntimeStatus

  /** What the writer thread reads and writes. */
  datatype Bench<+P> = Bench(pipe: Pipeline<P>, status: Status, ready: bool, done: bool)

  predicate OfWriter<P>(a: Action<P>)
  {
    a.Open? || a.Pop? || a.Append? || a.CloseFile? || a.Report? || a.Abandon? || a.Finish?
  }

  /** The locked sections of the writer. */
  function Noted<P>(b: Bench<P>, a: Action<P>): (c: Bench<P>)
  {
    var w := b.pipe.writer.phase;
    if a.Open? && w.Opening? && a.ready then b.(ready := true)
    else if a.Append? && w.Holding? && Taken(b.pipe, a).writer.phase.Waiting?
      then b.(status := Wrote(b.status, w.record.index))
    else if a.Report? && w.Failing? then b.(status := RuntimeStatus.Failing(b.status, w.error, StoppedRecordingError))
    else if a.Finish? && w.Finishing? then b.(done := true)
    else b
  }

  function Worked<P>(b: Bench<P>, a: Action<P>): (c: Bench<P>) { Noted(b, a).(pipe := Taken(b.pipe, a)) }

  // ----- What the writer keeps -----

  /** Counters, failures and flags go with the writer's phase; joined tells whether the main thread has joined it. */
  predicate Orderly<P>(b: Bench<P>, joined: bool)
  {
    var s, w := b.status, b.pipe.writer;
    && s.written == |w.file| && s.lastWritten == LastOf(s.written)
    && (s.fatal.Some? <==> IsFailure(s.state))
    && (s.state == RuntimeState.Stopped <==> s.fatal.None? && joined)
    && (w.failed && !w.phase.Failing? ==> s.fatal.Some?)
    && (b.done <==> w.phase.Finished?) && (joined ==> b.done)
  }

  /** During startup nothing has been queued, so a writer that is ready waits and cannot fail. cleared tells that the
      market thread has found no failure. */
  predicate Quiet<P>(b: Bench<P>, cleared: bool)
  {
    && |b.pipe.accepted| == 0 && (b.pipe.queue.closed ==> b.status.fatal.Some?)
    && (b.ready && b.status.fatal.None? ==> b.pipe.writer.phase.Waiting?)
    && (!b.ready ==> b.pipe.writer.phase.Opening? || b.pipe.writer.failed)
    && (cleared ==> b.ready && b.status.fatal.None?)
  }

  /** What no writer action touches; a failure stays a failure, and only a failed writer closes the queue. */
  ghost predicate Aside<P>(b: Bench<P>, c: Bench<P>)
  {
    && c.pipe.limits == b.pipe.limits && c.pipe.accepted == b.pipe.accepted
    && c.pipe.received == b.pipe.received && c.pipe.processed == b.pipe.processed
    && c.status == b.status.(fatal := c.status.fatal, state := c.status.state,
                             written := c.status.written, lastWritten := c.status.lastWritten)
    && (b.status.fatal.Some? ==> c.status.fatal == b.status.fatal)
    && (b.pipe.queue.closed ==> c.pipe.queue.closed)
    && (c.pipe.queue.closed && !b.pipe.queue.closed ==> c.status.fatal.Some?)
  }

  /** A pipeline that holds nothing accepted holds nothing at all. */
  predicate Grounded<P>(p: Pipeline<P>)
  {
    && Steady(p) && (|p.accepted| == 0 ==> |p.queue.messages| == 0)
    && (p.writer.phase.Holding? ==> p.writer.phase.record.index == |p.writer.file| < |p.accepted|)
  }

  lemma SoundIsGrounded<P>(p: Pipeline<P>)
    requires Sound(p)
    ensures Grounded(p)
  {
    if p.writer.phase.Holding? {
      NextIndexMatches(p);
    }
  }

  lemma OpenKeeps<P>(b: Bench<P>, ok: bool, error: string, joined: bool)
    requires Orderly(b, joined) && Grounded(b.pipe)
    ensures var c := Worked(b, Open(ok, error));
            Orderly(c, joined) && Aside(b, c) && forall cleared :: Quiet(b, cleared) ==> Quiet(c, cleared)
  {}

  lemma PopKeeps<P>(b: Bench<P>, joined: bool)
    requires Orderly(b, joined) && Grounded(b.pipe)
    ensures var c := Worked(b, Pop);
            Orderly(c, joined) && Aside(b, c) && forall cleared :: Quiet(b, cleared) ==> Quiet(c, cleared)
  {}

  lemma AppendKeeps<P>(b: Bench<P>, ok: bool, joined: bool)
    requires Orderly(b, joined) && Grounded(b.pipe)
    ensures var c := Worked(b, Append(ok));
            Orderly(c, joined) && Aside(b, c) && forall cleared :: Quiet(b, cleared) ==> Quiet(c, cleared)
  {}

  lemma CloseFileKeeps<P>(b: Bench<P>, ok: bool, joined: bool)
    requires Orderly(b, joined) && Grounded(b.pipe)
    ensures var c := Worked(b, CloseFile(ok));
            Orderly(c, joined) && Aside(b, c) && forall cleared :: Quiet(b, cleared) ==> Quiet(c, cleared)
  {}

  lemma ReportKeeps<P>(b: Bench<P>, joined: bool)
    requires Orderly(b, joined) && Grounded(b.pipe)
    ensures var c := Worked(b, Report);
            Orderly(c, joined) && Aside(b, c) && forall cleared :: Quiet(b, cleared) ==> Quiet(c, cleared)
  {}

  lemma AbandonKeeps<P>(b: Bench<P>, joined: bool)
    requires Orderly(b, joined) && Grounded(b.pipe)
    ensures var c := Worked(b, Abandon);
            Orderly(c, joined) && Aside(b, c) && forall cleared :: Quiet(b, cleared) ==> Quiet(c, cleared)
  {}

  lemma FinishKeeps<P>(b: Bench<P>, joined: bool)
    requires Orderly(b, joined) && Grounded(b.pipe)
    ensures var c := Worked(b, Finish);
            Orderly(c, joined) && Aside(b, c) && forall cleared :: Quiet(b, cleared) ==> Quiet(c, cleared)
  {}

  /** Every writer action keeps its order, leaves the market thread's side aside, and keeps a quiet startup quiet. */
  lemma WorkKeeps<P>(b: Bench<P>, a: Action<P>, joined: bool)
    requires OfWriter(a) && Orderly(b, joined) && Grounded(b.pipe)
    ensures var c := Worked(b, a);
            Orderly(c, joined) && Aside(b, c) && forall cleared :: Quiet(b, cleared) ==> Quiet(c, cleared)
  {
    match a
    case Open(ok, error) => OpenKeeps(b, ok, error, joined);
    case Pop => PopKeeps(b, joined);
    case Append(ok) => AppendKeeps(b, ok, joined);
    case CloseFile(ok) => CloseFileKeeps(b, ok, joined);
    case Report => ReportKeeps(b, joined);
    case Abandon => AbandonKeeps(b, joined);
    case Finish => FinishKeeps(b, joined);
  }
}
