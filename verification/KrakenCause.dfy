/** When the Kraken runtime replaces a recorded fatal cause. */
module KrakenCause {
  import opened Base
  import R = Recording
  import opened RuntimeStatus
  import opened KrakenProcessor
  import opened KrakenLive
  import opened KrakenRuntime
  import KrakenCapture

  /** What a capture is started with. */
  datatype Setup = Setup(config: Config, start: int, limits: R.Limits)

  function PhaseAt(u: Setup, s: seq<Action>): (p: Phase)
  {
    Reached(u.config, u.start, u.limits, s).threads.phase
  }

  function CauseAt(u: Setup, s: seq<Action>): (e: Option<string>)
  {
    Reached(u.config, u.start, u.limits, s).threads.status.fatal
  }

  // ----- Exceptions in a schedule -----

  /** Action i throws, at a point from which an exception can leave the loop. */
  predicate ThrowsAt(u: Setup, s: seq<Action>, i: nat)
  {
    i < |s| && s[i].Throw? && MayThrow(PhaseAt(u, s[..i]))
  }

  predicate NoReport(s: seq<Action>, i: nat, j: nat)
    requires j <= |s|
  {
    forall k :: i <= k < j ==> !s[k].ReportCaught?
  }

  /** Action j is the first report after the exception of action i. */
  predicate Reports(u: Setup, s: seq<Action>, i: nat, j: nat)
  {
    i < j < |s| && ThrowsAt(u, s, i) && s[j].ReportCaught? && NoReport(s, i + 1, j)
  }

  // ----- The phase -----

  lemma CaughtMoves(t: Threads, a: Action, d: Desk)
    requires t.phase.Caught?
    ensures Moved(t, a, d).phase == if a.ReportCaught? then Leaving else t.phase
  {}

  lemma LeavingMoves(t: Threads, a: Action, d: Desk)
    requires KrakenCapture.Leaves(t.phase)
    ensures KrakenCapture.Leaves(Moved(t, a, d).phase)
  {}

  lemma ThrowMoves(t: Threads, a: Action, d: Desk)
    requires !t.phase.Caught?
    ensures Moved(t, a, d).phase.Caught? <==> a.Throw? && MayThrow(t.phase)
    ensures a.Throw? && MayThrow(t.phase) ==> Moved(t, a, d).phase == Caught(a.error)
  {}

  lemma PhaseSteps(u: Setup, s: seq<Action>)
    requires s != []
    ensures var t, a := Reached(u.config, u.start, u.limits, s[..|s| - 1]).threads, s[|s| - 1];
            var p := PhaseAt(u, s);
            && (t.phase.Caught? ==> p == if a.ReportCaught? then Leaving else t.phase)
            && (KrakenCapture.Leaves(t.phase) ==> KrakenCapture.Leaves(p))
            && (a.Throw? && MayThrow(t.phase) ==> p == Caught(a.error))
            && (p.Caught? && !t.phase.Caught? ==> a.Throw? && MayThrow(t.phase))
  {
    var r := Reached(u.config, u.start, u.limits, s[..|s| - 1]);
    var d := DeskOf(Called(r.live, Call(r.threads, s[|s| - 1])));
    if r.threads.phase.Caught? {
      CaughtMoves(r.threads, s[|s| - 1], d);
    } else {
      ThrowMoves(r.threads, s[|s| - 1], d);
    }
    if KrakenCapture.Leaves(r.threads.phase) {
      LeavingMoves(r.threads, s[|s| - 1], d);
    }
  }

  /** An exception that is not reported keeps the thread where it was caught. */
  lemma {:induction false} CaughtStays(u: Setup, s: seq<Action>, i: nat)
    requires ThrowsAt(u, s, i) && NoReport(s, i + 1, |s|)
    ensures PhaseAt(u, s) == Caught(s[i].error)
  {
    PhaseSteps(u, s);
    if i < |s| - 1 {
      var t := s[..|s| - 1];
      assert t[..i] == s[..i] && t[i] == s[i];
      CaughtStays(u, t, i);
    }
  }

  /** A caught exception was thrown, and not reported since. */
  lemma {:induction false} CaughtWasThrown(u: Setup, s: seq<Action>) returns (i: nat)
    requires PhaseAt(u, s).Caught?
    ensures ThrowsAt(u, s, i) && NoReport(s, i + 1, |s|)
    ensures s[i].error == PhaseAt(u, s).error
  {
    PhaseSteps(u, s);
    var t := s[..|s| - 1];
    if PhaseAt(u, t).Caught? {
      i := CaughtWasThrown(u, t);
      assert t[..i] == s[..i] && t[i] == s[i];
    } else {
      i := |s| - 1;
    }
  }

  /** Once an exception has been reported the thread is on its way out. */
  lemma {:induction false} LeavesAfterReport(u: Setup, s: seq<Action>, i: nat, j: nat)
    requires Reports(u, s, i, j)
    ensures KrakenCapture.Leaves(PhaseAt(u, s))
  {
    PhaseSteps(u, s);
    var t := s[..|s| - 1];
    assert t[..i] == s[..i] && t[i] == s[i];
    if j == |s| - 1 {
      CaughtStays(u, t, i);
    } else {
      LeavesAfterReport(u, t, i, j);
    }
  }

  // ----- The cause -----

  lemma CauseSteps(u: Setup, s: seq<Action>)
    requires s != [] && CauseAt(u, s[..|s| - 1]).Some?
    ensures var p := PhaseAt(u, s[..|s| - 1]);
            CauseAt(u, s) ==
            if s[|s| - 1].ReportCaught? && p.Caught? then Some(p.error) else CauseAt(u, s[..|s| - 1])
  {
    KrakenCapture.OnlyExceptionsReplaceCause(Reached(u.config, u.start, u.limits, s[..|s| - 1]), s[|s| - 1]);
  }

  /** The reports of a schedule are those of its front and perhaps one by its last action. */
  lemma ReportsOfFront(u: Setup, s: seq<Action>, i: nat, j: nat)
    requires s != []
    ensures j < |s| - 1 ==> (Reports(u, s, i, j) <==> Reports(u, s[..|s| - 1], i, j))
    ensures Reports(u, s, i, |s| - 1) ==>
              s[|s| - 1].ReportCaught? && PhaseAt(u, s[..|s| - 1]) == Caught(s[i].error)
  {
    var t := s[..|s| - 1];
    if i < |t| {
      assert t[..i] == s[..i] && t[i] == s[i];
    }
    if Reports(u, s, i, |s| - 1) {
      CaughtStays(u, t, i);
    }
  }

  /** What the cause is at the end of a schedule, given the exceptions reported from action n on. */
  ghost predicate Explained(u: Setup, s: seq<Action>, n: nat)
    requires n <= |s|
  {
    && (forall i: nat, j: nat :: n <= j && Reports(u, s, i, j) ==> CauseAt(u, s) == Some(s[i].error))
    && ((forall i: nat, j: nat :: n <= j ==> !Reports(u, s, i, j)) ==>
          CauseAt(u, s) == CauseAt(u, s[..n]))
    && CauseAt(u, s).Some?
  }

  lemma {:induction false} CauseIsExplained(u: Setup, s: seq<Action>, n: nat)
    requires n <= |s| && CauseAt(u, s[..n]).Some?
    ensures Explained(u, s, n)
    decreases |s|
  {
    if n == |s| {
      assert s[..n] == s;
    } else {
      var t := s[..|s| - 1];
      assert t[..n] == s[..n];
      CauseIsExplained(u, t, n);
      ExplainedOn(u, s, n);
    }
  }

  lemma ExplainedOn(u: Setup, s: seq<Action>, n: nat)
    requires n < |s| && Explained(u, s[..|s| - 1], n)
    ensures Explained(u, s, n)
  {
    var t := s[..|s| - 1];
    assert t[..n] == s[..n];
    CauseSteps(u, s);
    if s[|s| - 1].ReportCaught? && PhaseAt(u, t).Caught? {
      ReportedNow(u, s, n);
    } else {
      NothingReportedNow(u, s, n);
    }
  }

  lemma ReportedNow(u: Setup, s: seq<Action>, n: nat)
    requires n < |s| && s[|s| - 1].ReportCaught? && PhaseAt(u, s[..|s| - 1]).Caught?
    requires CauseAt(u, s) == Some(PhaseAt(u, s[..|s| - 1]).error)
    ensures Explained(u, s, n)
  {
    var t := s[..|s| - 1];
    var thrown := CaughtWasThrown(u, t);
    assert t[..thrown] == s[..thrown] && Reports(u, s, thrown, |s| - 1);
    forall i: nat, j: nat | n <= j && Reports(u, s, i, j)
      ensures CauseAt(u, s) == Some(s[i].error)
    {
      ReportsOfFront(u, s, i, j);
      if j < |s| - 1 {
        LeavesAfterReport(u, t, i, j);
      }
    }
  }

  lemma ReportsAreOld(u: Setup, s: seq<Action>, i: nat, j: nat)
    requires s != [] && !(s[|s| - 1].ReportCaught? && PhaseAt(u, s[..|s| - 1]).Caught?)
    ensures Reports(u, s, i, j) <==> Reports(u, s[..|s| - 1], i, j)
    ensures Reports(u, s, i, j) ==> s[..|s| - 1][i] == s[i]
  {
    if j < |s| {
      ReportsOfFront(u, s, i, j);
    }
  }

  lemma NothingReportedNow(u: Setup, s: seq<Action>, n: nat)
    requires n < |s| && !(s[|s| - 1].ReportCaught? && PhaseAt(u, s[..|s| - 1]).Caught?)
    requires Explained(u, s[..|s| - 1], n) && CauseAt(u, s) == CauseAt(u, s[..|s| - 1])
    ensures Explained(u, s, n)
  {
    var t := s[..|s| - 1];
    assert t[..n] == s[..n];
    forall i: nat, j: nat | n <= j && Reports(u, s, i, j)
      ensures CauseAt(u, s) == Some(s[i].error)
    {
      ReportsAreOld(u, s, i, j);
      assert Reports(u, t, i, j);
    }
    if forall i: nat, j: nat :: n <= j ==> !Reports(u, s, i, j) {
      forall i: nat, j: nat | n <= j
        ensures !Reports(u, t, i, j)
      {
        ReportsAreOld(u, s, i, j);
      }
    }
  }

  /** In every interleaving, a recorded cause is still the cause at the end if and only if every exception reported
      after it carries the same text. */
  lemma CauseKeptExactly(u: Setup, s: seq<Action>, n: nat)
    requires n <= |s| && CauseAt(u, s[..n]).Some?
    ensures CauseAt(u, s) == CauseAt(u, s[..n]) <==>
            (forall i: nat, j: nat :: n <= j && Reports(u, s, i, j) ==>
               CauseAt(u, s[..n]) == Some(s[i].error))
  {
    CauseIsExplained(u, s, n);
  }

  // ----- A cause that is replaced -----

  /** After this schedule the market thread's variables are l and the threads stand at t. */
  predicate StandsAt(u: Setup, s: seq<Action>, l: Live, t: Threads)
  {
    Reached(u.config, u.start, u.limits, s).live == l && Reached(u.config, u.start, u.limits, s).threads == t
  }

  lemma Next(u: Setup, s: seq<Action>, l: Live, t: Threads, a: Action, m: Live, v: Threads) returns (more: seq<Action>)
    requires StandsAt(u, s, l, t) && m == Called(l, Call(t, a)) && v == Moved(t, a, DeskOf(m))
    ensures StandsAt(u, more, m, v) && more == s + [a]
  {
    more := s + [a];
    assert more[..|s|] == s;
  }

  function InPhase(t: Threads, p: R.WriterPhase<Payload>): (v: Threads)
  {
    t.(pipe := t.pipe.(writer := t.pipe.writer.(phase := p)))
  }

  const DISK: string := "cannot open a new recording file"
  const LOOP: string := "timer failure"

  /** The writer cannot open its file and reports it. */
  lemma WriterFails(u: Setup) returns (s: seq<Action>, l: Live, t: Threads)
    ensures StandsAt(u, s, l, t)
    ensures t.phase == Awaiting && t.status.fatal == Some(DISK) && !t.writerDone && !t.joined && t.ticking
    ensures t.pipe.writer.phase == R.Abandoning && l == Init(u.config, u.start)
  {
    s, l := [], Init(u.config, u.start);
    var t0 := Launched(u.config, u.start, u.limits).threads;
    var failing := t0.pipe.writer.(phase := R.Failing(DISK), failed := true);
    var t1 := t0.(pipe := t0.pipe.(writer := failing));
    s := Next(u, s, l, t0, Write(R.Open(false, DISK)), l, t1);
    t := InPhase(t1, R.Abandoning).(status := Failing(t1.status, DISK, StoppedRecordingError));
    s := Next(u, s, l, t1, Write(R.Report), l, t);
  }

  /** It closes the queue and signs off. */
  lemma WriterLeaves(u: Setup) returns (s: seq<Action>, first: seq<Action>, l: Live, t: Threads)
    ensures StandsAt(u, s, l, t) && first <= s && CauseAt(u, first) == Some(DISK) && l == Init(u.config, u.start)
    ensures t.phase == Awaiting && t.status.fatal == Some(DISK) && t.writerDone && !t.joined
  {
    var t0;
    first, l, t0 := WriterFails(u);
    var t1 := ClosedQueue(InPhase(t0, R.Finishing));
    s := Next(u, first, l, t0, Write(R.Abandon), l, t1);
    t := InPhase(t1, R.Finished).(writerDone := true);
    s := Next(u, s, l, t1, Write(R.Finish), l, t);
  }

  /** The market thread finds the failure and stops. */
  lemma MarketStops(u: Setup) returns (s: seq<Action>, first: seq<Action>, l: Live, t: Threads)
    ensures StandsAt(u, s, l, t) && first <= s && CauseAt(u, first) == Some(DISK)
    ensures t.phase == Looping && t.status.fatal == Some(DISK) && t.writerDone && !t.joined
  {
    var l0, t0;
    s, first, l0, t0 := WriterLeaves(u);
    var t1 := t0.(phase := Checked(true));
    s := Next(u, s, l0, t0, CheckStatus, l0, t1);
    l := KrakenLive.Stopped(l0);
    t := ClosedQueue(Seen(t1, DeskOf(l))).(phase := Looping);
    s := Next(u, s, l0, t1, Begin(u.start), l, t);
  }

  /** An exception leaves the loop and is reported. */
  lemma ExceptionReplaces(u: Setup) returns (s: seq<Action>, first: seq<Action>, l: Live, t: Threads)
    ensures StandsAt(u, s, l, t) && first <= s && CauseAt(u, first) == Some(DISK)
    ensures t.phase == Leaving && t.status.fatal == Some(LOOP) && t.writerDone && !t.joined
  {
    var t0;
    s, first, l, t0 := MarketStops(u);
    var t1 := t0.(phase := Caught(LOOP));
    s := Next(u, s, l, t0, Throw(LOOP), l, t1);
    t := t1.(status := t1.status.(fatal := Some(LOOP), state := StoppedProcessingError), phase := Leaving);
    s := Next(u, s, l, t1, ReportCaught, l, t);
  }

  /** The market thread closes the queue and signs off. */
  lemma MarketLeaves(u: Setup) returns (s: seq<Action>, first: seq<Action>, l: Live, t: Threads)
    ensures StandsAt(u, s, l, t) && first <= s && CauseAt(u, first) == Some(DISK)
    ensures t.phase == Gone && t.status.fatal == Some(LOOP) && t.writerDone && !t.joined
  {
    var t0;
    s, first, l, t0 := ExceptionReplaces(u);
    var t1 := ClosedQueue(t0).(phase := Left);
    s := Next(u, s, l, t0, CloseLeaving, l, t1);
    t := t1.(phase := Gone);
    s := Next(u, s, l, t1, SignOff, l, t);
  }

  /** There is an interleaving that records one cause and is joined with another. */
  lemma CauseCanBeReplaced(u: Setup) returns (s: seq<Action>, n: nat)
    ensures n <= |s| && CauseAt(u, s[..n]) == Some(DISK)
    ensures Reached(u.config, u.start, u.limits, s).threads.joined && CauseAt(u, s) == Some(LOOP)
    ensures DISK != LOOP
  {
    var l, t0, first;
    s, first, l, t0 := MarketLeaves(u);
    n := |first|;
    s := Next(u, s, l, t0, Join, l, t0.(joined := true));
    assert s[..n] == first;
    assert DISK[0] != LOOP[0];
  }
}
