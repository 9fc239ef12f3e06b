/** From capture to replay: what a published Coinbase session guarantees. */
module CoinbaseSession {
  import opened Base
  import opened Envelope
  import opened Tape
  import R = Recording
  import opened RuntimeStatus
  import opened Sessions
  import opened CoinbaseFeed
  import opened CoinbaseManager
  import opened CoinbaseLedger
  import opened CoinbaseRuntime
  import opened CoinbaseCapture
  import CoinbaseJournal
  import CoinbaseRuns
  import CoinbaseReplay
  import CoinbaseAgreement

  /** The lifecycle log of a clean capture is positioned within its records. */
  lemma CleanLogIsAccepted(r: Runtime)
    requires Whole(r) && r.threads.joined && r.threads.status.fatal.None?
    ensures AllowedStates(r.threads.status.lifecycle) && Ordered(r.threads.status.lifecycle, r.threads.status.written)
  {
    SafeAndClean(r.threads);
    CoinbaseRuns.RunKeeps(r.config, r.start, r.history);
    var j := CoinbaseJournal.JournalOf(r.manager);
    assert CoinbaseJournal.Kept(j);
    PositionedIsOrdered(r.manager.tape);
  }

  lemma CleanStatusPasses(r: Runtime, connections: nat)
    requires Whole(r) && r.threads.joined
    ensures var s, n := r.threads.status, |r.threads.pipe.writer.file|;
            var m := Finalized(s, Scan(n, connections));
            && !IsRunning(s.state)
            && (m.status == Complete <==> s.fatal.None?)
            && (m.status == Complete ==> Passes(m, n))
  {
    SafeStates(r.threads);
    if r.threads.status.fatal.None? {
      SafeAndClean(r.threads);
      CleanLogIsAccepted(r);
      AgreeingStatusPasses(r.threads.status, connections);
    }
  }

  /** In every interleaving that ends with both threads joined, the session can be published; it is published as
      complete exactly when there was no fatal error, and then it passes all of replay's checks and the replay
      reproduces the live run, except where the run was never started or a heartbeat threw. */
  lemma PublishedSessionReplays(config: HealthConfig, start: int, limits: R.Limits, actions: seq<TimedAction>,
                                connections: nat)
    requires Reached(config, start, limits, actions).threads.joined
    ensures var r := Reached(config, start, limits, actions);
            var s, file := r.threads.status, r.threads.pipe.writer.file;
            var m := Finalized(s, Scan(|file|, connections));
            && !IsRunning(s.state)
            && (m.status == Complete <==> s.fatal.None?)
            && (m.status == Complete ==> Passes(m, |file|))
            && (m.status == Complete ==>
                  var replayed := CoinbaseReplay.Replayed(file, m.lifecycle);
                  (replayed.Some? && CoinbaseAgreement.Reproduces(replayed.value, r.manager)) <==>
                  (m.lifecycle != [] && !CoinbaseAgreement.EverThrows(config, start, r.history)))
  {
    ReachedIsWhole(config, start, limits, actions);
    CleanStatusPasses(Reached(config, start, limits, actions), connections);
    if Reached(config, start, limits, actions).threads.status.fatal.None? {
      CleanCaptureReplays(config, start, limits, actions);
    }
  }
}
