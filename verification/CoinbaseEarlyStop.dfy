/** A stop that is requested before the manager starts: the session is complete, and its replay ends in another
    state. */
module CoinbaseEarlyStop {
  import opened Base
  import opened RuntimeStatus
  import opened Sessions
  import opened CoinbaseManager
  import opened CoinbaseRuntime
  import opened CoinbaseSchedules
  import CoinbaseSession
  import CoinbaseReplay
  import Market

  /** The market thread finds the stop request and closes the queue; the manager was not running. */
  lemma FindsRequest(u: Setup) returns (s: seq<TimedAction>, t: Threads)
    ensures StandsAt(u, s, Init(u.config, u.now), [Timed(Stop, u.now)], t) && WindingDown(t)
    ensures t.pipe.writer == Up(u).pipe.writer && t.status == NEW_STATUS
  {
    var m := Init(u.config, u.now);
    s := ComesUp(u);
    t := Halted(Up(u), DeskOf(m)).(phase := Looping);
    s := Acts(u, s, m, [], Up(u), Begin(true), Stop, m, t);
  }

  /** There is an interleaving whose session is published as complete, passes every check of replay, and replays to a
      book that is Initializing where the live one was Disconnected. */
  lemma CompleteSessionCanDiffer(u: Setup) returns (s: seq<TimedAction>)
    ensures var r := At(u, s);
            var m := Finalized(r.threads.status, Scan(0, 0));
            && r.threads.joined && r.threads.pipe.writer.file == [] && m.status == Complete && Passes(m, 0)
            && r.manager.State() == Market.Disconnected
            && CoinbaseReplay.Replayed([], m.lifecycle) == Some(CoinbaseReplay.Initial(false))
            && CoinbaseReplay.Initial(false).feed.book.state == Market.Initializing
  {
    var t, v;
    s, t := FindsRequest(u);
    s, v := WindsDown(u, s, Init(u.config, u.now), [Timed(Stop, u.now)], t);
    CoinbaseSession.PublishedSessionReplays(u.config, u.now, u.limits, s, 0);
  }
}
