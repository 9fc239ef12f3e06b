/** The recording protocol between the market thread and the writer thread: the bounded queue of
    include/recording/raw_recording_queue.hpp and the writer loop of src/pipeline/runtime_status.cpp.
    Each action is one critical section; a run is any interleaving of actions. */
module Recording {
  import opened Base
  import opened Envelope

  // ----- The queue -----

  datatype Limits = Limits(messages: nat, bytes: nat)

  datatype Queue<+P> = Queue(messages: seq<Record<P>>, bytes: nat, closed: bool)

  function Total<P>(records: seq<Record<P>>): (n: nat)
  {
    if records == [] then 0 else records[0].size + Total(records[1..])
  }

  lemma {:induction false} TotalAppend<P>(records: seq<Record<P>>, r: Record<P>)
    ensures Total(records + [r]) == Total(records) + r.size
  {
    if records == [] {
      assert records + [r] == [r];
    } else {
      assert (records + [r])[1..] == records[1..] + [r];
      TotalAppend(records[1..], r);
    }
  }

  /** The byte counter is the sum of the queued payloads, within the limits. */
  predicate Held<P>(q: Queue<P>, limits: Limits)
  {
    q.bytes == Total(q.messages) <= limits.bytes && |q.messages| <= limits.messages
  }

  function Answer<P>(q: Queue<P>, limits: Limits, r: Record<P>): (a: PushResult)
  {
    if q.closed then Closed
    else if |q.messages| >= limits.messages || r.size > limits.bytes - q.bytes then Full
    else Accepted
  }

  function Pushed<P>(q: Queue<P>, limits: Limits, r: Record<P>): (s: Queue<P>)
  {
    if Answer(q, limits, r) == Accepted then q.(messages := q.messages + [r], bytes := q.bytes + r.size) else q
  }

  function Popped<P>(q: Queue<P>): (s: Queue<P>)
    requires q.messages != [] && q.messages[0].size <= q.bytes
  {
    q.(messages := q.messages[1..], bytes := q.bytes - q.messages[0].size)
  }

  lemma PushHeld<P>(q: Queue<P>, limits: Limits, r: Record<P>)
    requires Held(q, limits)
    ensures Held(Pushed(q, limits, r), limits)
  {
    TotalAppend(q.messages, r);
  }

  lemma PopHeld<P>(q: Queue<P>, limits: Limits)
    requires Held(q, limits) && q.messages != []
    ensures q.messages[0].size <= q.bytes && Held(Popped(q), limits)
  {}

  class RawRecordingQueue<P> {
    const maximumMessages: nat
    const maximumBytes: uint64
    var messages: seq<Record<P>>
    var bytes: uint64
    var closed: bool

    ghost function Bounds(): (l: Limits) { Limits(maximumMessages, maximumBytes as nat) }

    ghost function Value(): (q: Queue<P>)
      reads this
    {
      Queue(messages, bytes as nat, closed)
    }

    ghost predicate Valid()
      reads this
    {
      Held(Value(), Bounds())
    }

    constructor (maximumMessages: nat, maximumBytes: uint64)
      ensures Valid() && Value() == Queue([], 0, false)
      ensures this.maximumMessages == maximumMessages && this.maximumBytes == maximumBytes
    {
      this.maximumMessages, this.maximumBytes := maximumMessages, maximumBytes;
      messages, bytes, closed := [], 0, false;
    }

    /** The subtraction of 64-bit sizes cannot underflow, nor the addition overflow. */
    method TryPush(r: Record<P>) returns (a: PushResult)
      requires Valid()
      modifies this
      ensures Valid() && a == old(Answer(Value(), Bounds(), r))
      ensures Value() == old(Pushed(Value(), Bounds(), r))
    {
      PushHeld(Value(), Bounds(), r);
      if closed {
        return Closed;
      }
      if |messages| >= maximumMessages || r.size > (maximumBytes - bytes) as nat {
        return Full;
      }
      messages := messages + [r];
      bytes := bytes + r.size as uint64;
      a := Accepted;
    }

    /** Called once the condition waited for holds. */
    method WaitPop() returns (r: Option<Record<P>>)
      requires Valid() && (closed || messages != [])
      modifies this
      ensures Valid()
      ensures old(messages) == [] ==> r == None && Value() == old(Value())
      ensures old(messages) != [] ==>
                r == Some(old(messages)[0]) && messages == old(messages)[1..] && closed == old(closed)
    {
      if |messages| == 0 {
        return None;
      }
      PopHeld(Value(), Bounds());
      r := Some(messages[0]);
      bytes := bytes - messages[0].size as uint64;
      messages := messages[1..];
    }

    method Close()
      requires Valid()
      modifies this
      ensures Valid() && Value() == old(Value()).(closed := true)
    {
      closed := true;
    }
  }

  // ----- The pipeline -----

  /** Where the writer thread stands. Draining: the queue is closed and empty, the file is being closed. */
  datatype WriterPhase<+P> =
    | Opening | Waiting | Holding(record: Record<P>) | Draining
    | Failing(error: string) | Abandoning | Finishing | Finished

  /** lost is the record whose append failed. */
  datatype Writer<+P> = Writer(phase: WriterPhase<P>, file: seq<Record<P>>, lost: seq<Record<P>>, failed: bool)

  /** received counts the envelopes offered, processed the accepted ones that went through the book. */
  datatype Pipeline<+P> = Pipeline(
    limits: Limits, received: nat, accepted: seq<Record<P>>, processed: nat, queue: Queue<P>, writer: Writer<P>)

  function Idle<P>(limits: Limits): (p: Pipeline<P>)
  {
    Pipeline(limits, 0, [], 0, Queue([], 0, false), Writer(Opening, [], [], false))
  }

  datatype Action<+P> =
    | Offer(connection: nat, mono: int, size: nat, payload: P)
    | Process
    | Close
    | Open(ready: bool, error: string)
    | Pop
    | Append(appended: bool)
    | CloseFile(flushed: bool)
    | Report
    | Abandon
    | Finish

  const APPEND_ERROR: string := "raw recording write/flush failed at index "
  const CLOSE_ERROR: string := "raw recording final flush/close failed"

  function Offered<P>(p: Pipeline<P>, r: Record<P>): (q: Pipeline<P>)
  {
    p.(received := p.received + 1, queue := Pushed(p.queue, p.limits, r),
       accepted := if Answer(p.queue, p.limits, r) == Accepted then p.accepted + [r] else p.accepted)
  }

  /** An envelope is offered only after the one before it was accepted and processed. */
  predicate MayOffer<P>(p: Pipeline<P>) { p.received == |p.accepted| == p.processed }

  predicate MayPop<P>(p: Pipeline<P>)
  {
    && p.writer.phase.Waiting?
    && if p.queue.messages == [] then p.queue.closed else p.queue.messages[0].size <= p.queue.bytes
  }

  /** The writer checks the index and appends; both failures end in the same exception. */
  function Appended<P>(w: Writer<P>, r: Record<P>, ok: bool): (v: Writer<P>)
  {
    if r.index == |w.file| && ok then w.(phase := Waiting, file := w.file + [r])
    else w.(phase := Failing(APPEND_ERROR), lost := [r], failed := true)
  }

  function Shut<P>(p: Pipeline<P>): (q: Pipeline<P>) { p.(queue := p.queue.(closed := true)) }

  /** One action; an action that is not enabled changes nothing. */
  function Taken<P>(p: Pipeline<P>, a: Action<P>): (q: Pipeline<P>)
  {
    var w := p.writer;
    match a
    case Offer(connection, mono, size, payload) =>
      if MayOffer(p) then Offered(p, Record(p.received, connection, mono, size, payload)) else p
    case Process => p.(processed := |p.accepted|)
    case Close => Shut(p)
    case Open(ok, error) =>
      if w.phase.Opening?
      then p.(writer := if ok then w.(phase := Waiting) else w.(phase := Failing(error), failed := true))
      else p
    case Pop =>
      if !MayPop(p) then p
      else if p.queue.messages == [] then p.(writer := w.(phase := Draining))
      else p.(queue := Popped(p.queue), writer := w.(phase := Holding(p.queue.messages[0])))
    case Append(ok) => if w.phase.Holding? then p.(writer := Appended(w, w.phase.record, ok)) else p
    case CloseFile(ok) =>
      if w.phase.Draining?
      then p.(writer := if ok then w.(phase := Finishing) else w.(phase := Failing(CLOSE_ERROR), failed := true))
      else p
    case Report => if w.phase.Failing? then p.(writer := w.(phase := Abandoning)) else p
    case Abandon =>
      if w.phase.Abandoning? then p.(writer := w.(phase := Finishing), queue := p.queue.(closed := true)) else p
    case Finish => if w.phase.Finishing? then p.(writer := w.(phase := Finished)) else p
  }

  function Reached<P>(limits: Limits, actions: seq<Action<P>>): (p: Pipeline<P>)
  {
    if actions == [] then Idle(limits)
    else Taken(Reached(limits, actions[..|actions| - 1]), actions[|actions| - 1])
  }

  // ----- What every interleaving keeps -----

  function InHand<P>(w: Writer<P>): (r: seq<Record<P>>) { if w.phase.Holding? then [w.phase.record] else w.lost }

  /** Nothing is reordered or dropped: what was accepted is in the file, in the writer's hand or in the queue. */
  ghost predicate Flows<P>(p: Pipeline<P>)
  {
    p.accepted == p.writer.file + InHand(p.writer) + p.queue.messages && Numbered(p.accepted)
  }

  predicate Steady<P>(p: Pipeline<P>)
  {
    var w := p.writer;
    && p.processed <= |p.accepted| <= p.received
    && (w.phase.Opening? || w.phase.Waiting? || w.phase.Holding? || w.phase.Draining? ==> !w.failed)
    && (w.phase.Failing? || w.phase.Abandoning? ==> w.failed)
    && (!w.failed ==> |w.lost| == 0) && (w.phase.Opening? ==> |w.file| == 0)
    && (!w.failed && (w.phase.Draining? || w.phase.Finishing? || w.phase.Finished?) ==>
         p.queue.closed && |p.queue.messages| == 0)
    && (w.failed && (w.phase.Finishing? || w.phase.Finished?) ==> p.queue.closed)
  }

  ghost predicate Sound<P>(p: Pipeline<P>) { Held(p.queue, p.limits) && Flows(p) && Steady(p) }

  lemma IdleIsSound<P>(limits: Limits)
    ensures Sound<P>(Idle(limits))
  {}

  lemma OfferKeeps<P>(p: Pipeline<P>, r: Record<P>)
    requires Sound(p) && MayOffer(p) && r.index == p.received
    ensures Sound(Offered(p, r))
  {
    PushHeld(p.queue, p.limits, r);
    var q := Offered(p, r);
    if Answer(p.queue, p.limits, r) == Accepted {
      assert q.accepted == q.writer.file + InHand(q.writer) + q.queue.messages;
    }
  }

  lemma PopKeeps<P>(p: Pipeline<P>)
    requires Sound(p)
    ensures Sound(Taken(p, Pop))
  {
    if MayPop(p) && p.queue.messages != [] {
      PopHeld(p.queue, p.limits);
      var q := Taken(p, Pop);
      assert InHand(p.writer) == [];
      assert q.accepted == q.writer.file + InHand(q.writer) + q.queue.messages;
    }
  }

  /** The writer's index check cannot fail. */
  lemma NextIndexMatches<P>(p: Pipeline<P>)
    requires Sound(p) && p.writer.phase.Holding?
    ensures p.writer.phase.record.index == |p.writer.file|
  {
    assert p.accepted[|p.writer.file|] == p.writer.phase.record;
  }

  lemma AppendKeeps<P>(p: Pipeline<P>, ok: bool)
    requires Sound(p)
    ensures Sound(Taken(p, Append(ok)))
  {
    if p.writer.phase.Holding? {
      NextIndexMatches(p);
      var q := Taken(p, Append(ok));
      assert q.accepted == q.writer.file + InHand(q.writer) + q.queue.messages;
    }
  }

  lemma ActionKeeps<P>(p: Pipeline<P>, a: Action<P>)
    requires Sound(p)
    ensures Sound(Taken(p, a))
  {
    match a
    case Offer(connection, mono, size, payload) =>
      if MayOffer(p) {
        OfferKeeps(p, Record(p.received, connection, mono, size, payload));
      }
    case Pop => PopKeeps(p);
    case Append(ok) => AppendKeeps(p, ok);
    case _ =>
  }

  lemma {:induction false} ReachedIsSound<P>(limits: Limits, actions: seq<Action<P>>)
    ensures Sound(Reached(limits, actions))
  {
    if actions != [] {
      ReachedIsSound(limits, actions[..|actions| - 1]);
      ActionKeeps(Reached(limits, actions[..|actions| - 1]), actions[|actions| - 1]);
    }
  }

  /** In every interleaving: accepted indexes are 0..k-1, the file is a prefix of what was accepted, the record in
      the writer's hand has the file's next index, and the byte counter is exact and within its limit. */
  lemma RecordingIsFaithful<P>(limits: Limits, actions: seq<Action<P>>)
    ensures var p := Reached(limits, actions);
            && Numbered(p.accepted) && p.writer.file <= p.accepted
            && (p.writer.phase.Holding? ==> p.writer.phase.record.index == |p.writer.file|)
            && p.queue.bytes == Total(p.queue.messages) <= limits.bytes
  {
    ReachedIsSound(limits, actions);
    SoundIsFaithful(Reached(limits, actions));
    LimitsStay(limits, actions);
  }

  lemma {:induction false} LimitsStay<P>(limits: Limits, actions: seq<Action<P>>)
    ensures Reached(limits, actions).limits == limits
  {
    if actions != [] {
      LimitsStay(limits, actions[..|actions| - 1]);
    }
  }

  lemma SoundIsFaithful<P>(p: Pipeline<P>)
    requires Sound(p)
    ensures Numbered(p.accepted) && p.writer.file <= p.accepted
    ensures p.writer.phase.Holding? ==> p.writer.phase.record.index == |p.writer.file|
    ensures !p.writer.failed && p.writer.phase.Finished? ==> p.writer.file == p.accepted
  {
    if p.writer.phase.Holding? {
      NextIndexMatches(p);
    }
  }

  // ----- The reported range -----

  /** First and last index processed but not written, from the two last indexes. */
  function UnpersistedRange(processed: Option<nat>, written: Option<nat>): (range: Option<(nat, nat)>)
  {
    if processed.None? || (written.Some? && written.value >= processed.value) then None
    else Some((if written.Some? then written.value + 1 else 0, processed.value))
  }

  predicate Within(i: nat, range: Option<(nat, nat)>) { range.Some? && range.value.0 <= i <= range.value.1 }

  /** The file holds a record with index i. */
  ghost predicate Written<P>(p: Pipeline<P>, i: nat)
  {
    exists k :: 0 <= k < |p.writer.file| && p.writer.file[k].index == i
  }

  /** The reported range is exactly the processed records missing from the file; it is empty once a writer that
      did not fail has finished. */
  lemma RangeIsExact<P>(limits: Limits, actions: seq<Action<P>>, i: nat)
    ensures var p := Reached(limits, actions);
            var range := UnpersistedRange(LastOf(p.processed), LastOf(|p.writer.file|));
            && (Within(i, range) <==> i < p.processed && !Written(p, i))
            && (p.writer.phase.Finished? && !p.writer.failed ==> range == None)
  {
    var p := Reached(limits, actions);
    ReachedIsSound(limits, actions);
    SoundIsFaithful(p);
    if i < |p.writer.file| {
      assert p.writer.file[i] == p.accepted[i];
    }
  }
}
