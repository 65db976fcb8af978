/** Asynchronous event persistence: a bounded buffer, a batch writer with retries and put-back,
    and a circuit breaker, over an idempotent store (polytrader/events/sink.py). */
module EventSink {
  import opened Prelude
  import opened OrderModel
  import opened EventLog
  import opened SinkBreaker

  const MAX_RETRIES: nat := 5

  datatype Settings = Settings(batchSize: nat, maxBufferSize: nat, limits: Limits)
  {
    predicate Valid() {
      maxBufferSize >= 1 && limits.threshold >= 1 && limits.cooldown > 0.0
    }
  }

  /** What can happen to one append: a database error may strike before or after the event has
      been stored. */
  datatype AppendOutcome = Stored | RaisedBefore | RaisedAfter

  /** A batch being written: the event to append next and the number of failed attempts. */
  datatype Write = Write(batch: seq<Event>, position: nat, attempt: nat)

  /** The last four fields are history: events in order of arrival, events dropped by overflow,
      events of successfully written batches, and failure times since the last success. */
  datatype Sink = Sink(
    buffer: seq<Event>,
    writing: Option<Write>,
    breaker: Breaker,
    store: Log,
    clock: real,
    arrived: seq<Event>,
    dropped: seq<Event>,
    delivered: seq<Event>,
    failures: seq<real>)
  {
    function Batch(): seq<Event> {
      if writing.Some? then writing.value.batch else []
    }

    /** Everything that still waits to be written, oldest first. */
    function Pending(): seq<Event> {
      Batch() + buffer
    }
  }

  const IDLE := Sink([], None, FRESH, EMPTY_LOG, 0.0, [], [], [], [])

  /** What can happen between two awaits of any of the sink's tasks. */
  datatype Step =
    | Arrive(event: Event)
    | Flush
    | AppendNext(outcome: AppendOutcome)
    | Elapse(duration: real)

  function Buffered(s: Sink, c: Settings, e: Event): Sink {
    if |s.buffer| >= c.maxBufferSize && s.buffer != [] then
      s.(buffer := s.buffer[1..] + [e], arrived := s.arrived + [e], dropped := s.dropped + [s.buffer[0]])
    else
      s.(buffer := s.buffer + [e], arrived := s.arrived + [e])
  }

  function Delivered(s: Sink, store: Log, batch: seq<Event>): Sink {
    s.(
    writing := None,
    store := store,
    breaker := s.breaker.Succeed(),
    delivered := s.delivered + batch,
    failures := [])
  }

  function PutBack(s: Sink, c: Settings, store: Log, batch: seq<Event>): Sink {
    s.(
    writing := None,
    store := store,
    buffer := batch + s.buffer,
    breaker := s.breaker.Fail(c.limits, s.clock),
    failures := s.failures + [s.clock])
  }

  function BeginFlush(s: Sink, c: Settings): Sink {
    if s.buffer == [] then s
    else if !s.breaker.Allows(c.limits, s.clock) then s.(breaker := s.breaker.Poll(c.limits, s.clock))
    else
      var n := if c.batchSize < |s.buffer| then c.batchSize else |s.buffer|;
      var t := s.(buffer := s.buffer[n..], breaker := s.breaker.Poll(c.limits, s.clock));
      if n == 0 then Delivered(t, t.store, []) else t.(writing := Some(Write(s.buffer[..n], 0, 0)))
  }

  function AppendStep(s: Sink, c: Settings, outcome: AppendOutcome): Sink
    requires s.writing.Some? && s.writing.value.position < |s.writing.value.batch|
  {
    var w := s.writing.value;
    var store := if outcome == RaisedBefore then s.store else s.store.Append(w.batch[w.position]);
    if outcome == Stored then
      if w.position + 1 == |w.batch| then Delivered(s, store, w.batch)
      else s.(store := store, writing := Some(w.(position := w.position + 1)))
    else if w.attempt + 1 < MAX_RETRIES then
      s.(store := store, writing := Some(w.(position := 0, attempt := w.attempt + 1)))
    else PutBack(s, c, store, w.batch)
  }

  /** There is one flush task: it does not start a batch while one is being written. */
  function Next(s: Sink, c: Settings, step: Step): Sink {
    match step
    case Arrive(e) => Buffered(s, c, e)
    case Flush => if s.writing.Some? then s else BeginFlush(s, c)
    case AppendNext(outcome) =>
      if s.writing.Some? && s.writing.value.position < |s.writing.value.batch| then AppendStep(s, c, outcome) else s
    case Elapse(duration) => if duration < 0.0 then s else s.(clock := s.clock + duration)
  }

  function Run(c: Settings, steps: seq<Step>): Sink {
    if steps == [] then IDLE else Next(Run(c, steps[..|steps| - 1]), c, steps[|steps| - 1])
  }

  // ---- Order and exactly-once --------------------------------------------------------

  /** The first `k` waiting events are already in the store, left there by writes that failed
      later on; the store followed by the others is in arrival order. */
  ghost predicate InOrder(s: Sink, c: Settings, k: nat) {
    && s.store.Valid()
    && k <= |s.Pending()| && k <= c.batchSize
    && (s.writing.Some? ==>
          var w := s.writing.value;
          w.position <= k <= |w.batch| <= c.batchSize && w.position < |w.batch| && w.attempt < MAX_RETRIES)
    && (forall i :: 0 <= i < k ==> s.Pending()[i].stamp.id in s.store.ids)
    && Subsequence(s.store.events + s.Pending()[k..], s.arrived)
  }

  lemma QueueGrows(s: Sink, t: Sink, c: Settings, k: nat, queue: seq<Event>, e: Event)
    requires t == s.(buffer := t.buffer, arrived := s.arrived + [e], dropped := t.dropped)
    requires s.store.Valid() && k <= |t.Pending()| && k <= c.batchSize
    requires s.writing.Some? ==>
               var w := s.writing.value;
               w.position <= k <= |w.batch| <= c.batchSize && w.position < |w.batch| && w.attempt < MAX_RETRIES
    requires forall i :: 0 <= i < k ==> t.Pending()[i].stamp.id in s.store.ids
    requires Subsequence(queue, s.arrived) && t.store.events + t.Pending()[k..] == queue + [e]
    ensures InOrder(t, c, k)
  {
    SubsequenceSnoc(queue, s.arrived, e);
  }

  /** Dropping the oldest buffered event, which lies just behind the batch. */
  lemma DropInOrder(s: Sink, c: Settings, k: nat)
    requires InOrder(s, c, k) && s.buffer != [] && |s.Batch()| >= k
    ensures Subsequence(s.store.events + (s.Batch() + s.buffer[1..])[k..], s.arrived)
  {
    hide Subsequence;
    var queue := s.store.events + s.Pending()[k..];
    var m := |s.store.events| + |s.Batch()| - k;
    SubsequenceDrop(queue, m, s.arrived);
    assert queue[..m] + queue[m + 1..] == s.store.events + (s.Batch() + s.buffer[1..])[k..];
  }

  lemma ArriveWithRoom(s: Sink, c: Settings, k: nat, e: Event)
    requires InOrder(s, c, k)
    ensures InOrder(s.(buffer := s.buffer + [e], arrived := s.arrived + [e]), c, k)
  {
    hide Subsequence;
    var t := s.(buffer := s.buffer + [e], arrived := s.arrived + [e]);
    assert t.Pending() == s.Pending() + [e];
    assert t.store.events + t.Pending()[k..] == s.store.events + s.Pending()[k..] + [e];
    QueueGrows(s, t, c, k, s.store.events + s.Pending()[k..], e);
  }

  /** The dropped event is already persisted. */
  lemma ArriveDroppingPersisted(s: Sink, c: Settings, k: nat, e: Event)
    requires InOrder(s, c, k) && s.buffer != [] && |s.Batch()| < k
    ensures InOrder(s.(buffer := s.buffer[1..] + [e], arrived := s.arrived + [e],
                    dropped := s.dropped + [s.buffer[0]]), c, k - 1)
  {
    var t := s.(buffer := s.buffer[1..] + [e], arrived := s.arrived + [e], dropped := s.dropped + [s.buffer[0]]);
    hide Subsequence;
    assert s.Batch() == [];
    assert t.Pending() == s.Pending()[1..] + [e];
    assert t.store.events + t.Pending()[k - 1..] == s.store.events + s.Pending()[k..] + [e];
    forall i | 0 <= i < k - 1 ensures t.Pending()[i].stamp.id in s.store.ids {
      assert t.Pending()[i] == s.Pending()[i + 1];
    }
    QueueGrows(s, t, c, k - 1, s.store.events + s.Pending()[k..], e);
  }

  lemma SkipSnoc(stored: seq<Event>, waiting: seq<Event>, e: Event, k: nat)
    requires k <= |waiting|
    ensures stored + (waiting + [e])[k..] == stored + waiting[k..] + [e]
  {
    assert (waiting + [e])[k..] == waiting[k..] + [e];
  }

  lemma FrontStaysPersisted(s: Sink, rest: seq<Event>, k: nat)
    requires k <= |s.Batch()| && forall i :: 0 <= i < k ==> s.Pending()[i].stamp.id in s.store.ids
    ensures forall i :: 0 <= i < k ==> (s.Batch() + rest)[i].stamp.id in s.store.ids
  {
    forall i | 0 <= i < k ensures (s.Batch() + rest)[i].stamp.id in s.store.ids {
      assert (s.Batch() + rest)[i] == s.Pending()[i];
    }
  }

  /** The dropped event is lost. */
  lemma ArriveDroppingUnwritten(s: Sink, c: Settings, k: nat, e: Event)
    requires InOrder(s, c, k) && s.buffer != [] && |s.Batch()| >= k
    ensures InOrder(s.(buffer := s.buffer[1..] + [e], arrived := s.arrived + [e],
                    dropped := s.dropped + [s.buffer[0]]), c, k)
  {
    hide Subsequence;
    var t := s.(buffer := s.buffer[1..] + [e], arrived := s.arrived + [e], dropped := s.dropped + [s.buffer[0]]);
    DropInOrder(s, c, k);
    var waiting := s.Batch() + s.buffer[1..];
    assert t.Pending() == waiting + [e] && waiting + [e] == s.Batch() + (s.buffer[1..] + [e]);
    SkipSnoc(s.store.events, waiting, e, k);
    FrontStaysPersisted(s, s.buffer[1..] + [e], k);
    QueueGrows(s, t, c, k, s.store.events + waiting[k..], e);
  }

  lemma ArriveInOrder(s: Sink, c: Settings, k: nat, e: Event) returns (k': nat)
    requires InOrder(s, c, k)
    ensures InOrder(Buffered(s, c, e), c, k')
  {
    k' := k;
    if |s.buffer| < c.maxBufferSize || s.buffer == [] {
      ArriveWithRoom(s, c, k, e);
    } else if |s.Batch()| < k {
      ArriveDroppingPersisted(s, c, k, e);
      k' := k - 1;
    } else {
      ArriveDroppingUnwritten(s, c, k, e);
    }
  }

  lemma FlushInOrder(s: Sink, c: Settings, k: nat)
    requires InOrder(s, c, k) && s.writing.None?
    ensures InOrder(BeginFlush(s, c), c, k)
  {
    hide Subsequence;
    var t := BeginFlush(s, c);
    assert t.store == s.store && t.arrived == s.arrived;
    assert t.Pending() == s.Pending();
  }

  /** The store, the front of the waiting events and the mark after one append. */
  lemma StoreInOrder(s: Sink, c: Settings, k: nat) returns (k': nat)
    requires InOrder(s, c, k) && s.writing.Some?
    ensures k <= k' && s.writing.value.position < k' <= |s.writing.value.batch|
    ensures InOrder(s.(store := s.store.Append(s.writing.value.batch[s.writing.value.position])), c, k')
  {
    hide Subsequence;
    var w := s.writing.value;
    var e := w.batch[w.position];
    AppendKeepsLog(s.store, e);
    var t := s.(store := s.store.Append(e));
    if w.position < k {
      k' := k;
      assert s.Pending()[w.position] == e;
      assert t.store == s.store;
    } else {
      k' := k + 1;
      assert s.Pending()[k] == e;
      var queue := s.store.events + s.Pending()[k..];
      if e.stamp.id in s.store.ids {
        SubsequenceDrop(queue, |s.store.events|, s.arrived);
        assert s.store.events + s.Pending()[k'..] == queue[..|s.store.events|] + queue[|s.store.events| + 1..];
      } else {
        assert t.store.events + t.Pending()[k'..] == queue;
      }
    }
  }

  lemma AppendInOrder(s: Sink, c: Settings, k: nat, outcome: AppendOutcome) returns (k': nat)
    requires InOrder(s, c, k) && s.writing.Some?
    ensures InOrder(AppendStep(s, c, outcome), c, k')
    ensures outcome == Stored && s.writing.value.position + 1 == |s.writing.value.batch| ==>
              forall e :: e in s.writing.value.batch ==> e.stamp.id in AppendStep(s, c, outcome).store.ids
  {
    var w := s.writing.value;
    var t := AppendStep(s, c, outcome);
    var m := k;
    var u := s;
    if outcome != RaisedBefore {
      m := StoreInOrder(s, c, k);
      u := s.(store := s.store.Append(w.batch[w.position]));
    }
    if outcome == Stored && w.position + 1 == |w.batch| {
      assert m == |w.batch| && t.Pending() == u.Pending()[m..];
      assert forall i :: 0 <= i < |w.batch| ==> u.Pending()[i] == w.batch[i];
      k' := 0;
      assert t.Pending()[0..] == t.Pending();
    } else {
      assert t.Pending() == u.Pending();
      k' := m;
    }
  }

  lemma NextInOrder(s: Sink, c: Settings, k: nat, step: Step) returns (k': nat)
    requires InOrder(s, c, k)
    ensures InOrder(Next(s, c, step), c, k')
  {
    k' := k;
    match step {
      case Arrive(e) => k' := ArriveInOrder(s, c, k, e);
      case Flush =>
        if s.writing.None? {
          FlushInOrder(s, c, k);
        }
      case AppendNext(outcome) =>
        if s.writing.Some? {
          k' := AppendInOrder(s, c, k, outcome);
        }
      case Elapse(_) =>
    }
  }

  lemma {:induction false} RunInOrder(c: Settings, steps: seq<Step>) returns (k: nat)
    ensures InOrder(Run(c, steps), c, k)
  {
    if steps == [] {
      k := 0;
    } else {
      k := RunInOrder(c, steps[..|steps| - 1]);
      k := NextInOrder(Run(c, steps[..|steps| - 1]), c, k, steps[|steps| - 1]);
    }
  }

  /** Whatever arrives meanwhile and however writes fail, including after having stored the
      event: what is persisted is in arrival order and free of duplicates. */
  lemma PersistedInOrderOnce(c: Settings, steps: seq<Step>)
    ensures var s := Run(c, steps);
            && Subsequence(s.store.events, s.arrived)
            && (forall i, j :: 0 <= i < j < |s.store.events| ==>
                                 s.store.events[i].stamp.id != s.store.events[j].stamp.id)
  {
    var k := RunInOrder(c, steps);
    var s := Run(c, steps);
    SubsequencePrefix(s.store.events, s.Pending()[k..]);
    SubsequenceTrans(s.store.events, s.store.events + s.Pending()[k..], s.arrived);
  }

  // ---- Conservation ------------------------------------------------------------------

  ghost predicate Conserved(s: Sink) {
    && multiset(s.arrived) == multiset(s.delivered) + multiset(s.Batch()) + multiset(s.buffer) + multiset(s.dropped)
    && forall e :: e in s.delivered ==> e.stamp.id in s.store.ids
  }

  lemma DropAndAdd(buffer: seq<Event>, dropped: seq<Event>, e: Event)
    requires buffer != []
    ensures multiset(buffer[1..] + [e]) + multiset(dropped + [buffer[0]]) ==
            multiset(buffer) + multiset(dropped) + multiset{e}
  {
    assert buffer == [buffer[0]] + buffer[1..];
  }

  lemma Rearranged(d: multiset<Event>, w: multiset<Event>, b: multiset<Event>, x: multiset<Event>,
                   b': multiset<Event>, x': multiset<Event>, e: multiset<Event>)
    requires b' + x' == b + x + e
    ensures d + w + b' + x' == d + w + b + x + e
  {
    assert d + w + (b' + x') == d + w + b' + x';
  }

  lemma ArriveConserved(s: Sink, c: Settings, e: Event)
    requires Conserved(s)
    ensures Conserved(Buffered(s, c, e))
  {
    var t := Buffered(s, c, e);
    assert multiset(t.arrived) == multiset(s.arrived) + multiset{e};
    assert multiset(t.buffer) + multiset(t.dropped) == multiset(s.buffer) + multiset(s.dropped) + multiset{e} by {
      if t.dropped != s.dropped {
        DropAndAdd(s.buffer, s.dropped, e);
      }
    }
    Rearranged(multiset(s.delivered), multiset(s.Batch()), multiset(s.buffer), multiset(s.dropped),
               multiset(t.buffer), multiset(t.dropped), multiset{e});
  }

  lemma FlushConserved(s: Sink, c: Settings)
    requires Conserved(s) && s.writing.None?
    ensures Conserved(BeginFlush(s, c))
  {
    var t := BeginFlush(s, c);
    if t.writing.Some? {
      assert s.buffer == t.Batch() + t.buffer;
    } else {
      assert t.buffer == s.buffer && t.delivered == s.delivered;
    }
  }

  lemma StoreGrows(s: Sink, c: Settings, outcome: AppendOutcome)
    requires s.writing.Some? && s.writing.value.position < |s.writing.value.batch|
    ensures s.store.ids <= AppendStep(s, c, outcome).store.ids
  {
  }

  lemma BatchPutBack(batch: seq<Event>, buffer: seq<Event>)
    ensures multiset(batch + buffer) == multiset(batch) + multiset(buffer)
  {
  }

  lemma BatchStored(s: Sink, c: Settings, k: nat, outcome: AppendOutcome)
    requires InOrder(s, c, k) && s.writing.Some?
    ensures s.writing.value.position < |s.writing.value.batch|
    ensures AppendStep(s, c, outcome).delivered != s.delivered ==>
              && AppendStep(s, c, outcome).delivered == s.delivered + s.writing.value.batch
              && forall e :: e in s.writing.value.batch ==> e.stamp.id in AppendStep(s, c, outcome).store.ids
  {
    var w := s.writing.value;
    forall e | e in w.batch && outcome == Stored && w.position + 1 == |w.batch|
      ensures e.stamp.id in AppendStep(s, c, outcome).store.ids
    {
      var i :| 0 <= i < |w.batch| && w.batch[i] == e;
      assert i < k ==> s.Pending()[i] == e;
    }
  }

  lemma AppendConserved(s: Sink, c: Settings, k: nat, outcome: AppendOutcome)
    requires Conserved(s) && InOrder(s, c, k) && s.writing.Some?
    ensures Conserved(AppendStep(s, c, outcome))
  {
    BatchStored(s, c, k, outcome);
    hide InOrder, Log.Append, Breaker.Fail, Breaker.Succeed;
    StoreGrows(s, c, outcome);
    BatchPutBack(s.Batch(), s.buffer);
  }

  /** Every arrived event is accounted for exactly once: delivered, being written, buffered, or
      dropped by overflow; and every delivered event is in the store. */
  lemma {:induction false} RunConserves(c: Settings, steps: seq<Step>)
    ensures Conserved(Run(c, steps))
  {
    if steps != [] {
      var front, last := steps[..|steps| - 1], steps[|steps| - 1];
      var s := Run(c, front);
      RunConserves(c, front);
      match last {
        case Arrive(e) => ArriveConserved(s, c, e);
        case Flush =>
          if s.writing.None? {
            FlushConserved(s, c);
          }
        case AppendNext(outcome) =>
          if s.writing.Some? {
            var k := RunInOrder(c, front);
            AppendConserved(s, c, k, outcome);
          }
        case Elapse(_) =>
      }
    }
  }

  /** With event ids that arrive once, an arrived event is persisted itself, still waiting, or
      dropped. */
  lemma NothingLostSilently(c: Settings, steps: seq<Step>, e: Event)
    requires e in Run(c, steps).arrived
    requires forall x :: x in Run(c, steps).arrived && x.stamp.id == e.stamp.id ==> x == e
    ensures var s := Run(c, steps);
            e in s.store.events || e in s.Pending() || e in s.dropped
  {
    var s := Run(c, steps);
    RunConserves(c, steps);
    var k := RunInOrder(c, steps);
    assert e in multiset(s.arrived);
    if e in s.delivered {
      var x :| x in s.store.events && x.stamp.id == e.stamp.id;
      PersistedInOrderOnce(c, steps);
      SubsequenceMember(s.store.events, s.arrived, x);
    }
  }

  // ---- Memory ------------------------------------------------------------------------

  ghost predicate Bounded(s: Sink, c: Settings) {
    && |s.Batch()| <= c.batchSize
    && (s.writing.Some? ==> |s.buffer| <= c.maxBufferSize)
    && |s.buffer| <= c.maxBufferSize + c.batchSize
  }

  /** Buffered and in-flight events never exceed the buffer limit plus one batch; during a write
      the buffer alone respects its limit. */
  lemma {:induction false} RunBounded(c: Settings, steps: seq<Step>)
    requires c.maxBufferSize >= 1
    ensures Bounded(Run(c, steps), c)
    ensures |Run(c, steps).Pending()| <= c.maxBufferSize + c.batchSize
  {
    if steps != [] {
      RunBounded(c, steps[..|steps| - 1]);
    }
  }

  /** The step puts a batch back that no longer fits: its last attempt fails while more than the
      limit less the batch has come in. */
  predicate Overflows(s: Sink, c: Settings, step: Step) {
    && step.AppendNext? && step.outcome != Stored
    && s.writing.Some?
    && var w := s.writing.value;
    && w.position < |w.batch| && w.attempt + 1 >= MAX_RETRIES
    && |w.batch| + |s.buffer| > c.maxBufferSize
  }

  /** From a buffer within its limit exactly such a put-back leads to one beyond it. */
  lemma ExceedsIff(s: Sink, c: Settings, step: Step)
    requires c.maxBufferSize >= 1 && |s.buffer| <= c.maxBufferSize
    ensures |Next(s, c, step).buffer| <= c.maxBufferSize <==> !Overflows(s, c, step)
  {
  }

  lemma RunStep(c: Settings, steps: seq<Step>, n: nat)
    requires n < |steps|
    ensures Run(c, steps[..n + 1]) == Next(Run(c, steps[..n]), c, steps[n])
    ensures Run(c, steps[..0]) == IDLE
  {
    assert steps[..n + 1][..n] == steps[..n];
  }

  /** The buffer is within its limit after the first `n` steps. */
  predicate WithinLimit(c: Settings, steps: seq<Step>, n: int)
    requires 0 <= n <= |steps|
  {
    |Run(c, steps[..n]).buffer| <= c.maxBufferSize
  }

  predicate Fits(c: Settings, steps: seq<Step>, n: int)
    requires 0 <= n < |steps|
  {
    !Overflows(Run(c, steps[..n]), c, steps[n])
  }

  lemma {:induction false} WithinWhileFitting(c: Settings, steps: seq<Step>, n: nat)
    requires c.maxBufferSize >= 1 && n <= |steps|
    requires forall i :: 0 <= i < n ==> Fits(c, steps, i)
    ensures WithinLimit(c, steps, n)
  {
    if n > 0 {
      hide Run, Next, Overflows;
      WithinWhileFitting(c, steps, n - 1);
      RunStep(c, steps, n - 1);
      assert Fits(c, steps, n - 1);
      ExceedsIff(Run(c, steps[..n - 1]), c, steps[n - 1]);
    } else {
      assert steps[..0] == [];
    }
  }

  /** In a run the buffer is within its limit at every moment if and only if no step puts a batch
      back that does not fit. */
  lemma WithinLimitIff(c: Settings, steps: seq<Step>)
    requires c.maxBufferSize >= 1
    ensures (forall n :: 0 <= n <= |steps| ==> WithinLimit(c, steps, n)) <==>
            (forall n :: 0 <= n < |steps| ==> Fits(c, steps, n))
  {
    hide Run, Next, Overflows;
    if forall n :: 0 <= n <= |steps| ==> WithinLimit(c, steps, n) {
      forall n | 0 <= n < |steps| ensures Fits(c, steps, n) {
        assert WithinLimit(c, steps, n) && WithinLimit(c, steps, n + 1);
        RunStep(c, steps, n);
        ExceedsIff(Run(c, steps[..n]), c, steps[n]);
      }
    }
    if forall n :: 0 <= n < |steps| ==> Fits(c, steps, n) {
      forall n | 0 <= n <= |steps| ensures WithinLimit(c, steps, n) {
        WithinWhileFitting(c, steps, n);
      }
    }
  }

  lemma WriteWhileFull(c: Settings, steps: seq<Step>, a: Event, b: Event)
    requires c == Settings(1, 1, Limits(10, 300.0))
    requires |steps| >= 3 && steps[0] == Arrive(a) && steps[1] == Flush && steps[2] == Arrive(b)
    ensures Run(c, steps[..3]).buffer == [b] && Run(c, steps[..3]).writing == Some(Write([a], 0, 0))
  {
    hide Run;
    RunStep(c, steps, 0);
    assert Run(c, steps[..1]) == IDLE.(buffer := [a], arrived := [a]);
    RunStep(c, steps, 1);
    assert [a][..1] == [a] && [a][1..] == [];
    RunStep(c, steps, 2);
  }

  /** And such a step does occur: a run that leaves more events buffered than the configured
      maximum. */
  lemma PutBackExceedsLimit(a: Event, b: Event)
    ensures var c := Settings(1, 1, Limits(10, 300.0));
            var failing := AppendNext(RaisedBefore);
            |Run(c, [Arrive(a), Flush, Arrive(b), failing, failing, failing, failing, failing]).buffer| == 2
  {
    hide Run, BeginFlush;
    var c := Settings(1, 1, Limits(10, 300.0));
    var failing := AppendNext(RaisedBefore);
    var steps := [Arrive(a), Flush, Arrive(b), failing, failing, failing, failing, failing];
    WriteWhileFull(c, steps, a, b);
    for n := 3 to 7
      invariant Run(c, steps[..n]).buffer == [b] && Run(c, steps[..n]).writing == Some(Write([a], 0, n - 3))
    {
      RunStep(c, steps, n);
    }
    RunStep(c, steps, 7);
    assert Run(c, steps[..8]).buffer == [a] + [b];
    assert steps[..8] == steps;
  }

  // ---- Failure rate ------------------------------------------------------------------

  ghost predicate Guarded(s: Sink, c: Settings) {
    Tracks(s.breaker, c.limits, s.failures, s.clock) && (s.writing.Some? ==> s.breaker.state != Open)
  }

  lemma FlushGuarded(s: Sink, c: Settings)
    requires c.Valid() && Guarded(s, c) && s.writing.None?
    ensures Guarded(BeginFlush(s, c), c)
  {
    var b := s.breaker.Poll(c.limits, s.clock);
    PollTracks(s.breaker, c.limits, s.failures, s.clock);
    if s.breaker.Allows(c.limits, s.clock) {
      SucceedTracks(b, c.limits, s.failures, s.clock);
    }
  }

  lemma AppendGuarded(s: Sink, c: Settings, outcome: AppendOutcome)
    requires c.Valid() && Guarded(s, c) && s.writing.Some? && s.writing.value.position < |s.writing.value.batch|
    ensures Guarded(AppendStep(s, c, outcome), c)
  {
    FailTracks(s.breaker, c.limits, s.failures, s.clock);
    SucceedTracks(s.breaker, c.limits, s.failures, s.clock);
  }

  lemma ElapseGuarded(s: Sink, c: Settings, duration: real)
    requires Guarded(s, c) && duration >= 0.0
    ensures Guarded(s.(clock := s.clock + duration), c)
  {
  }

  lemma NextGuarded(s: Sink, c: Settings, step: Step)
    requires c.Valid() && Guarded(s, c)
    ensures Guarded(Next(s, c, step), c)
  {
    match step {
      case Flush =>
        if s.writing.None? {
          FlushGuarded(s, c);
        }
      case AppendNext(outcome) =>
        if s.writing.Some? && s.writing.value.position < |s.writing.value.batch| {
          AppendGuarded(s, c, outcome);
        }
      case Elapse(duration) =>
        if duration >= 0.0 {
          ElapseGuarded(s, c, duration);
        }
      case Arrive(_) =>
    }
  }

  lemma {:induction false} RunGuarded(c: Settings, steps: seq<Step>)
    requires c.Valid()
    ensures Guarded(Run(c, steps), c)
  {
    if steps != [] {
      RunGuarded(c, steps[..|steps| - 1]);
      NextGuarded(Run(c, steps[..|steps| - 1]), c, steps[|steps| - 1]);
    }
  }

  /** In every run, a closed breaker has counted exactly the failures since the last success, and
      without a success in between any period of the given length sees at most the threshold plus
      one failing flush per cooldown. */
  lemma FailingFlushRate(c: Settings, steps: seq<Step>, first: nat, last: nat, period: real)
    requires c.Valid()
    requires first <= last < |Run(c, steps).failures|
    requires Run(c, steps).failures[last] - Run(c, steps).failures[first] <= period
    ensures last - first + 1 <= c.limits.threshold + Cooldowns(period, c.limits.cooldown)
    ensures Run(c, steps).breaker.state == Closed ==>
              Run(c, steps).breaker.failureCount == |Run(c, steps).failures| < c.limits.threshold
  {
    RunGuarded(c, steps);
    var s := Run(c, steps);
    FailureRate(s.breaker, c.limits, s.failures, s.clock, first, last, period);
  }

  // ---- When batches are written --------------------------------------------------------

  /** The breaker lets a flush through: fewer failures since the last success than the threshold,
      or a cooldown has passed since the last one. */
  predicate MayWrite(s: Sink, c: Settings) {
    || |s.failures| < c.limits.threshold
    || (s.failures != [] && s.clock >= s.failures[|s.failures| - 1] + c.limits.cooldown)
  }

  /** In every run a flush of a nonempty buffer starts a write if and only if the breaker may let it
      through, and then takes the oldest events, as many as fit into a batch; otherwise events stay
      where they are. */
  lemma FlushStartsIff(c: Settings, steps: seq<Step>)
    requires c.Valid() && c.batchSize >= 1
    requires Run(c, steps).buffer != [] && Run(c, steps).writing.None?
    ensures var s := Run(c, steps);
            var t := Next(s, c, Flush);
            var n := if c.batchSize < |s.buffer| then c.batchSize else |s.buffer|;
            && (t.writing.Some? <==> MayWrite(s, c))
            && (MayWrite(s, c) ==> t.writing == Some(Write(s.buffer[..n], 0, 0)) && t.buffer == s.buffer[n..])
            && (!MayWrite(s, c) ==> t.writing.None? && t.buffer == s.buffer)
            && t.store == s.store && t.dropped == s.dropped && t.delivered == s.delivered
  {
    RunGuarded(c, steps);
    var s := Run(c, steps);
    AllowsIff(s.breaker, c.limits, s.failures, s.clock);
  }

  function Appends(s: Sink, c: Settings, outcome: AppendOutcome, n: nat): Sink {
    if n == 0 then s else Next(Appends(s, c, outcome, n - 1), c, AppendNext(outcome))
  }

  ghost predicate AllIn(es: seq<Event>, l: Log) {
    forall e :: e in es ==> e.stamp.id in l.ids
  }

  lemma AppendedStays(l: Log, e: Event, es: seq<Event>)
    ensures e.stamp.id in l.Append(e).ids
    ensures AllIn(es, l) ==> AllIn(es + [e], l.Append(e))
  {
  }

  lemma {:induction false} WriteAdvances(s: Sink, c: Settings, n: nat)
    requires s.writing.Some? && s.writing.value.position == 0 && n < |s.writing.value.batch|
    ensures var w := s.writing.value;
            var t := Appends(s, c, Stored, n);
            t == s.(store := t.store, writing := Some(w.(position := n))) && AllIn(w.batch[..n], t.store)
  {
    if n > 0 {
      WriteAdvances(s, c, n - 1);
      var w := s.writing.value;
      AppendedStays(Appends(s, c, Stored, n - 1).store, w.batch[n - 1], w.batch[..n - 1]);
      assert w.batch[..n] == w.batch[..n - 1] + [w.batch[n - 1]];
    }
  }

  /** An attempt without a database error delivers the batch: all its events are in the store, the
      failures are forgotten, and a breaker that let it through is closed. */
  lemma CleanAttemptDelivers(s: Sink, c: Settings)
    requires s.writing.Some? && s.writing.value.position == 0 && s.writing.value.batch != []
    ensures var w := s.writing.value;
            var t := Appends(s, c, Stored, |w.batch|);
            && t.writing.None? && t.buffer == s.buffer && t.delivered == s.delivered + w.batch && t.failures == []
            && AllIn(w.batch, t.store)
            && (s.breaker.state != Open ==> t.breaker.state == Closed && t.breaker.failureCount == 0)
  {
    var w := s.writing.value;
    var n := |w.batch| - 1;
    WriteAdvances(s, c, n);
    AppendedStays(Appends(s, c, Stored, n).store, w.batch[n], w.batch[..n]);
    assert w.batch == w.batch[..n] + [w.batch[n]];
  }

  /** A database error starts the batch over; the fifth one puts it back in front of the buffer and
      counts as one failure. */
  lemma ErrorsPutBack(s: Sink, c: Settings, outcome: AppendOutcome)
    requires s.writing.Some? && outcome != Stored && s.writing.value.position < |s.writing.value.batch|
    ensures var w, t := s.writing.value, Next(s, c, AppendNext(outcome));
            && t.delivered == s.delivered && t.dropped == s.dropped
            && (w.attempt < 4 ==>
                  t.writing == Some(Write(w.batch, 0, w.attempt + 1)) && t.buffer == s.buffer
                  && t.failures == s.failures)
            && (w.attempt >= 4 ==>
                  t.writing.None? && t.buffer == w.batch + s.buffer && t.failures == s.failures + [s.clock])
  {
  }

  lemma {:induction false} RunThenAppends(c: Settings, steps: seq<Step>, outcome: AppendOutcome, n: nat)
    ensures Run(c, steps + seq(n, i => AppendNext(outcome))) == Appends(Run(c, steps), c, outcome, n)
  {
    if n == 0 {
      assert steps + seq(n, i => AppendNext(outcome)) == steps;
    } else {
      var longer := steps + seq(n, i => AppendNext(outcome));
      RunThenAppends(c, steps, outcome, n - 1);
      assert longer[..|longer| - 1] == steps + seq(n - 1, i => AppendNext(outcome));
    }
  }

  /** Recovery: whatever has failed before, once a cooldown has passed and the database answers
      again, the next flush persists the oldest waiting events and closes the breaker. */
  lemma RecoversAfterCooldown(c: Settings, steps: seq<Step>)
    requires c.Valid() && c.batchSize >= 1
    requires Run(c, steps).buffer != [] && Run(c, steps).writing.None?
    ensures var s := Run(c, steps);
            var n := if c.batchSize < |s.buffer| then c.batchSize else |s.buffer|;
            var t := Run(c, steps + [Elapse(c.limits.cooldown)] + [Flush] + seq(n, i => AppendNext(Stored)));
            && AllIn(s.buffer[..n], t.store) && t.buffer == s.buffer[n..] && t.writing.None?
            && t.breaker.state == Closed && t.failures == []
  {
    hide Run, Next;
    var s := Run(c, steps);
    var n := if c.batchSize < |s.buffer| then c.batchSize else |s.buffer|;
    var waited := steps + [Elapse(c.limits.cooldown)];
    RunSnoc(c, steps, Elapse(c.limits.cooldown));
    RunSnoc(c, waited, Flush);
    Waited(c, steps);
    FlushStartsIff(c, waited);
    RunGuarded(c, waited + [Flush]);
    RunThenAppends(c, waited + [Flush], Stored, n);
    CleanAttemptDelivers(Run(c, waited + [Flush]), c);
  }

  lemma RunSnoc(c: Settings, steps: seq<Step>, step: Step)
    ensures Run(c, steps + [step]) == Next(Run(c, steps), c, step)
  {
    assert (steps + [step])[..|steps|] == steps;
  }

  lemma Waited(c: Settings, steps: seq<Step>)
    requires c.Valid()
    ensures var s, t := Run(c, steps), Next(Run(c, steps), c, Elapse(c.limits.cooldown));
            && t.buffer == s.buffer && t.writing == s.writing && t.store == s.store && MayWrite(t, c)
  {
    RunGuarded(c, steps);
  }

  // ---- The object --------------------------------------------------------------------

  /** Appending until the batch is settled, the outcomes being those of `oracle` from `i` on. */
  function Drive(s: Sink, c: Settings, oracle: nat -> AppendOutcome, i: nat): Sink
    decreases if s.writing.Some? && s.writing.value.attempt < MAX_RETRIES then MAX_RETRIES - s.writing.value.attempt
              else 0,
              if s.writing.Some? && s.writing.value.position < |s.writing.value.batch|
              then |s.writing.value.batch| - s.writing.value.position else 0
  {
    if s.writing.Some? && s.writing.value.position < |s.writing.value.batch| && s.writing.value.attempt < MAX_RETRIES
    then Drive(AppendStep(s, c, oracle(i)), c, oracle, i + 1)
    else s
  }

  class EventSink {
    const store: MemoryEventStore
    const circuitBreaker: SimpleCircuitBreaker
    const settings: Settings
    var buffer: seq<Event>
    ghost var clock: real
    ghost var arrived: seq<Event>
    ghost var dropped: seq<Event>
    ghost var delivered: seq<Event>
    ghost var failures: seq<real>

    ghost function View(): Sink
      reads this, store, circuitBreaker
    {
      Sink(buffer, None, circuitBreaker.View(), store.View(), clock, arrived, dropped, delivered, failures)
    }

    ghost predicate Valid() {
      circuitBreaker.limits == settings.limits && settings.Valid()
    }

    constructor (store: MemoryEventStore, settings: Settings)
      requires settings.Valid() && store.View() == EMPTY_LOG
      ensures Valid() && this.store == store && this.settings == settings && View() == IDLE
    {
      this.store := store;
      this.settings := settings;
      circuitBreaker := new SimpleCircuitBreaker(settings.limits);
      buffer := [];
      clock, arrived, dropped, delivered, failures := 0.0, [], [], [], [];
    }

    method AddToBuffer(e: Event)
      requires Valid()
      modifies this
      ensures View() == Next(old(View()), settings, Arrive(e))
    {
      if |buffer| >= settings.maxBufferSize {
        dropped := dropped + [buffer[0]];
        buffer := buffer[1..];
      }
      buffer := buffer + [e];
      arrived := arrived + [e];
    }

    /** A flush without interleaved arrivals, begun at `now` and settled at `end`: the flush step
        followed by append steps until the batch is settled. */
    method FlushBatch(now: real, end: real, oracle: nat -> AppendOutcome)
      requires Valid() && clock <= now <= end
      modifies this, store, circuitBreaker
      ensures View() ==
              Drive(Next(old(View()).(clock := now), settings, Flush).(clock := end), settings, oracle, 0)
    {
      ghost var begun := BeginFlush(View().(clock := now), settings).(clock := end);
      clock := end;
      if buffer == [] {
        return;
      }
      var allowed := circuitBreaker.AllowRequest(now);
      if !allowed {
        return;
      }
      var n := if settings.batchSize < |buffer| then settings.batchSize else |buffer|;
      var batch := buffer[..n];
      buffer := buffer[n..];
      var success := WriteBatchWithRetry(batch, oracle, begun);
      if success {
        circuitBreaker.RecordSuccess();
        delivered := delivered + batch;
        failures := [];
      } else {
        circuitBreaker.RecordFailure(end);
        failures := failures + [end];
        buffer := batch + buffer;
      }
    }

    method WriteBatchWithRetry(batch: seq<Event>, oracle: nat -> AppendOutcome, ghost s: Sink) returns (success: bool)
      requires batch != [] ==> s.writing == Some(Write(batch, 0, 0)) && s.store == store.View()
      modifies store
      ensures batch == [] ==> success && store.View() == old(store.View())
      ensures batch != [] ==>
                Drive(s, settings, oracle, 0) ==
                if success then Delivered(s, store.View(), batch) else PutBack(s, settings, store.View(), batch)
    {
      hide Log.Append, Breaker.Succeed, Breaker.Fail;
      var calls: nat := 0;
      ghost var g := s;
      for attempt := 0 to MAX_RETRIES
        modifies store
        invariant batch == [] ==> attempt == 0 && store.View() == old(store.View())
        invariant batch != [] ==>
            g == s.(store := store.View(), writing := Some(Write(batch, 0, attempt))) || attempt == MAX_RETRIES
        invariant batch != [] && attempt == MAX_RETRIES ==> g == PutBack(s, settings, store.View(), batch)
        invariant batch != [] ==> Drive(s, settings, oracle, 0) == Drive(g, settings, oracle, calls)
      {
        var raised := false;
        var position := 0;
        while position < |batch| && !raised
          modifies store
          invariant 0 <= position <= |batch|
          invariant batch == [] ==> !raised && store.View() == old(store.View())
          invariant batch != [] ==> Drive(s, settings, oracle, 0) == Drive(g, settings, oracle, calls)
          invariant batch != [] && !raised && position < |batch| ==>
                      g == s.(store := store.View(), writing := Some(Write(batch, position, attempt)))
          invariant batch != [] && !raised && position == |batch| ==> g == Delivered(s, store.View(), batch)
          invariant raised && attempt + 1 < MAX_RETRIES ==>
                      g == s.(store := store.View(), writing := Some(Write(batch, 0, attempt + 1)))
          invariant raised && attempt + 1 == MAX_RETRIES ==> g == PutBack(s, settings, store.View(), batch)
          decreases |batch| - position, if raised then 0 else 1
        {
          var outcome := oracle(calls);
          g := AppendStep(g, settings, outcome);
          calls := calls + 1;
          if outcome != RaisedBefore {
            store.Append(batch[position]);
          }
          if outcome == Stored {
            position := position + 1;
          } else {
            raised := true;
          }
        }
        if !raised {
          return true;
        }
      }
      return false;
    }
  }
}
