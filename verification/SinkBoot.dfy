/** From the bus through the event sink to a boot from what was persisted
    (polytrader/events/sink.py, polytrader/ops/replay.py). */
module SinkBoot {
  import opened Prelude
  import opened OrderModel
  import opened EventLog
  import opened OrderStore
  import opened OmsCore
  import opened OmsRuns
  import opened ReplayEqualsLive
  import opened Reconstruction
  import opened BootRestore
  import EventSink

  /** Everything published so far, what each topic's queue still holds for the sink, and the steps
      the sink has taken. */
  datatype Feed = Feed(published: seq<Event>, queues: map<Topic, seq<Event>>, steps: seq<EventSink.Step>)
  {
    function Queue(t: Topic): seq<Event> {
      if t in queues then queues[t] else []
    }

    function Sink(c: EventSink.Settings): EventSink.Sink {
      EventSink.Run(c, steps)
    }
  }

  const SILENCE := Feed([], map[], [])

  /** Order events have a topic for each type; the sink takes from any queue, and works on its
      buffer, whenever it gets the turn. */
  datatype FeedStep =
    | Emit(topic: Topic, event: Event)
    | Consume(topic: Topic)
    | Work(step: EventSink.Step)

  function Advance(f: Feed, step: FeedStep): Feed {
    match step
    case Emit(topic, e) =>
      var t := if e.IsOrderEvent() then TopicOf(e) else topic;
      f.(published := f.published + [e], queues := f.queues[t := f.Queue(t) + [e]])
    case Consume(t) =>
      var q := f.Queue(t);
      if q == [] then f else f.(queues := f.queues[t := q[1..]], steps := f.steps + [EventSink.Arrive(q[0])])
    case Work(s) => if s.Arrive? then f else f.(steps := f.steps + [s])
  }

  function Fed(steps: seq<FeedStep>): Feed {
    if steps == [] then SILENCE else Advance(Fed(steps[..|steps| - 1]), steps[|steps| - 1])
  }

  function TopicOfKind(k: Kind): Topic {
    match k
    case CreatedKind => OrderCreatedTopic
    case SubmittedKind => OrderSubmittedTopic
    case AckKind => OrderAcksTopic
    case RejectedKind => OrderRejectsTopic
    case FillKind => FillsTopic
    case CanceledKind => OrderCancelsTopic
    case CancelRequestedKind => CancelRequestedTopic
    case OtherKind => SystemLifecycleTopic
  }

  function Arrivals(steps: seq<EventSink.Step>): seq<Event> {
    if steps == [] then []
    else
      var last := steps[|steps| - 1];
      Arrivals(steps[..|steps| - 1]) + if last.Arrive? then [last.event] else []
  }

  lemma ArrivalsSnoc(steps: seq<EventSink.Step>, step: EventSink.Step)
    ensures Arrivals(steps + [step]) == Arrivals(steps) + if step.Arrive? then [step.event] else []
  {
    assert (steps + [step])[..|steps|] == steps;
  }

  lemma {:induction false} ArrivedAre(c: EventSink.Settings, steps: seq<EventSink.Step>)
    ensures EventSink.Run(c, steps).arrived == Arrivals(steps)
  {
    if steps != [] {
      ArrivedAre(c, steps[..|steps| - 1]);
    }
  }

  /** What was published of one type of order event is what has arrived of it, followed by what
      waits in its queue. */
  ghost predicate InTransit(f: Feed, k: Kind) {
    Filter(f.published, OfKind(k)) == Filter(Arrivals(f.steps), OfKind(k)) + Filter(f.Queue(TopicOfKind(k)), OfKind(k))
  }

  /** Only the queue of its type holds order events of a type. */
  ghost predicate QueuesByTopic(f: Feed) {
    forall t :: t in f.queues ==> forall e :: e in f.queues[t] && e.IsOrderEvent() ==> TopicOf(e) == t
  }

  lemma TopicOfEvent(e: Event, m: nat)
    requires m < |ORDER_EVENT_KINDS| && KindOf(e) == ORDER_EVENT_KINDS[m]
    ensures e.IsOrderEvent() && TopicOf(e) == TopicOfKind(ORDER_EVENT_KINDS[m])
  {
    KindAtRank(KindOf(e), m);
  }

  lemma EmitInTransit(f: Feed, topic: Topic, e: Event, m: nat)
    requires m < |ORDER_EVENT_KINDS| && InTransit(f, ORDER_EVENT_KINDS[m])
    ensures InTransit(Advance(f, Emit(topic, e)), ORDER_EVENT_KINDS[m])
  {
    hide Filter, Arrivals, TopicOf, TopicOfKind;
    var k := ORDER_EVENT_KINDS[m];
    var arrived, queue := Filter(Arrivals(f.steps), OfKind(k)), f.Queue(TopicOfKind(k));
    FilterAppend(f.published, e, OfKind(k));
    FilterAppend(queue, e, OfKind(k));
    if KindOf(e) == k {
      TopicOfEvent(e, m);
      assert arrived + (Filter(queue, OfKind(k)) + [e]) == arrived + Filter(queue, OfKind(k)) + [e];
    }
  }

  lemma HeadMoves(arrived: seq<Event>, queue: seq<Event>, p: Event -> bool)
    requires queue != []
    ensures Filter(arrived + [queue[0]], p) + Filter(queue[1..], p) == Filter(arrived, p) + Filter(queue, p)
  {
    hide Filter;
    FilterConcat(arrived, queue, p);
    FilterConcat(arrived + [queue[0]], queue[1..], p);
    assert arrived + [queue[0]] + queue[1..] == arrived + queue;
  }

  lemma ConsumeInTransit(f: Feed, t: Topic, m: nat)
    requires m < |ORDER_EVENT_KINDS| && InTransit(f, ORDER_EVENT_KINDS[m]) && QueuesByTopic(f) && f.Queue(t) != []
    ensures InTransit(Advance(f, Consume(t)), ORDER_EVENT_KINDS[m])
  {
    hide Filter, Arrivals, TopicOf, TopicOfKind;
    var k := ORDER_EVENT_KINDS[m];
    var e := f.Queue(t)[0];
    ArrivalsSnoc(f.steps, EventSink.Arrive(e));
    if t == TopicOfKind(k) {
      HeadMoves(Arrivals(f.steps), f.Queue(t), OfKind(k));
    } else {
      assert e in f.queues[t];
      if KindOf(e) == k {
        TopicOfEvent(e, m);
        assert false;
      }
      FilterAppend(Arrivals(f.steps), e, OfKind(k));
    }
  }

  lemma AdvanceQueuesByTopic(f: Feed, step: FeedStep)
    requires QueuesByTopic(f)
    ensures QueuesByTopic(Advance(f, step))
  {
  }

  lemma AdvanceInTransit(f: Feed, step: FeedStep, m: nat)
    requires m < |ORDER_EVENT_KINDS| && InTransit(f, ORDER_EVENT_KINDS[m]) && QueuesByTopic(f)
    ensures InTransit(Advance(f, step), ORDER_EVENT_KINDS[m])
  {
    hide Filter;
    match step {
      case Emit(topic, e) => EmitInTransit(f, topic, e, m);
      case Consume(t) =>
        if f.Queue(t) != [] {
          ConsumeInTransit(f, t, m);
        }
      case Work(s) =>
        ArrivalsSnoc(f.steps, s);
        assert Arrivals(f.steps) + [] == Arrivals(f.steps);
    }
  }

  lemma SilentInTransit(k: Kind)
    ensures QueuesByTopic(SILENCE) && InTransit(SILENCE, k)
  {
    var nothing: seq<Event> := [];
    assert nothing + nothing == nothing && Filter(nothing, OfKind(k)) == nothing;
    assert Arrivals([]) == nothing;
  }

  /** However publications, consumption of the queues and the sink's own work interleave, the order
      events of each type arrive in the order in which they were published. */
  lemma {:induction false} ArriveByType(steps: seq<FeedStep>, m: nat)
    requires m < |ORDER_EVENT_KINDS|
    ensures QueuesByTopic(Fed(steps)) && InTransit(Fed(steps), ORDER_EVENT_KINDS[m])
  {
    if steps == [] {
      SilentInTransit(ORDER_EVENT_KINDS[m]);
    } else {
      hide InTransit, Advance, QueuesByTopic;
      ArriveByType(steps[..|steps| - 1], m);
      AdvanceQueuesByTopic(Fed(steps[..|steps| - 1]), steps[|steps| - 1]);
      AdvanceInTransit(Fed(steps[..|steps| - 1]), steps[|steps| - 1], m);
    }
  }

  // ---- What is persisted, once everything is ---------------------------------------------

  ghost predicate DistinctIds(es: seq<Event>) {
    forall i, j :: 0 <= i < j < |es| ==> es[i].stamp.id != es[j].stamp.id
  }

  lemma SameId(es: seq<Event>, x: Event, y: Event)
    requires DistinctIds(es) && x in es && y in es && x.stamp.id == y.stamp.id
    ensures x == y
  {
    var i :| 0 <= i < |es| && es[i] == x;
    var j :| 0 <= j < |es| && es[j] == y;
    assert !(i < j) && !(j < i);
  }

  lemma LastOnce(es: seq<Event>)
    requires DistinctIds(es) && es != []
    ensures DistinctIds(es[..|es| - 1]) && es[|es| - 1] !in es[..|es| - 1]
  {
  }

  lemma {:induction false} FullSubsequence(xs: seq<Event>, ys: seq<Event>)
    requires Subsequence(xs, ys) && DistinctIds(ys) && forall y :: y in ys ==> y in xs
    ensures xs == ys
  {
    if ys != [] {
      hide Subsequence, DistinctIds;
      var front, last := ys[..|ys| - 1], ys[|ys| - 1];
      LastOnce(ys);
      assert last in ys && last in xs;
      SubsequenceLast(xs, ys);
      if Subsequence(xs, front) {
        SubsequenceMember(xs, front, last);
        assert false;
      } else {
        forall y | y in front ensures y in xs[..|xs| - 1] {
          assert y in ys && y in xs;
          assert xs == xs[..|xs| - 1] + [last];
        }
        FullSubsequence(xs[..|xs| - 1], front);
        assert xs == xs[..|xs| - 1] + [last] && ys == front + [last];
      }
    }
  }

  /** With nothing waiting and nothing dropped, the sink has persisted what arrived, in order. */
  lemma PersistedAll(c: EventSink.Settings, steps: seq<EventSink.Step>)
    requires DistinctIds(Arrivals(steps))
    requires EventSink.Run(c, steps).Pending() == [] && EventSink.Run(c, steps).dropped == []
    ensures EventSink.Run(c, steps).store.events == Arrivals(steps)
  {
    var s := EventSink.Run(c, steps);
    ArrivedAre(c, steps);
    EventSink.PersistedInOrderOnce(c, steps);
    forall e | e in s.arrived ensures e in s.store.events {
      forall x | x in s.arrived && x.stamp.id == e.stamp.id ensures x == e {
        SameId(s.arrived, x, e);
      }
      EventSink.NothingLostSilently(c, steps, e);
    }
    FullSubsequence(s.store.events, s.arrived);
  }

  /** Boot is given the same events by two logs that agree type by type. */
  lemma {:induction false} CollectedByType(es: seq<Event>, fs: seq<Event>, n: nat)
    requires n <= |ORDER_EVENT_KINDS|
    requires forall m :: 0 <= m < |ORDER_EVENT_KINDS| ==>
                           Filter(es, OfKind(ORDER_EVENT_KINDS[m])) == Filter(fs, OfKind(ORDER_EVENT_KINDS[m]))
    ensures Collected(es, n) == Collected(fs, n)
  {
    if n > 0 {
      CollectedByType(es, fs, n - 1);
      assert Filter(es, OfKind(ORDER_EVENT_KINDS[n - 1])) == Filter(fs, OfKind(ORDER_EVENT_KINDS[n - 1]));
    }
  }

  /** Everything published has been taken from the queues, and nothing waits or was dropped. */
  ghost predicate Settled(c: EventSink.Settings, f: Feed) {
    && (forall m :: 0 <= m < |ORDER_EVENT_KINDS| ==> f.Queue(TopicOfKind(ORDER_EVENT_KINDS[m])) == [])
    && f.Sink(c).Pending() == [] && f.Sink(c).dropped == []
  }

  /** The sink empties its queues in any order, so it may persist a fill ahead of the ack published
      before it; all the same, once everything is persisted, boot is given what it would be given
      from a log of all that was published. */
  lemma PersistedBoots(c: EventSink.Settings, steps: seq<FeedStep>)
    requires Settled(c, Fed(steps)) && DistinctIds(Arrivals(Fed(steps).steps))
    ensures Gathered(Fed(steps).Sink(c).store.events) == Gathered(Fed(steps).published)
  {
    hide Fed, Filter, Arrivals, Collected, DistinctIds, EventSink.Run;
    var f := Fed(steps);
    PersistedAll(c, f.steps);
    forall m | 0 <= m < |ORDER_EVENT_KINDS|
      ensures Filter(Arrivals(f.steps), OfKind(ORDER_EVENT_KINDS[m])) ==
              Filter(f.published, OfKind(ORDER_EVENT_KINDS[m]))
    {
      var k := ORDER_EVENT_KINDS[m];
      ArriveByType(steps, m);
      FilterNone([], OfKind(k));
      assert Filter(Arrivals(f.steps), OfKind(k)) + [] == Filter(Arrivals(f.steps), OfKind(k));
    }
    CollectedByType(Arrivals(f.steps), f.published, |ORDER_EVENT_KINDS|);
  }

  /** So after a run on a clock that does not run backwards, without re-ack under a new venue id, a
      boot from what the sink persisted restores the live store if and only if no call published
      and then raised and the simultaneous events of each order were published in the order of
      their types. */
  lemma PersistedBootRestoresIff(c: EventSink.Settings, steps: seq<FeedStep>, calls: seq<Call>)
    requires Settled(c, Fed(steps)) && DistinctIds(Arrivals(Fed(steps).steps))
    requires FreshRun(INITIAL, calls) && EveryCall(calls, KeepsVenueId)
    requires Fed(steps).published == OmsRuns.Run(INITIAL, calls).bus.log.events
    requires Ordered(Filter(Fed(steps).published, OrderEvent))
    ensures var live := OmsRuns.Run(INITIAL, calls);
            Replay(EMPTY_STORE, Gathered(Fed(steps).Sink(c).store.events)) == Some(live.store) <==>
            EveryCall(calls, PublishesOnlyWhatItApplies) && OrdersByType(live)
  {
    hide Fed, Replay, OmsRuns.Run, EveryCall, OrdersByType, Gathered, Ordered, Filter, Arrivals, EventSink.Run;
    PersistedBoots(c, steps);
    BootRestoresOnClockIff(calls);
  }
}
