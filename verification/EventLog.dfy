/** The append-only event store and the in-process bus that feeds it
    (polytrader/events/store.py, polytrader/events/bus.py). */
module EventLog {
  import opened Prelude
  import opened OrderModel

  datatype Kind =
    | CreatedKind
    | SubmittedKind
    | AckKind
    | RejectedKind
    | FillKind
    | CanceledKind
    | CancelRequestedKind
    | OtherKind

  function KindOf(e: Event): Kind {
    match e
    case CreatedEvent(_, _, _, _) => CreatedKind
    case SubmittedEvent(_, _, _) => SubmittedKind
    case AckEvent(_, _, _) => AckKind
    case RejectedEvent(_, _, _) => RejectedKind
    case FillEvent(_, _, _, _, _, _, _) => FillKind
    case CanceledEvent(_, _, _) => CanceledKind
    case CancelRequestedEvent(_, _, _, _) => CancelRequestedKind
    case OtherEvent(_) => OtherKind
  }

  // ---- The log -----------------------------------------------------------------------

  datatype Log = Log(events: seq<Event>, ids: set<Id>)
  {
    /** The id index holds exactly the ids of the stored events, and no id is stored twice. */
    ghost predicate Valid() {
      && ids == (set e <- events :: e.stamp.id)
      && forall i, j :: 0 <= i < j < |events| ==> events[i].stamp.id != events[j].stamp.id
    }

    /** Storing an event whose id is known changes nothing. */
    function Append(e: Event): Log {
      if e.stamp.id in ids then this else Log(events + [e], ids + {e.stamp.id})
    }
  }

  const EMPTY_LOG := Log([], {})

  /** Appending keeps the id index exact and ids unique, is idempotent, and never disturbs
      what is already stored. */
  lemma AppendKeepsLog(l: Log, e: Event)
    requires l.Valid()
    ensures l.Append(e).Valid()
    ensures l.Append(e).Append(e) == l.Append(e)
    ensures l.events <= l.Append(e).events
    ensures exists x :: x in l.Append(e).events && x.stamp.id == e.stamp.id
  {
    if e.stamp.id in l.ids {
      var x :| x in l.events && x.stamp.id == e.stamp.id;
      assert x in l.Append(e).events;
    } else {
      var r := l.Append(e);
      assert e in r.events;
      forall id ensures id in r.ids <==> id in (set x <- r.events :: x.stamp.id) {
        if id in l.ids {
          var x :| x in l.events && x.stamp.id == id;
          assert x in r.events;
        }
      }
    }
  }

  predicate After(from: Option<real>, ts: real) {
    from.None? || from.value == 0.0 || from.value <= ts
  }

  predicate Before(to: Option<real>, ts: real) {
    to.None? || to.value == 0.0 || ts <= to.value
  }

  /** What a reader asks for; an empty correlation id and a bound of zero count as not given. */
  datatype Selection = Selection(kind: Option<Kind>, from: Option<real>, to: Option<real>, correlation: Option<Id>)

  predicate Selected(e: Event, s: Selection) {
    && (s.kind.None? || KindOf(e) == s.kind.value)
    && After(s.from, e.stamp.ts) && Before(s.to, e.stamp.ts)
    && (!Truthy(s.correlation) || e.stamp.correlation == s.correlation.value)
  }

  function Selecting(s: Selection): Event -> bool {
    e => Selected(e, s)
  }

  /** Each type is its own kind; an event type that is none of these is a kind of its own. */
  lemma KindIff(e: Event)
    ensures KindOf(e) == CreatedKind <==> e.CreatedEvent?
    ensures KindOf(e) == SubmittedKind <==> e.SubmittedEvent?
    ensures KindOf(e) == AckKind <==> e.AckEvent?
    ensures KindOf(e) == RejectedKind <==> e.RejectedEvent?
    ensures KindOf(e) == FillKind <==> e.FillEvent?
    ensures KindOf(e) == CanceledKind <==> e.CanceledEvent?
    ensures KindOf(e) == CancelRequestedKind <==> e.CancelRequestedEvent?
  {
  }

  /** A reader gets the logged events of the kind and correlation id asked for within the period, both
      ends included; an empty correlation id and a bound of zero ask for nothing. */
  lemma SelectedIff(es: seq<Event>, s: Selection, e: Event)
    ensures e in Filter(es, Selecting(s)) <==>
            && e in es
            && (s.kind == None || s.kind == Some(KindOf(e)))
            && (s.from == None || s.from == Some(0.0) || s.from.value <= e.stamp.ts)
            && (s.to == None || s.to == Some(0.0) || e.stamp.ts <= s.to.value)
            && (s.correlation == None || s.correlation == Some(0) || s.correlation == Some(e.stamp.correlation))
  {
    FilterMember(es, Selecting(s), e);
  }

  // ---- Sorting by timestamp ----------------------------------------------------------

  /** `e` placed after every event that is not later than it. */
  function InsertByTs(e: Event, xs: seq<Event>): seq<Event> {
    if xs == [] || xs[|xs| - 1].stamp.ts <= e.stamp.ts then xs + [e]
    else InsertByTs(e, xs[..|xs| - 1]) + [xs[|xs| - 1]]
  }

  /** Stable sort by timestamp. */
  function SortByTs(xs: seq<Event>): seq<Event> {
    if xs == [] then [] else InsertByTs(xs[|xs| - 1], SortByTs(xs[..|xs| - 1]))
  }

  ghost predicate Ordered(xs: seq<Event>) {
    forall i, j :: 0 <= i < j < |xs| ==> xs[i].stamp.ts <= xs[j].stamp.ts
  }

  lemma SnocOrdered(xs: seq<Event>, e: Event)
    requires Ordered(xs) && forall x :: x in xs ==> x.stamp.ts <= e.stamp.ts
    ensures Ordered(xs + [e])
  {
  }

  lemma {:induction false} InsertPermutes(e: Event, xs: seq<Event>)
    ensures multiset(InsertByTs(e, xs)) == multiset(xs) + multiset{e}
  {
    if xs != [] && xs[|xs| - 1].stamp.ts > e.stamp.ts {
      InsertPermutes(e, xs[..|xs| - 1]);
      assert xs == xs[..|xs| - 1] + [xs[|xs| - 1]];
    }
  }

  lemma {:induction false} InsertSorts(e: Event, xs: seq<Event>)
    requires Ordered(xs)
    ensures Ordered(InsertByTs(e, xs))
  {
    if xs != [] && xs[|xs| - 1].stamp.ts > e.stamp.ts {
      var front, last := xs[..|xs| - 1], xs[|xs| - 1];
      InsertSorts(e, front);
      InsertPermutes(e, front);
      var r := InsertByTs(e, front);
      forall x | x in r ensures x.stamp.ts <= last.stamp.ts {
        assert x in multiset(r);
      }
      SnocOrdered(r, last);
    } else {
      SnocOrdered(xs, e);
    }
  }

  lemma {:induction false} SortSorts(xs: seq<Event>)
    ensures Ordered(SortByTs(xs))
    ensures multiset(SortByTs(xs)) == multiset(xs)
  {
    if xs != [] {
      SortSorts(xs[..|xs| - 1]);
      assert xs == xs[..|xs| - 1] + [xs[|xs| - 1]];
      InsertSorts(xs[|xs| - 1], SortByTs(xs[..|xs| - 1]));
      InsertPermutes(xs[|xs| - 1], SortByTs(xs[..|xs| - 1]));
    }
  }

  lemma {:induction false} FilterOrdered(xs: seq<Event>, p: Event -> bool)
    requires Ordered(xs)
    ensures Ordered(Filter(xs, p))
  {
    if xs != [] {
      var front, last := xs[..|xs| - 1], xs[|xs| - 1];
      FilterOrdered(front, p);
      FilterSnoc(xs, p);
      forall x | x in Filter(front, p) ensures x.stamp.ts <= last.stamp.ts {
        FilterMember(front, p, x);
      }
      SnocOrdered(Filter(front, p), last);
    }
  }

  lemma {:induction false} InsertFilter(e: Event, xs: seq<Event>, p: Event -> bool)
    requires Ordered(xs)
    ensures Filter(InsertByTs(e, xs), p) == if p(e) then InsertByTs(e, Filter(xs, p)) else Filter(xs, p)
  {
    hide Filter, Ordered;
    if xs == [] || xs[|xs| - 1].stamp.ts <= e.stamp.ts {
      FilterAppend(xs, e, p);
      FilteredLast(xs, p, e.stamp.ts);
    } else {
      var front, last := xs[..|xs| - 1], xs[|xs| - 1];
      FrontOrdered(xs);
      InsertFilter(e, front, p);
      FilterAppend(InsertByTs(e, front), last, p);
      FilterSnoc(xs, p);
      if p(last) && p(e) {
        InsertBeforeLast(e, Filter(front, p), last);
      }
    }
  }

  lemma FrontOrdered(xs: seq<Event>)
    requires Ordered(xs) && xs != []
    ensures Ordered(xs[..|xs| - 1])
    ensures |xs| > 1 ==> xs[|xs| - 2].stamp.ts <= xs[|xs| - 1].stamp.ts
  {
  }

  lemma InsertBeforeLast(e: Event, xs: seq<Event>, last: Event)
    requires last.stamp.ts > e.stamp.ts
    ensures InsertByTs(e, xs + [last]) == InsertByTs(e, xs) + [last]
  {
    assert (xs + [last])[..|xs|] == xs;
  }

  lemma FilteredLast(xs: seq<Event>, p: Event -> bool, ts: real)
    requires Ordered(xs) && (xs == [] || xs[|xs| - 1].stamp.ts <= ts)
    ensures var ys := Filter(xs, p); ys == [] || ys[|ys| - 1].stamp.ts <= ts
  {
    var ys := Filter(xs, p);
    if ys != [] {
      FilterMember(xs, p, ys[|ys| - 1]);
    }
  }

  /** The sort is stable: selecting before it or after it comes to the same. */
  lemma {:induction false} SortFilter(xs: seq<Event>, p: Event -> bool)
    ensures Filter(SortByTs(xs), p) == SortByTs(Filter(xs, p))
  {
    if xs != [] {
      var front, last := xs[..|xs| - 1], xs[|xs| - 1];
      SortFilter(front, p);
      SortSorts(front);
      InsertFilter(last, SortByTs(front), p);
      FilterSnoc(xs, p);
      var kept := Filter(front, p);
      assert (kept + [last])[..|kept|] == kept;
    }
  }

  lemma {:induction false} SortOrdered(xs: seq<Event>)
    requires Ordered(xs)
    ensures SortByTs(xs) == xs
  {
    hide Ordered;
    if xs != [] {
      FrontOrdered(xs);
      SortOrdered(xs[..|xs| - 1]);
    }
  }

  function AtTime(ts: real): Event -> bool {
    (e: Event) => e.stamp.ts == ts
  }

  lemma {:induction false} AtTimeOrdered(xs: seq<Event>, ts: real)
    ensures Ordered(Filter(xs, AtTime(ts)))
  {
    forall x | x in Filter(xs, AtTime(ts)) ensures x.stamp.ts == ts {
      FilterMember(xs, AtTime(ts), x);
    }
  }

  /** Simultaneous events keep their order. */
  lemma SortKeepsTies(xs: seq<Event>, ts: real)
    ensures Filter(SortByTs(xs), AtTime(ts)) == Filter(xs, AtTime(ts))
  {
    SortFilter(xs, AtTime(ts));
    AtTimeOrdered(xs, ts);
    SortOrdered(Filter(xs, AtTime(ts)));
  }

  /** In-memory event store. */
  class MemoryEventStore {
    var events: seq<Event>
    var eventIds: set<Id>

    function View(): Log
      reads this
    {
      Log(events, eventIds)
    }

    constructor ()
      ensures View() == EMPTY_LOG
    {
      events, eventIds := [], {};
    }

    method Append(e: Event)
      modifies this
      ensures View() == old(View()).Append(e)
    {
      if e.stamp.id in eventIds {
        return;
      }
      events := events + [e];
      eventIds := eventIds + {e.stamp.id};
    }

    /** Matching events in append order. */
    method ReadStream(kind: Option<Kind>, from: Option<real>, to: Option<real>, correlation: Option<Id>)
      returns (r: seq<Event>)
      ensures r == Filter(events, Selecting(Selection(kind, from, to, correlation)))
    {
      r := [];
      for i := 0 to |events|
        invariant r == Filter(events[..i], Selecting(Selection(kind, from, to, correlation)))
      {
        var e := events[i];
        assert events[..i + 1][..i] == events[..i];
        if kind.Some? && KindOf(e) != kind.value {
          continue;
        }
        if from.Some? && from.value != 0.0 && e.stamp.ts < from.value {
          continue;
        }
        if to.Some? && to.value != 0.0 && e.stamp.ts > to.value {
          continue;
        }
        if correlation.Some? && correlation.value != EMPTY && e.stamp.correlation != correlation.value {
          continue;
        }
        r := r + [e];
      }
      assert events[..|events|] == events;
    }

    /** Matching events in chronological order. */
    method Replay(kind: Option<Kind>, from: Option<real>, to: Option<real>) returns (r: seq<Event>)
      ensures r == SortByTs(Filter(events, Selecting(Selection(kind, from, to, None))))
    {
      var matching := ReadStream(kind, from, to, None);
      r := SortByTs(matching);
    }
  }

  // ---- The bus -----------------------------------------------------------------------

  datatype Topic =
    | OrderCreatedTopic
    | OrderSubmittedTopic
    | OrderAcksTopic
    | OrderRejectsTopic
    | FillsTopic
    | OrderCancelsTopic
    | CancelRequestedTopic
    | SubmitCommandsTopic
    | CancelCommandsTopic
    | ExecutionRequestsTopic
    | ExecutionResponsesTopic
    | ExecutionErrorsTopic
    | SystemLifecycleTopic
    | CircuitBreakerTopic

  datatype SubmitOrderCommand = SubmitOrderCommand(orderId: Id, clientId: Id, intent: Intent)

  datatype CancelOrderCommand = CancelOrderCommand(orderId: Id, clientId: Id, venueId: Option<Id>, reason: Option<Id>)

  /** Commands are not events: only events reach the log. */
  datatype Message =
    | EventMessage(event: Event)
    | SubmitMessage(submit: SubmitOrderCommand)
    | CancelMessage(cancel: CancelOrderCommand)

  /** Every queue with the message at its end. */
  function AppendEach(queues: seq<seq<Message>>, m: Message): (r: seq<seq<Message>>)
    ensures |r| == |queues|
  {
    if queues == [] then [] else AppendEach(queues[..|queues| - 1], m) + [queues[|queues| - 1] + [m]]
  }

  lemma {:induction false} AppendEachAt(queues: seq<seq<Message>>, m: Message, i: nat)
    requires i < |queues|
    ensures AppendEach(queues, m)[i] == queues[i] + [m]
  {
    if i < |queues| - 1 {
      AppendEachAt(queues[..|queues| - 1], m, i);
    }
  }

  datatype Bus = Bus(log: Log, queues: map<Topic, seq<seq<Message>>>)
  {
    function Queues(t: Topic): seq<seq<Message>> {
      if t in queues then queues[t] else []
    }

    /** A new, empty queue, last among the topic's subscribers. */
    function Subscribe(t: Topic): Bus {
      this.(queues := queues[t := Queues(t) + [[]]])
    }

    /** The message goes to the log, if it is an event, and to the end of each queue. */
    function Publish(t: Topic, m: Message): Bus {
      Bus(
        if m.EventMessage? then log.Append(m.event) else log,
        if t in queues then queues[t := AppendEach(queues[t], m)] else queues)
    }
  }

  class EventBus {
    const store: MemoryEventStore
    var queues: map<Topic, seq<seq<Message>>>

    function View(): Bus
      reads this, store
    {
      Bus(store.View(), queues)
    }

    constructor (store: MemoryEventStore)
      ensures this.store == store && View() == Bus(store.View(), map[])
    {
      this.store := store;
      queues := map[];
    }

    /** The handle of the new queue is its index among the topic's subscribers. */
    method Subscribe(t: Topic) returns (handle: nat)
      modifies this
      ensures View() == old(View()).Subscribe(t)
      ensures View().Queues(t) == old(View()).Queues(t) + [[]] && handle == |old(View()).Queues(t)|
    {
      var subscribers := if t in queues then queues[t] else [];
      handle := |subscribers|;
      queues := queues[t := subscribers + [[]]];
    }

    method Publish(t: Topic, m: Message)
      modifies this, store
      ensures View() == old(View()).Publish(t, m)
    {
      if m.EventMessage? {
        store.Append(m.event);
      }
      if t in queues {
        var before := queues[t];
        var after: seq<seq<Message>> := [];
        for i := 0 to |before|
          modifies {}
          invariant after == AppendEach(before[..i], m)
        {
          assert before[..i + 1][..i] == before[..i];
          after := after + [before[i] + [m]];
        }
        assert before[..|before|] == before;
        queues := queues[t := after];
      }
    }
  }

  /** Broadcast: after a publication every queue of the topic has the message last, every other
      queue is as before, and exactly the events reach the log. */
  lemma PublishBroadcasts(b: Bus, t: Topic, m: Message, u: Topic, i: nat)
    requires i < |b.Queues(u)|
    ensures |b.Publish(t, m).Queues(u)| == |b.Queues(u)|
    ensures b.Publish(t, m).Queues(u)[i] == if u == t then b.Queues(u)[i] + [m] else b.Queues(u)[i]
    ensures b.Publish(t, m).log == if m.EventMessage? then b.log.Append(m.event) else b.log
  {
    AppendEachAt(b.Queues(u), m, i);
  }

  /** Every queue of the topic has gained these messages at its end, and no queue is gone or new. */
  ghost predicate Sent(b: Bus, b': Bus, t: Topic, ms: seq<Message>) {
    && |b'.Queues(t)| == |b.Queues(t)|
    && forall i :: 0 <= i < |b.Queues(t)| ==> b'.Queues(t)[i] == b.Queues(t)[i] + ms
  }

  lemma SentNothing(b: Bus, t: Topic)
    ensures Sent(b, b, t, [])
  {
    assert forall i :: 0 <= i < |b.Queues(t)| ==> b.Queues(t)[i] + [] == b.Queues(t)[i];
  }

  lemma PublishSends(b: Bus, u: Topic, m: Message, t: Topic)
    ensures Sent(b, b.Publish(u, m), t, if t == u then [m] else [])
  {
    hide Bus.Publish;
    forall i | 0 <= i < |b.Queues(t)|
      ensures |b.Publish(u, m).Queues(t)| == |b.Queues(t)|
      ensures b.Publish(u, m).Queues(t)[i] == b.Queues(t)[i] + if t == u then [m] else []
    {
      PublishBroadcasts(b, u, m, t, i);
      assert b.Queues(t)[i] + [] == b.Queues(t)[i];
    }
    PublishKeepsQueues(b, u, m, t);
  }

  lemma PublishKeepsQueues(b: Bus, u: Topic, m: Message, t: Topic)
    ensures |b.Publish(u, m).Queues(t)| == |b.Queues(t)|
  {
  }

  lemma SentThen(a: Bus, b: Bus, c: Bus, t: Topic, ms: seq<Message>, ns: seq<Message>)
    requires Sent(a, b, t, ms) && Sent(b, c, t, ns)
    ensures Sent(a, c, t, ms + ns)
  {
    forall i | 0 <= i < |a.Queues(t)| ensures c.Queues(t)[i] == a.Queues(t)[i] + (ms + ns) {
      assert a.Queues(t)[i] + ms + ns == a.Queues(t)[i] + (ms + ns);
    }
  }

  /** A message and where it is published. */
  datatype Post = Post(topic: Topic, message: Message)

  function PublishAll(b: Bus, posts: seq<Post>): Bus {
    if posts == [] then b
    else
      var last := posts[|posts| - 1];
      PublishAll(b, posts[..|posts| - 1]).Publish(last.topic, last.message)
  }

  /** The messages posted on the topic, in order. */
  function OnTopic(posts: seq<Post>, t: Topic): seq<Message> {
    if posts == [] then []
    else
      var last := posts[|posts| - 1];
      OnTopic(posts[..|posts| - 1], t) + if last.topic == t then [last.message] else []
  }

  /** The events among the messages, in order. */
  function EventsIn(posts: seq<Post>): seq<Event> {
    if posts == [] then []
    else
      var last := posts[|posts| - 1];
      EventsIn(posts[..|posts| - 1]) + if last.message.EventMessage? then [last.message.event] else []
  }

  lemma {:induction false} PublishAllSends(b: Bus, posts: seq<Post>, t: Topic)
    ensures Sent(b, PublishAll(b, posts), t, OnTopic(posts, t))
  {
    hide Sent, Bus.Publish;
    if posts == [] {
      SentNothing(b, t);
    } else {
      var front, last := posts[..|posts| - 1], posts[|posts| - 1];
      PublishAllSends(b, front, t);
      PublishSends(PublishAll(b, front), last.topic, last.message, t);
      SentThen(b, PublishAll(b, front), PublishAll(b, posts), t,
               OnTopic(front, t), if t == last.topic then [last.message] else []);
    }
  }

  ghost predicate FreshIds(es: seq<Event>, ids: set<Id>) {
    && (forall i :: 0 <= i < |es| ==> es[i].stamp.id !in ids)
    && (forall i, j :: 0 <= i < j < |es| ==> es[i].stamp.id != es[j].stamp.id)
  }

  lemma {:induction false} PublishAllLogs(b: Bus, posts: seq<Post>)
    requires FreshIds(EventsIn(posts), b.log.ids)
    ensures PublishAll(b, posts).log.events == b.log.events + EventsIn(posts)
    ensures PublishAll(b, posts).log.ids == b.log.ids + set e <- EventsIn(posts) :: e.stamp.id
  {
    if posts != [] {
      var front, last := posts[..|posts| - 1], posts[|posts| - 1];
      var es, fs := EventsIn(posts), EventsIn(front);
      assert forall i :: 0 <= i < |fs| ==> es[i] == fs[i];
      PublishAllLogs(b, front);
      if last.message.EventMessage? {
        assert es[|fs|] == last.message.event;
      }
    }
  }
}
