/** Short runs of two orders from the empty system: what boot does not mind, and what a shared
    venue id does (polytrader/oms/core.py, polytrader/oms/store.py, polytrader/ops/replay.py). */
module TwoOrderRuns {
  import opened Prelude
  import opened OrderModel
  import opened EventLog
  import opened OrderStore
  import opened OmsCore
  import opened OmsRuns
  import opened ReplayEqualsLive
  import opened Reconstruction
  import opened BootRestore

  function EventsOf(d: Call): seq<Event>
    requires d.CreateOrder?
  {
    [CreatedBy(d), SubmittedBy(d)]
  }

  /** Two creations of different keys, which draw different ids. */
  predicate TwoCreations(a: Call, b: Call) {
    && a.CreateOrder? && b.CreateOrder? && a.orderId != b.orderId && a.clientId != b.clientId
    && a.orderId != EMPTY && b.orderId != EMPTY
    && a.created.id != a.submitted.id && b.created.id != b.submitted.id
    && b.created.id !in {a.created.id, a.submitted.id} && b.submitted.id !in {a.created.id, a.submitted.id}
  }

  lemma TwoLogged(l: Log, c: Event, s: Event)
    requires c.stamp.id !in l.ids && s.stamp.id !in l.ids && c.stamp.id != s.stamp.id
    ensures l.Append(c).Append(s) == Log(l.events + [c, s], l.ids + {c.stamp.id, s.stamp.id})
  {
    assert l.events + [c] + [s] == l.events + [c, s];
  }

  lemma OneCreated(c: Core, d: Call)
    requires Linked(c) && d.CreateOrder? && Fresh(c, d) && d.clientId !in c.idem
    ensures var c' := Handle(c, d).core;
            && Linked(c') && c'.store == WithNewOrder(c.store, d, Submitted, EventsOf(d))
            && c'.bus.log == Log(c.bus.log.events + EventsOf(d), c.bus.log.ids + {d.created.id, d.submitted.id})
  {
    hide Handle, WithNewOrder, Indexed;
    CreateEffect(c, d);
    HandleKeepsLinked(c, d);
    TwoLogged(c.bus.log, CreatedBy(d), SubmittedBy(d));
  }

  lemma FirstCreated(a: Call, b: Call)
    requires TwoCreations(a, b)
    ensures var c := Run(INITIAL, [a]);
            && FreshRun(INITIAL, [a]) && Linked(c) && Fresh(c, b) && b.clientId !in c.idem
            && c.store == WithNewOrder(EMPTY_STORE, a, Submitted, EventsOf(a))
            && c.bus.log == Log(EventsOf(a), {a.created.id, a.submitted.id})
  {
    hide Handle;
    assert [] + [a] == [a] && [] + EventsOf(a) == EventsOf(a);
    RunSnoc([], a);
    OneCreated(INITIAL, a);
  }

  lemma TwoCreated(a: Call, b: Call)
    requires TwoCreations(a, b)
    ensures FreshRun(INITIAL, [a, b]) && Linked(Run(INITIAL, [a, b]))
    ensures var c := Run(INITIAL, [a, b]);
            && c.store == WithNewOrder(WithNewOrder(EMPTY_STORE, a, Submitted, EventsOf(a)), b, Submitted, EventsOf(b))
            && c.bus.log == Log(EventsOf(a) + EventsOf(b), {a.created.id, a.submitted.id, b.created.id, b.submitted.id})
  {
    hide Handle, WithNewOrder, Run, FreshRun, Linked, Fresh;
    FirstCreated(a, b);
    assert [a] + [b] == [a, b];
    RunSnoc([a], b);
    OneCreated(Run(INITIAL, [a]), b);
  }

  // ---- Simultaneous events of different orders -------------------------------------------

  lemma NoAcks(calls: seq<Call>)
    requires forall i :: 0 <= i < |calls| ==> calls[i].CreateOrder?
    ensures EveryCall(calls, PublishesOnlyWhatItApplies) && EveryCall(calls, KeepsVenueId)
  {
    hide Run;
  }

  lemma CreationsByType(a: Call, b: Call, id: Id)
    requires TwoCreations(a, b) && a.created.ts <= a.submitted.ts && b.created.ts <= b.submitted.ts
    ensures TypeOrdered(Filter(EventsOf(a) + EventsOf(b), About(id)))
  {
    hide Filter;
    FilterConcat(EventsOf(a), EventsOf(b), About(id));
    TwoOfOrder(a, id);
    TwoOfOrder(b, id);
    assert EventsOf(a) + [] == EventsOf(a) && [] + EventsOf(b) == EventsOf(b);
  }

  lemma CreationsOrdered(a: Call, b: Call)
    requires TwoCreations(a, b)
    requires a.created.ts <= a.submitted.ts == b.created.ts <= b.submitted.ts
    ensures var es := EventsOf(a) + EventsOf(b);
            Filter(es, OrderEvent) == es && Ordered(es) && !TypeOrdered(es)
  {
    var es := EventsOf(a) + EventsOf(b);
    FilterAll(es, OrderEvent);
    assert es[1] == SubmittedBy(a) && es[2] == CreatedBy(b);
    assert !NotAfter(es[1], es[2]);
  }

  /** An order is created at the instant the one before it was submitted: the log does not have its
      events by timestamp and type, and still boot restores the live store. */
  lemma CreatedAtOnce(a: Call, b: Call)
    requires TwoCreations(a, b)
    requires a.created.ts <= a.submitted.ts == b.created.ts <= b.submitted.ts
    ensures FreshRun(INITIAL, [a, b])
    ensures var c := Run(INITIAL, [a, b]);
            !TypeOrdered(Filter(c.bus.log.events, OrderEvent)) && Boot(c) == Some(c.store)
  {
    hide Handle, Replay, Gathered, Filter, Run, FreshRun, EveryCall, TypeOrdered, Ordered;
    TwoCreated(a, b);
    NoAcks([a, b]);
    CreationsOrdered(a, b);
    forall id ensures TypeOrdered(LoggedFor(Run(INITIAL, [a, b]), id)) {
      CreationsByType(a, b, id);
    }
    BootRestoresOnClockIff([a, b]);
  }

  // ---- One venue id for two orders ---------------------------------------------------------

  function AckedOrder(d: Call, v: Id): Order
    requires d.CreateOrder?
  {
    NewOrder(d.orderId, d.clientId, d.intent).(state := Acked, venueId := Some(v))
  }

  lemma AckOfSubmitted(c: Core, d: Call, ack: Call)
    requires Linked(c) && d.CreateOrder? && ack.VenueAck? && ack.clientId == d.clientId
    requires Target(c, ack) == Some(NewOrder(d.orderId, d.clientId, d.intent).(state := Submitted))
    ensures var t := Handle(c, ack).core.store;
            && t.orders == c.store.orders[d.orderId := AckedOrder(d, ack.venueId)] && t.byClient == c.store.byClient
            && t.byVenue == if ack.venueId != EMPTY then c.store.byVenue[ack.venueId := d.orderId] else c.store.byVenue
    ensures ack.stamp.id !in c.bus.log.ids ==> Handle(c, ack).core.bus.log.ids == c.bus.log.ids + {ack.stamp.id}
  {
    hide Handle;
    AckEffect(c, ack);
  }

  /** Both orders are acked under one venue id. */
  predicate AckedAlike(a: Call, b: Call, ackA: Call, ackB: Call) {
    && TwoCreations(a, b) && ackA.VenueAck? && ackB.VenueAck?
    && ackA.clientId == a.clientId && ackB.clientId == b.clientId
    && ackA.venueId == ackB.venueId != EMPTY && ackA.stamp.id != ackB.stamp.id
    && ackA.stamp.id !in {a.created.id, a.submitted.id, b.created.id, b.submitted.id}
    && ackB.stamp.id !in {a.created.id, a.submitted.id, b.created.id, b.submitted.id}
  }

  lemma TwoTargets(a: Call, b: Call, ackA: Call, ackB: Call)
    requires AckedAlike(a, b, ackA, ackB)
    ensures var c := Run(INITIAL, [a, b]);
            && FreshRun(INITIAL, [a, b]) && Linked(c) && Fresh(c, ackA) && Fresh(c, ackB)
            && Target(c, ackA) == Some(NewOrder(a.orderId, a.clientId, a.intent).(state := Submitted))
            && Target(c, ackB) == Some(NewOrder(b.orderId, b.clientId, b.intent).(state := Submitted))
  {
    hide Handle, Run, FreshRun, Indexed;
    TwoCreated(a, b);
  }

  lemma FirstOfTwoAcked(a: Call, b: Call, ackA: Call, ackB: Call)
    requires AckedAlike(a, b, ackA, ackB)
    ensures var c := Run(INITIAL, [a, b, ackA]);
            && FreshRun(INITIAL, [a, b, ackA]) && Linked(c) && Fresh(c, ackB)
            && a.orderId in c.store.orders && c.store.orders[a.orderId] == AckedOrder(a, ackA.venueId)
            && Target(c, ackB) == Some(NewOrder(b.orderId, b.clientId, b.intent).(state := Submitted))
  {
    hide Handle, Run, FreshRun, Indexed;
    TwoTargets(a, b, ackA, ackB);
    assert [a, b] + [ackA] == [a, b, ackA];
    RunSnoc([a, b], ackA);
    AckOfSubmitted(Run(INITIAL, [a, b]), a, ackA);
    HandleKeepsLinked(Run(INITIAL, [a, b]), ackA);
  }

  /** Two orders acked under one venue id: the second ack shares it, and from then on a lookup by
      that id finds the second order although the first one carries the id, too. */
  lemma SharedVenueId(a: Call, b: Call, ackA: Call, ackB: Call)
    requires AckedAlike(a, b, ackA, ackB)
    ensures var calls := [a, b, ackA, ackB];
            && FreshRun(INITIAL, calls) && SharedAt(calls, 3)
            && var s := Run(INITIAL, calls).store;
            && a.orderId in s.orders && s.orders[a.orderId].venueId == Some(ackA.venueId)
            && s.GetByVenue(ackA.venueId) == Some(AckedOrder(b, ackA.venueId))
            && !VenueIndexExact(s)
  {
    hide Handle, Run, FreshRun, Linked;
    FirstOfTwoAcked(a, b, ackA, ackB);
    var c := Run(INITIAL, [a, b, ackA]);
    assert [a, b, ackA] + [ackB] == [a, b, ackA, ackB] && [a, b, ackA, ackB][..3] == [a, b, ackA];
    RunSnoc([a, b, ackA], ackB);
    AckOfSubmitted(c, b, ackB);
    SharedVenueIdNotExact(Run(INITIAL, [a, b, ackA, ackB]).store, a.orderId, b.orderId);
  }
}
