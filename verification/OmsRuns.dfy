/** Runs of the OMS with one call at a time: what each call does to the store, and the agreement
    of the three indexes (polytrader/oms/core.py, polytrader/oms/store.py). */
module OmsRuns {
  import opened Prelude
  import opened OrderModel
  import opened EventLog
  import opened OrderStore
  import opened OmsCore

  const INITIAL := Core(EMPTY_STORE, map[], {}, Bus(EMPTY_LOG, map[]))

  /** The client index is a bijection between client ids and the stored orders. */
  ghost predicate Indexed(s: Store) {
    && s.WF()
    && EMPTY !in s.orders
    && (forall k :: k in s.byClient ==> s.byClient[k] in s.orders && s.orders[s.byClient[k]].clientId == k)
    && (forall id :: id in s.orders ==> s.orders[id].clientId in s.byClient && s.byClient[s.orders[id].clientId] == id)
    && (forall id :: id in s.orders ==> s.orders[id].filled >= 0.0)
  }

  /** The client index is exact and the idempotency map is a copy of it. */
  ghost predicate Linked(c: Core) {
    Indexed(c.store) && c.idem == c.store.byClient && c.bus.log.Valid()
  }

  predicate FreshStamps(l: Log, a: Stamp, b: Stamp) {
    a.id !in l.ids && b.id !in l.ids && a.id != b.id
  }

  /** Ids drawn by a call have not been drawn before. */
  predicate Fresh(c: Core, call: Call) {
    match call
    case CreateOrder(_, _, orderId, created, submitted) =>
      orderId != EMPTY && orderId !in c.store.orders && FreshStamps(c.bus.log, created, submitted)
    case VenueAck(_, _, stamp) => stamp.id !in c.bus.log.ids
    case VenueReject(_, _, stamp) => stamp.id !in c.bus.log.ids
    case VenueFill(_, _, _, _, _, _, stamp) => stamp.id !in c.bus.log.ids
    case Cancel(_, _, requested, canceled) => FreshStamps(c.bus.log, requested, canceled)
    case CanonicalAck(_, _, stamp) => stamp.id !in c.bus.log.ids
    case CanonicalReject(_, _, stamp) => stamp.id !in c.bus.log.ids
    case CanonicalFill(_, _, _, _, _, _, _, stamp) => stamp.id !in c.bus.log.ids
    case CanonicalCancel(_, _, _, requested, canceled) => FreshStamps(c.bus.log, requested, canceled)
  }

  /** The venue handler a user-stream message leads to, or None when no order is found. */
  function Direct(c: Core, call: Call): Option<Call> {
    match call
    case CanonicalAck(ref, venueId, stamp) =>
      var o := Locate(c.store, ref, Some(venueId));
      if o.None? then None else Some(VenueAck(o.value.clientId, venueId, stamp))
    case CanonicalReject(ref, reason, stamp) =>
      var o := Locate(c.store, ref, None);
      if o.None? then None else Some(VenueReject(o.value.clientId, reason, stamp))
    case CanonicalFill(ref, venueRef, size, price, fee, fillId, venueFillId, stamp) =>
      var o := Locate(c.store, ref, venueRef);
      if o.None? then None
      else Some(VenueFill(o.value.clientId, size, price, fee, fillId, venueFillId, stamp))
    case CanonicalCancel(ref, venueRef, reason, requested, canceled) =>
      var o := Locate(c.store, ref, venueRef);
      if o.None? then None else Some(Cancel(o.value.clientId, reason, requested, canceled))
    case _ => Some(call)
  }

  lemma HandleDirect(c: Core, call: Call)
    requires c.store.WF()
    ensures Handle(c, call) == if Direct(c, call).None? then Returned(c) else Handle(c, Direct(c, call).value)
    ensures Fresh(c, call) && Direct(c, call).Some? ==> Fresh(c, Direct(c, call).value)
  {
  }

  /** The order a direct call is about. */
  function Target(c: Core, d: Call): Option<Order> {
    match d
    case VenueAck(clientId, _, _) => c.store.GetByClient(clientId)
    case VenueReject(clientId, _, _) => c.store.GetByClient(clientId)
    case VenueFill(clientId, _, _, _, _, _, _) => c.store.GetByClient(clientId)
    case Cancel(clientId, _, _, _) => c.store.GetByClient(clientId)
    case _ => None
  }

  // ---- Effect of each handler --------------------------------------------------------

  /** The store with the new order of `d` in the given state and with the given history. */
  function WithNewOrder(s: Store, d: Call, state: OrderState, events: seq<Event>): Store
    requires d.CreateOrder?
  {
    Store(
      s.orders[d.orderId := NewOrder(d.orderId, d.clientId, d.intent).(state := state)],
      s.byClient[d.clientId := d.orderId],
      s.byVenue,
      s.history[d.orderId := events])
  }

  function CreatedBy(d: Call): Event
    requires d.CreateOrder?
  {
    CreatedEvent(d.created, d.orderId, d.clientId, d.intent)
  }

  function SubmittedBy(d: Call): Event
    requires d.CreateOrder?
  {
    SubmittedEvent(d.submitted, d.orderId, d.clientId)
  }

  lemma UpdateNewOrder(s: Store, d: Call, from: OrderState, to: OrderState, events: seq<Event>)
    requires s.WF() && d.CreateOrder? && CanTransition(from, to)
    ensures WithNewOrder(s, d, from, events).WF()
    ensures WithNewOrder(s, d, from, events).Update(NewOrder(d.orderId, d.clientId, d.intent).(state := to))
         == Some(WithNewOrder(s, d, to, events))
  {
    var w := WithNewOrder(s, d, from, events);
    var o := NewOrder(d.orderId, d.clientId, d.intent).(state := to);
    assert w.orders[d.orderId := o] == WithNewOrder(s, d, to, events).orders;
  }

  lemma InsertNewOrder(s: Store, d: Call)
    requires s.WF() && d.CreateOrder?
    ensures s.Insert(d.intent, d.clientId, d.orderId).ApplyCreated(CreatedBy(d)) ==
            WithNewOrder(s, d, New, [CreatedBy(d)])
  {
    var t := s.Insert(d.intent, d.clientId, d.orderId);
    assert t.history[d.orderId] + [CreatedBy(d)] == [CreatedBy(d)];
    assert t.history[d.orderId := [CreatedBy(d)]] == s.history[d.orderId := [CreatedBy(d)]];
  }

  lemma SubmitNewOrder(s: Store, d: Call)
    requires s.WF() && d.CreateOrder?
    ensures WithNewOrder(s, d, Submitted, [CreatedBy(d)]).WF()
    ensures WithNewOrder(s, d, Submitted, [CreatedBy(d)]).Apply(SubmittedBy(d))
         == Some(WithNewOrder(s, d, Submitted, [CreatedBy(d), SubmittedBy(d)]))
  {
    var t := WithNewOrder(s, d, Submitted, [CreatedBy(d)]);
    assert t.history[d.orderId] + [SubmittedBy(d)] == [CreatedBy(d), SubmittedBy(d)];
    var u := t.Apply(SubmittedBy(d)).value;
    assert u.orders == t.orders;
    assert u.history == s.history[d.orderId := [CreatedBy(d), SubmittedBy(d)]];
  }

  /** A new order ends up SUBMITTED with two events; a known client id changes nothing. The
      recovery branch for a known id without an order is never taken. */
  lemma CreateEffect(c: Core, d: Call)
    requires Linked(c) && d.CreateOrder? && Fresh(c, d)
    ensures d.clientId in c.idem ==> Handle(c, d) == Returned(c)
    ensures d.clientId !in c.idem ==>
              var r := Handle(c, d);
              && r.Returned?
              && r.core.store == WithNewOrder(c.store, d, Submitted, [CreatedBy(d), SubmittedBy(d)])
              && r.core.idem == c.idem[d.clientId := d.orderId]
              && r.core.bus.log == c.bus.log.Append(CreatedBy(d)).Append(SubmittedBy(d))
  {
    if d.clientId !in c.idem {
      var p0 := StartCreate(c, d.intent, d.clientId, d.orderId, d.created, d.submitted);
      FinishStep(p0);
      InsertNewOrder(c.store, d);
      UpdateNewOrder(c.store, d, New, PendingSubmit, [CreatedBy(d)]);
      CreateSubmits(c, Resume(p0.core, p0.frame), d);
    }
  }

  lemma CreateSubmits(c: Core, p: Progress, d: Call)
    requires c.store.WF() && p.WF() && p.Suspended? && d.CreateOrder?
    requires p.frame ==
             CommandPublished(NewOrder(d.orderId, d.clientId, d.intent).(state := PendingSubmit), d.submitted)
    requires p.core.store == WithNewOrder(c.store, d, PendingSubmit, [CreatedBy(d)]) && d.orderId in p.core.tracked
    ensures var r := Finish(p);
            && r.Returned?
            && r.core.store == WithNewOrder(c.store, d, Submitted, [CreatedBy(d), SubmittedBy(d)])
            && r.core.idem == p.core.idem
            && r.core.bus.log == p.core.bus.log.Append(SubmittedBy(d))
  {
    FinishStep(p);
    UpdateNewOrder(c.store, d, PendingSubmit, Submitted, [CreatedBy(d)]);
    FinishStep(Resume(p.core, p.frame));
    SubmitNewOrder(c.store, d);
  }

  function AckedVenues(s: Store, o: Order, venueId: Id): map<Id, Id> {
    if o.venueId == Some(venueId) then
      if venueId != EMPTY then s.byVenue[venueId := o.orderId] else s.byVenue
    else
      var rest := if Truthy(o.venueId) then s.byVenue - {o.venueId.value} else s.byVenue;
      if venueId != EMPTY then rest[venueId := o.orderId] else rest
  }

  /** Acking twice, once by update_order and once by the event, is acking once. */
  lemma AckTwice(s: Store, o: Order, e: Event)
    requires s.WF() && e.AckEvent? && e.orderId in s.orders && s.orders[e.orderId] == o
    requires Transition(o, Acked, None).Some?
    ensures s.Apply(e).Some?
    ensures var acked := Transition(o, Acked, None).value.(venueId := Some(e.venueId));
            s.Update(acked).Some?
            && s.Update(acked).value.Apply(e) == Some(s.Apply(e).value.(byVenue := AckedVenues(s, o, e.venueId)))
  {
    var acked := Transition(o, Acked, None).value.(venueId := Some(e.venueId));
    var t := s.Update(acked).value;
    assert OrderAfter(acked, e) == Some(acked);
    assert t.orders[e.orderId := acked] == s.orders[e.orderId := acked];
    assert e.venueId != EMPTY && o.venueId != Some(e.venueId) ==>
        t.byVenue[e.venueId := e.orderId] == t.byVenue;
  }

  /** An ack raises before publishing, or does what replaying its event does, except that the
      venue id the order had before is no longer indexed. */
  lemma AckEffect(c: Core, d: Call)
    requires Linked(c) && d.VenueAck?
    ensures var o := Target(c, d);
            if o.None? || Transition(o.value, Acked, None).None? then Handle(c, d) == Raised(c)
            else
              var e := AckEvent(d.stamp, o.value.orderId, d.venueId);
              var r := Handle(c, d);
              && r.Returned?
              && c.store.Apply(e).Some?
              && r.core.store == c.store.Apply(e).value.(byVenue := AckedVenues(c.store, o.value, d.venueId))
              && r.core.idem == c.idem
              && r.core.bus.log == c.bus.log.Append(e)
  {
    var o := Target(c, d);
    if o.Some? && Transition(o.value, Acked, None).Some? {
      AckTwice(c.store, o.value, AckEvent(d.stamp, o.value.orderId, d.venueId));
      FinishStep(StartAck(c, d.clientId, d.venueId, d.stamp));
    }
  }

  /** A reject, fill or cancel that gets as far as publishing its event then does exactly what
      replaying that event does; when that raises, the event stays in the log. */
  ghost predicate PublishedThenApplied(c: Core, r: Progress, log: Log, e: Event)
    requires c.store.WF()
  {
    && r.core.bus.log == log.Append(e)
    && r.core.idem == c.idem
    && r.Returned? == c.store.Apply(e).Some?
    && r.core.store == if r.Returned? then c.store.Apply(e).value else c.store
  }

  lemma RejectEffect(c: Core, d: Call)
    requires c.store.WF() && d.VenueReject?
    ensures !Handle(c, d).Suspended?
    ensures if Target(c, d).None? then Handle(c, d) == Raised(c)
            else PublishedThenApplied(c, Handle(c, d), c.bus.log,
                                      RejectedEvent(d.stamp, Target(c, d).value.orderId, d.reason))
  {
    if Target(c, d).Some? {
      FinishStep(Start(c, d));
    }
  }

  lemma FillEffect(c: Core, d: Call)
    requires c.store.WF() && d.VenueFill?
    ensures !Handle(c, d).Suspended?
    ensures var o := Target(c, d);
            if o.None? || o.value.filled + d.size > o.value.Size() || !ValidFill(d.size, d.price, d.fee)
            then Handle(c, d) == Raised(c)
            else PublishedThenApplied(c, Handle(c, d), c.bus.log,
                                      FillEvent(d.stamp, o.value.orderId, d.fillId, d.size, d.price, d.fee,
                                                d.venueFillId))
  {
    var p := Start(c, d);
    if p.Suspended? {
      FinishStep(p);
    }
  }

  lemma CancelEffect(c: Core, d: Call)
    requires c.store.WF() && d.Cancel?
    ensures !Handle(c, d).Suspended?
    ensures var o := Target(c, d);
            if o.None? || o.value.Terminal() then Handle(c, d) == Raised(c)
            else PublishedThenApplied(c, Handle(c, d),
                                      c.bus.log.Append(CancelRequestedEvent(d.requested, o.value.orderId, d.clientId,
                                                                            d.cancelReason)),
                                      CanceledEvent(d.canceled, o.value.orderId, d.cancelReason))
  {
    var p0 := Start(c, d);
    if p0.Suspended? {
      FinishStep(p0);
      var p1 := Resume(p0.core, p0.frame);
      FinishStep(p1);
      FinishStep(Resume(p1.core, p1.frame));
    }
  }

  // ---- Runs --------------------------------------------------------------------------

  /** The core after the calls, one at a time; a raising call leaves what it had done. */
  function Run(c: Core, calls: seq<Call>): (r: Core)
    requires c.store.WF()
    ensures r.store.WF()
  {
    if calls == [] then c else Handle(Run(c, calls[..|calls| - 1]), calls[|calls| - 1]).core
  }

  /** Every call of the run draws fresh ids. */
  ghost predicate FreshRun(c: Core, calls: seq<Call>)
    requires c.store.WF()
  {
    calls == [] ||
    (FreshRun(c, calls[..|calls| - 1]) && Fresh(Run(c, calls[..|calls| - 1]), calls[|calls| - 1]))
  }

  lemma {:induction false} FreshPrefix(calls: seq<Call>, n: nat)
    requires FreshRun(INITIAL, calls) && n <= |calls|
    ensures FreshRun(INITIAL, calls[..n])
    decreases |calls|
  {
    if n < |calls| {
      var front := calls[..|calls| - 1];
      assert front[..n] == calls[..n];
      FreshPrefix(front, n);
    } else {
      assert calls[..n] == calls;
    }
  }

  lemma RunSnoc(calls: seq<Call>, call: Call)
    ensures Run(INITIAL, calls + [call]) == Handle(Run(INITIAL, calls), call).core
    ensures FreshRun(INITIAL, calls + [call]) <==> FreshRun(INITIAL, calls) && Fresh(Run(INITIAL, calls), call)
  {
    assert (calls + [call])[..|calls|] == calls;
  }

  lemma ReplacedKeepsIndexed(s: Store, o: Order, es: seq<Event>, venues: map<Id, Id>)
    requires Indexed(s) && o.orderId in s.orders
    requires o.clientId == s.orders[o.orderId].clientId && o.filled >= 0.0
    ensures Indexed(Store(s.orders[o.orderId := o], s.byClient, venues, s.history[o.orderId := es]))
  {
  }

  lemma IndexedOrder(s: Store, id: Id)
    requires Indexed(s)
    ensures s.WF() && (id in s.orders ==> s.orders[id].filled >= 0.0 && s.orders[id].orderId == id)
  {
  }

  lemma IndexedWithVenues(s: Store, venues: map<Id, Id>)
    requires Indexed(s)
    ensures Indexed(s.(byVenue := venues))
  {
  }

  lemma ApplyKeepsIndexed(s: Store, e: Event, venues: map<Id, Id>)
    requires Indexed(s) && e.IsOrderEvent() && !e.CreatedEvent? && (e.FillEvent? ==> e.size > 0.0)
    requires s.Apply(e).Some?
    ensures Indexed(s.Apply(e).value.(byVenue := venues))
  {
    hide OrderAfter, Indexed;
    assert s.WF() && (e.orderId in s.orders ==> s.orders[e.orderId].filled >= 0.0) by { IndexedOrder(s, e.orderId); }
    if e.orderId in s.orders {
      OrderAfterKeeps(s.orders[e.orderId], e);
      ReplacedKeepsIndexed(s, OrderAfter(s.orders[e.orderId], e).value, s.history[e.orderId] + [e], venues);
    } else {
      IndexedWithVenues(s, venues);
    }
  }

  lemma NewOrderKeepsIndexed(s: Store, d: Call, events: seq<Event>)
    requires Indexed(s) && d.CreateOrder? && d.clientId !in s.byClient && d.orderId !in s.orders && d.orderId != EMPTY
    ensures Indexed(WithNewOrder(s, d, Submitted, events))
  {
  }

  lemma LinkedApply(c: Core, c': Core, e: Event)
    requires Linked(c) && c'.bus.log.Valid() && c'.idem == c.idem
    requires e.IsOrderEvent() && !e.CreatedEvent? && (e.FillEvent? ==> e.size > 0.0)
    requires c.store.Apply(e).Some? && c'.store == c.store.Apply(e).value.(byVenue := c'.store.byVenue)
    ensures Linked(c')
  {
    ApplyKeepsIndexed(c.store, e, c'.store.byVenue);
  }

  lemma CreateKeepsLinked(c: Core, d: Call)
    requires Linked(c) && Fresh(c, d) && d.CreateOrder?
    ensures Linked(Handle(c, d).core)
    ensures c.bus.log.events <= Handle(c, d).core.bus.log.events
  {
    CreateEffect(c, d);
    if d.clientId !in c.idem {
      NewOrderKeepsIndexed(c.store, d, [CreatedBy(d), SubmittedBy(d)]);
      AppendKeepsLog(c.bus.log, CreatedBy(d));
      AppendKeepsLog(c.bus.log.Append(CreatedBy(d)), SubmittedBy(d));
    }
  }

  lemma AckKeepsLinked(c: Core, d: Call)
    requires Linked(c) && d.VenueAck?
    ensures Linked(Handle(c, d).core)
    ensures c.bus.log.events <= Handle(c, d).core.bus.log.events
  {
    AckEffect(c, d);
    if Handle(c, d).Returned? {
      var e := AckEvent(d.stamp, Target(c, d).value.orderId, d.venueId);
      AppendKeepsLog(c.bus.log, e);
      LinkedApply(c, Handle(c, d).core, e);
    }
  }

  lemma PublishedKeepsLinked(c: Core, r: Progress, log: Log, e: Event)
    requires Linked(c) && PublishedThenApplied(c, r, log, e) && !r.Suspended?
    requires e.IsOrderEvent() && !e.CreatedEvent? && (e.FillEvent? ==> e.size > 0.0)
    requires log.Valid() && c.bus.log.events <= log.events
    ensures Linked(r.core)
    ensures c.bus.log.events <= r.core.bus.log.events
  {
    AppendKeepsLog(log, e);
    if r.Returned? {
      LinkedApply(c, r.core, e);
    }
  }

  lemma RejectKeepsLinked(c: Core, d: Call)
    requires Linked(c) && d.VenueReject?
    ensures Linked(Handle(c, d).core)
    ensures c.bus.log.events <= Handle(c, d).core.bus.log.events
  {
    RejectEffect(c, d);
    if Target(c, d).Some? {
      PublishedKeepsLinked(c, Handle(c, d), c.bus.log, RejectedEvent(d.stamp, Target(c, d).value.orderId, d.reason));
    }
  }

  lemma FillKeepsLinked(c: Core, d: Call)
    requires Linked(c) && d.VenueFill?
    ensures Linked(Handle(c, d).core)
    ensures c.bus.log.events <= Handle(c, d).core.bus.log.events
  {
    FillEffect(c, d);
    if Handle(c, d) != Raised(c) {
      PublishedKeepsLinked(c, Handle(c, d), c.bus.log,
                           FillEvent(d.stamp, Target(c, d).value.orderId, d.fillId, d.size, d.price, d.fee,
                                     d.venueFillId));
    }
  }

  lemma CancelKeepsLinked(c: Core, d: Call)
    requires Linked(c) && d.Cancel?
    ensures Linked(Handle(c, d).core)
    ensures c.bus.log.events <= Handle(c, d).core.bus.log.events
  {
    CancelEffect(c, d);
    if Handle(c, d) != Raised(c) {
      var o := Target(c, d).value;
      var request := CancelRequestedEvent(d.requested, o.orderId, d.clientId, d.cancelReason);
      AppendKeepsLog(c.bus.log, request);
      PublishedKeepsLinked(c, Handle(c, d), c.bus.log.Append(request),
                           CanceledEvent(d.canceled, o.orderId, d.cancelReason));
    }
  }

  /** Every call keeps the indexes linked, whether or not it raises. */
  lemma HandleKeepsLinked(c: Core, call: Call)
    requires Linked(c) && Fresh(c, call)
    ensures Linked(Handle(c, call).core)
    ensures c.bus.log.events <= Handle(c, call).core.bus.log.events
  {
    HandleDirect(c, call);
    if Direct(c, call).Some? {
      var d := Direct(c, call).value;
      match d {
        case CreateOrder(_, _, _, _, _) => CreateKeepsLinked(c, d);
        case VenueAck(_, _, _) => AckKeepsLinked(c, d);
        case VenueReject(_, _, _) => RejectKeepsLinked(c, d);
        case VenueFill(_, _, _, _, _, _, _) => FillKeepsLinked(c, d);
        case Cancel(_, _, _, _) => CancelKeepsLinked(c, d);
      }
    }
  }

  /** In every run from the start the idempotency map equals the client index, which is a
      bijection with the stored orders. */
  lemma {:induction false} RunKeepsLinked(calls: seq<Call>)
    requires FreshRun(INITIAL, calls)
    ensures Linked(Run(INITIAL, calls))
  {
    if calls != [] {
      RunKeepsLinked(calls[..|calls| - 1]);
      HandleKeepsLinked(Run(INITIAL, calls[..|calls| - 1]), calls[|calls| - 1]);
    }
  }

  /** An event that the store takes and that does not overfill its order. */
  ghost predicate TakenWithin(s: Store, e: Event)
    requires s.WF()
  {
    && e.IsOrderEvent() && !e.CreatedEvent? && s.Apply(e).Some?
    && (e.FillEvent? ==>
          && e.size > 0.0
          && (e.orderId in s.orders ==> s.orders[e.orderId].filled + e.size <= s.orders[e.orderId].Size()))
  }

  /** What any call does to the store, up to the venue index: nothing, one new order, or what one
      event does. */
  ghost predicate Effect(s: Store, t: Store, call: Call, e: Option<Event>)
    requires s.WF()
  {
    if e.Some? then TakenWithin(s, e.value) && t == s.Apply(e.value).value.(byVenue := t.byVenue)
    else
      || t == s
      || (call.CreateOrder? && call.orderId !in s.orders
          && t == WithNewOrder(s, call, Submitted, [CreatedBy(call), SubmittedBy(call)]))
  }

  lemma AckHasEffect(c: Core, d: Call) returns (e: Option<Event>)
    requires Linked(c) && d.VenueAck?
    ensures Effect(c.store, Handle(c, d).core.store, d, e)
  {
    hide Handle;
    e := None;
    AckEffect(c, d);
    if Handle(c, d).Returned? {
      e := Some(AckEvent(d.stamp, Target(c, d).value.orderId, d.venueId));
    }
  }

  lemma PublishedHasEffect(c: Core, r: Progress, log: Log, d: Call, x: Event) returns (e: Option<Event>)
    requires c.store.WF() && PublishedThenApplied(c, r, log, x)
    requires x.IsOrderEvent() && !x.CreatedEvent? && (x.FillEvent? && r.Returned? ==> TakenWithin(c.store, x))
    ensures Effect(c.store, r.core.store, d, e)
  {
    e := if r.Returned? then Some(x) else None;
  }

  lemma FillHasEffect(c: Core, d: Call) returns (e: Option<Event>)
    requires c.store.WF() && d.VenueFill?
    ensures Effect(c.store, Handle(c, d).core.store, d, e)
  {
    hide Handle;
    e := None;
    FillEffect(c, d);
    if Handle(c, d) != Raised(c) {
      var x := FillEvent(d.stamp, Target(c, d).value.orderId, d.fillId, d.size, d.price, d.fee, d.venueFillId);
      e := PublishedHasEffect(c, Handle(c, d), c.bus.log, d, x);
    }
  }

  lemma DirectHasEffect(c: Core, d: Call) returns (e: Option<Event>)
    requires Linked(c) && Fresh(c, d) && Direct(c, d) == Some(d)
    ensures Effect(c.store, Handle(c, d).core.store, d, e)
  {
    hide Handle;
    e := None;
    match d {
      case CreateOrder(_, _, _, _, _) =>
        CreateEffect(c, d);
      case VenueAck(_, _, _) =>
        e := AckHasEffect(c, d);
      case VenueReject(_, _, _) =>
        RejectEffect(c, d);
        if Target(c, d).Some? {
          e := PublishedHasEffect(c, Handle(c, d), c.bus.log, d,
                                  RejectedEvent(d.stamp, Target(c, d).value.orderId, d.reason));
        }
      case VenueFill(_, _, _, _, _, _, _) =>
        e := FillHasEffect(c, d);
      case Cancel(_, _, _, _) =>
        CancelEffect(c, d);
        if Handle(c, d) != Raised(c) {
          var o := Target(c, d).value;
          var request := CancelRequestedEvent(d.requested, o.orderId, d.clientId, d.cancelReason);
          e := PublishedHasEffect(c, Handle(c, d), c.bus.log.Append(request), d,
                                  CanceledEvent(d.canceled, o.orderId, d.cancelReason));
        }
    }
  }

  lemma HandleEffect(c: Core, call: Call) returns (e: Option<Event>)
    requires Linked(c) && Fresh(c, call)
    ensures Effect(c.store, Handle(c, call).core.store, call, e)
  {
    hide Handle;
    e := None;
    HandleDirect(c, call);
    if Direct(c, call).Some? {
      e := DirectHasEffect(c, Direct(c, call).value);
    }
  }

  // ---- The venue index ---------------------------------------------------------------

  /** The venue index says what a scan of the orders would say. */
  ghost predicate VenueIndexExact(s: Store) {
    forall v, id :: v != EMPTY ==>
                      ((v in s.byVenue && s.byVenue[v] == id) <==> (id in s.orders && s.orders[id].venueId == Some(v)))
  }

  /** No other order has the venue id that is being assigned. */
  ghost predicate VenueIdFree(c: Core, call: Call) {
    var d := Direct(c, call);
    d.Some? && d.value.VenueAck? && d.value.venueId != EMPTY ==>
      forall id :: id in c.store.orders && c.store.orders[id].venueId == Some(d.value.venueId) ==>
                     Target(c, d.value) == Some(c.store.orders[id])
  }

  /** A lookup by venue id is a scan of the orders. */
  lemma VenueLookupIsScan(c: Core, v: Id)
    requires Linked(c) && VenueIndexExact(c.store) && v != EMPTY
    ensures var r := c.store.GetByVenue(v);
            if r.Some? then
              && r.value.orderId in c.store.orders && c.store.orders[r.value.orderId] == r.value
              && (forall id :: id in c.store.orders ==>
                                 (c.store.orders[id].venueId == Some(v) <==> id == r.value.orderId))
            else forall id :: id in c.store.orders ==> c.store.orders[id].venueId != Some(v)
  {
  }

  /** A lookup by client id is a scan of the orders, too. */
  lemma ClientLookupIsScan(c: Core, k: Id)
    requires Linked(c)
    ensures var r := c.store.GetByClient(k);
            if r.Some? then
              && r.value.orderId in c.store.orders && c.store.orders[r.value.orderId] == r.value
              && (forall id :: id in c.store.orders ==>
                                 (c.store.orders[id].clientId == k <==> id == r.value.orderId))
            else forall id :: id in c.store.orders ==> c.store.orders[id].clientId != k
  {
  }

  /** The order with this client id, if one is stored; an empty id is no reference. */
  ghost predicate HasClientId(s: Store, ref: Option<Id>, id: Id) {
    ref.Some? && ref.value != EMPTY && id in s.orders && s.orders[id].clientId == ref.value
  }

  ghost predicate HasVenueId(s: Store, ref: Option<Id>, id: Id) {
    ref.Some? && ref.value != EMPTY && id in s.orders && s.orders[id].venueId == ref
  }

  /** A user-stream message is about the order with its client id, or if there is none, or it names
      none, about the order with its venue id; with neither it is about no order. */
  lemma LocatesOrder(c: Core, clientRef: Option<Id>, venueRef: Option<Id>)
    requires Linked(c) && VenueIndexExact(c.store)
    ensures var r := Locate(c.store, clientRef, venueRef);
            && (r.Some? ==> r.value.orderId in c.store.orders && c.store.orders[r.value.orderId] == r.value)
            && (forall id :: HasClientId(c.store, clientRef, id) ==> r == Some(c.store.orders[id]))
            && ((forall id :: !HasClientId(c.store, clientRef, id)) ==>
                  && (forall id :: HasVenueId(c.store, venueRef, id) ==> r == Some(c.store.orders[id]))
                  && ((forall id :: !HasVenueId(c.store, venueRef, id)) ==> r == None))
  {
    var r := Locate(c.store, clientRef, venueRef);
    forall id | HasClientId(c.store, clientRef, id) ensures r == Some(c.store.orders[id]) {
      ClientLookupIsScan(c, clientRef.value);
      assert c.store.orders[id].clientId == clientRef.value;
    }
    if forall id :: !HasClientId(c.store, clientRef, id) {
      if Truthy(clientRef) {
        ClientLookupIsScan(c, clientRef.value);
        var found := c.store.GetByClient(clientRef.value);
        assert found.Some? ==> HasClientId(c.store, clientRef, found.value.orderId);
      }
      LocatesByVenue(c, venueRef);
    }
  }

  lemma LocatesByVenue(c: Core, ref: Option<Id>)
    requires Linked(c) && VenueIndexExact(c.store)
    ensures var r := if Truthy(ref) then c.store.GetByVenue(ref.value) else None;
            && (forall id :: HasVenueId(c.store, ref, id) ==> r == Some(c.store.orders[id]))
            && ((forall id :: !HasVenueId(c.store, ref, id)) ==> r == None)
  {
    if Truthy(ref) {
      VenueLookupIsScan(c, ref.value);
      var r := c.store.GetByVenue(ref.value);
      forall id | HasVenueId(c.store, ref, id) ensures r == Some(c.store.orders[id]) {
        assert c.store.orders[id].venueId == Some(ref.value);
      }
      assert r.Some? ==> c.store.orders[r.value.orderId].venueId == Some(ref.value);
      assert r.Some? ==> HasVenueId(c.store, ref, r.value.orderId);
    }
  }

  /** The ids by which a user-stream message refers to its order; a reject has no venue id. */
  function References(call: Call): (Option<Id>, Option<Id>) {
    match call
    case CanonicalAck(clientRef, venueId, _) => (clientRef, Some(venueId))
    case CanonicalReject(clientRef, _, _) => (clientRef, None)
    case CanonicalFill(clientRef, venueRef, _, _, _, _, _, _) => (clientRef, venueRef)
    case CanonicalCancel(clientRef, venueRef, _, _, _) => (clientRef, venueRef)
    case _ => (None, None)
  }

  /** The message is about this stored order. */
  ghost predicate RefersTo(c: Core, call: Call, id: Id) {
    var (clientRef, venueRef) := References(call);
    || HasClientId(c.store, clientRef, id)
    || ((forall k :: !HasClientId(c.store, clientRef, k)) && HasVenueId(c.store, venueRef, id))
  }

  /** A user-stream message becomes the venue call for the order it refers to, with the same payload;
      one that refers to no order becomes none. */
  lemma MessageBecomes(c: Core, call: Call)
    requires Linked(c) && VenueIndexExact(c.store)
    ensures forall id :: RefersTo(c, call, id) ==>
                           var k := c.store.orders[id].clientId;
                           match call
                           case CanonicalAck(_, venueId, stamp) => Direct(c, call) == Some(VenueAck(k, venueId, stamp))
                           case CanonicalReject(_, reason, stamp) =>
                             Direct(c, call) == Some(VenueReject(k, reason, stamp))
                           case CanonicalFill(_, _, size, price, fee, fillId, venueFillId, stamp) =>
                             Direct(c, call) == Some(VenueFill(k, size, price, fee, fillId, venueFillId, stamp))
                           case CanonicalCancel(_, _, reason, requested, canceled) =>
                             Direct(c, call) == Some(Cancel(k, reason, requested, canceled))
                           case _ => true
    ensures (forall id :: !RefersTo(c, call, id)) ==>
              match call
              case CanonicalAck(_, _, _) => Direct(c, call) == None
              case CanonicalReject(_, _, _) => Direct(c, call) == None
              case CanonicalFill(_, _, _, _, _, _, _, _) => Direct(c, call) == None
              case CanonicalCancel(_, _, _, _, _) => Direct(c, call) == None
              case _ => Direct(c, call) == Some(call)
  {
    hide Locate, HasClientId, HasVenueId, Linked, VenueIndexExact;
      var (clientRef, venueRef) := References(call);
    LocatesOrder(c, clientRef, venueRef);
    if forall id :: !RefersTo(c, call, id) {
      forall id ensures !HasClientId(c.store, clientRef, id) {
        assert !RefersTo(c, call, id);
      }
      forall id ensures !HasVenueId(c.store, venueRef, id) {
        assert !RefersTo(c, call, id);
      }
    }
  }

  /** A creation returns at once exactly when its key is recorded for a stored order; otherwise the
      new order is stored, whatever else is recorded. */
  lemma KnownKeyReturns(c: Core, d: Call)
    requires c.store.WF() && d.CreateOrder?
    ensures var known := d.clientId in c.idem && c.idem[d.clientId] != 0 && c.idem[d.clientId] in c.store.orders;
            && (known ==> Start(c, d) == Returned(c))
            && (!known ==>
                  && Start(c, d).Suspended? && d.orderId in Start(c, d).core.store.orders
                  && Start(c, d).core.store.orders[d.orderId] == NewOrder(d.orderId, d.clientId, d.intent)
                  && Start(c, d).core.store.byClient == c.store.byClient[d.clientId := d.orderId])
  {
  }

  /** What an ack does to the venue index, on the maps alone. */
  lemma AckedVenuesExact(s: Store, s': Store, o: Order, v: Id)
    requires s.WF() && VenueIndexExact(s) && o.orderId in s.orders && s.orders[o.orderId] == o
    requires s'.byVenue == AckedVenues(s, o, v)
    requires s'.orders.Keys == s.orders.Keys && s'.orders[o.orderId].venueId == Some(v)
    requires forall id :: id in s.orders && id != o.orderId ==> s'.orders[id] == s.orders[id]
    ensures (v != EMPTY ==> forall id :: id in s.orders && s.orders[id].venueId == Some(v) ==> id == o.orderId)
            ==> VenueIndexExact(s')
  {
  }

  lemma SharedVenueIdNotExact(s: Store, id: Id, id': Id)
    requires id in s.orders && id' in s.orders && id != id'
    requires Truthy(s.orders[id].venueId) && s.orders[id'].venueId == s.orders[id].venueId
    ensures !VenueIndexExact(s)
  {
    var v := s.orders[id].venueId.value;
    var found := if v in s.byVenue then Some(s.byVenue[v]) else None;
    assert VenueIndexExact(s) ==> found == Some(id);
  }

  lemma AckVenueIndex(c: Core, d: Call)
    requires Linked(c) && VenueIndexExact(c.store) && d.VenueAck?
    ensures Handle(c, d).Returned? ==> (VenueIndexExact(Handle(c, d).core.store) <==> VenueIdFree(c, d))
    ensures Handle(c, d).Raised? ==> Handle(c, d).core == c
  {
    hide Handle;
    AckEffect(c, d);
    if Handle(c, d).Returned? {
      var o := Target(c, d).value;
      var s' := Handle(c, d).core.store;
      if VenueIdFree(c, d) {
        AckedVenuesExact(c.store, s', o, d.venueId);
      } else {
        var id :| id in c.store.orders && c.store.orders[id].venueId == Some(d.venueId)
                  && Target(c, d) != Some(c.store.orders[id]);
        SharedVenueIdNotExact(s', id, o.orderId);
      }
    }
  }

  lemma ApplyKeepsVenueIndex(s: Store, e: Event)
    requires s.WF() && VenueIndexExact(s) && e.IsOrderEvent() && !e.CreatedEvent? && !e.AckEvent?
    ensures s.Apply(e).Some? ==> VenueIndexExact(s.Apply(e).value)
  {
    hide OrderAfter;
    if s.Apply(e).Some? && e.orderId in s.orders {
      OrderAfterKeeps(s.orders[e.orderId], e);
    }
  }

  /** Calls other than acks leave an exact index exact. */
  lemma OtherVenueIndex(c: Core, d: Call)
    requires Linked(c) && VenueIndexExact(c.store) && Fresh(c, d) && Direct(c, d) == Some(d) && !d.VenueAck?
    ensures VenueIndexExact(Handle(c, d).core.store)
    ensures Handle(c, d).Raised? ==> Handle(c, d).core.store == c.store
  {
    hide Handle;
    var o := Target(c, d);
    match d {
      case CreateOrder(_, _, _, _, _) =>
        CreateEffect(c, d);
      case VenueReject(_, _, _) =>
        RejectEffect(c, d);
        if o.Some? {
          ApplyKeepsVenueIndex(c.store, RejectedEvent(d.stamp, o.value.orderId, d.reason));
        }
      case VenueFill(_, _, _, _, _, _, _) =>
        FillEffect(c, d);
        if o.Some? {
          ApplyKeepsVenueIndex(c.store,
                               FillEvent(d.stamp, o.value.orderId, d.fillId, d.size, d.price, d.fee, d.venueFillId));
        }
      case Cancel(_, _, _, _) =>
        CancelEffect(c, d);
        if o.Some? {
          ApplyKeepsVenueIndex(c.store, CanceledEvent(d.canceled, o.value.orderId, d.cancelReason));
        }
    }
  }

  /** One call keeps the venue index exact if and only if it does not give an order the venue
      id of another order; a re-ack with a different id is harmless. */
  lemma HandleVenueIndex(c: Core, call: Call)
    requires Linked(c) && VenueIndexExact(c.store) && Fresh(c, call)
    ensures Handle(c, call).Returned? ==> (VenueIndexExact(Handle(c, call).core.store) <==> VenueIdFree(c, call))
    ensures Handle(c, call).Raised? ==> Handle(c, call).core.store == c.store
  {
    HandleDirect(c, call);
    var d := Direct(c, call);
    if d.Some? {
      assert Direct(c, d.value) == d && (VenueIdFree(c, d.value) <==> VenueIdFree(c, call));
      if d.value.VenueAck? {
        AckVenueIndex(c, d.value);
      } else {
        OtherVenueIndex(c, d.value);
      }
    }
  }

  /** An ack that goes through gives its order the venue id of another order. */
  ghost predicate SharesVenueId(c: Core, call: Call) {
    var d := Direct(c, call);
    && d.Some? && d.value.VenueAck? && !VenueIdFree(c, call)
    && var o := Target(c, d.value);
    o.Some? && Transition(o.value, Acked, None).Some?
  }

  lemma ReturnsWhenAcked(c: Core, call: Call)
    requires Linked(c)
    ensures var d := Direct(c, call);
            d.Some? && d.value.VenueAck? ==>
              var o := Target(c, d.value);
              Handle(c, call).Returned? == (o.Some? && Transition(o.value, Acked, None).Some?)
  {
    hide Handle;
    HandleDirect(c, call);
    if Direct(c, call).Some? && Direct(c, call).value.VenueAck? {
      AckEffect(c, Direct(c, call).value);
    }
  }

  lemma VenueIndexStep(c: Core, call: Call)
    requires Linked(c) && VenueIndexExact(c.store) && Fresh(c, call)
    ensures VenueIndexExact(Handle(c, call).core.store) <==> !SharesVenueId(c, call)
  {
    hide Handle, Linked, VenueIndexExact;
    HandleVenueIndex(c, call);
    ReturnsWhenAcked(c, call);
  }

  /** After the first `n` calls the venue index is exact. */
  ghost predicate VenueIndexExactAfter(calls: seq<Call>, n: int)
    requires 0 <= n <= |calls|
  {
    VenueIndexExact(Run(INITIAL, calls[..n]).store)
  }

  ghost predicate SharedAt(calls: seq<Call>, n: int)
    requires 0 <= n < |calls|
  {
    SharesVenueId(Run(INITIAL, calls[..n]), calls[n])
  }

  lemma VenueIndexNext(calls: seq<Call>, n: nat)
    requires FreshRun(INITIAL, calls) && n < |calls| && VenueIndexExactAfter(calls, n)
    ensures VenueIndexExactAfter(calls, n + 1) <==> !SharedAt(calls, n)
  {
    hide Handle, Linked, Fresh, VenueIndexExact, SharesVenueId;
    var front, next := calls[..n], calls[..n + 1];
    assert next[..|next| - 1] == front && next[|next| - 1] == calls[n];
    FreshPrefix(calls, n + 1);
    RunKeepsLinked(front);
    VenueIndexStep(Run(INITIAL, front), calls[n]);
  }

  lemma {:induction false} VenueIndexWhileUnshared(calls: seq<Call>, n: nat)
    requires FreshRun(INITIAL, calls) && n <= |calls|
    requires forall i :: 0 <= i < |calls| ==> !SharedAt(calls, i)
    ensures VenueIndexExactAfter(calls, n)
  {
    if n == 0 {
      assert calls[..0] == [];
    } else {
      hide Run, VenueIndexExact, SharesVenueId;
      VenueIndexWhileUnshared(calls, n - 1);
      VenueIndexNext(calls, n - 1);
    }
  }

  /** In every run the venue index is exact at every moment if and only if no ack that goes through
      gives an order the venue id of another one; re-acks that change an order's own id are
      harmless. */
  lemma RunVenueIndexIff(calls: seq<Call>)
    requires FreshRun(INITIAL, calls)
    ensures (forall n :: 0 <= n <= |calls| ==> VenueIndexExactAfter(calls, n))
       <==> (forall n :: 0 <= n < |calls| ==> !SharedAt(calls, n))
  {
    hide Run, VenueIndexExact, SharesVenueId;
    if forall n :: 0 <= n <= |calls| ==> VenueIndexExactAfter(calls, n) {
      forall n | 0 <= n < |calls| ensures !SharedAt(calls, n) {
        assert VenueIndexExactAfter(calls, n) && VenueIndexExactAfter(calls, n + 1);
        VenueIndexNext(calls, n);
      }
    }
    if forall n :: 0 <= n < |calls| ==> !SharedAt(calls, n) {
      forall n | 0 <= n <= |calls| ensures VenueIndexExactAfter(calls, n) {
        VenueIndexWhileUnshared(calls, n);
      }
    }
  }

  /** With venue ids distinct across orders it is exact at the end of every run. */
  lemma RunVenueIndex(calls: seq<Call>)
    requires FreshRun(INITIAL, calls)
    requires forall i :: 0 <= i < |calls| ==> VenueIdFree(Run(INITIAL, calls[..i]), calls[i])
    ensures VenueIndexExact(Run(INITIAL, calls).store)
  {
    hide VenueIdFree, Run, VenueIndexExact;
    assert calls[..|calls|] == calls;
    VenueIndexWhileUnshared(calls, |calls|);
  }
}
