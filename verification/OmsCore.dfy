/** Order lifecycle management (polytrader/oms/core.py, polytrader/oms/idempotency.py).

    Each handler is described by the segments between its awaits: `Start` runs a call up to its
    first await, `Resume` continues a suspended handler from the local variables in its frame.
    `Handle` runs a call to the end without interleaving. */
module OmsCore {
  import opened Prelude
  import opened OrderModel
  import opened EventLog
  import opened OrderStore

  /** `tracked` holds the keys of the timestamp dictionary: create_order looks its own order up
      there after an await, and raises if another handler has removed it meanwhile. */
  datatype Core = Core(store: Store, idem: map<Id, Id>, tracked: set<Id>, bus: Bus)
  {
    function Publish(t: Topic, m: Message): Core {
      this.(bus := bus.Publish(t, m))
    }
  }

  /** Order ids, event ids and clock readings that a handler draws are part of the call; the
      idempotency key of an intent is `clientId`. */
  datatype Call =
    | CreateOrder(intent: Intent, clientId: Id, orderId: Id, created: Stamp, submitted: Stamp)
    | VenueAck(clientId: Id, venueId: Id, stamp: Stamp)
    | VenueReject(clientId: Id, reason: Id, stamp: Stamp)
    | VenueFill(clientId: Id, size: real, price: real, fee: real, fillId: Id, venueFillId: Option<Id>, stamp: Stamp)
    | Cancel(clientId: Id, cancelReason: Option<Id>, requested: Stamp, canceled: Stamp)
    | CanonicalAck(clientRef: Option<Id>, venueId: Id, stamp: Stamp)
    | CanonicalReject(clientRef: Option<Id>, reason: Id, stamp: Stamp)
    | CanonicalFill(clientRef: Option<Id>, venueRef: Option<Id>, size: real, price: real, fee: real, fillId: Id,
                    venueFillId: Option<Id>, stamp: Stamp)
    | CanonicalCancel(clientRef: Option<Id>, venueRef: Option<Id>, cancelReason: Option<Id>, requested: Stamp,
                      canceled: Stamp)

  /** What a handler suspended at an await still has to do, with the locals it keeps. */
  datatype Frame =
    | CreatedPublished(event: Event, order: Order, submitted: Stamp)
    | CommandPublished(order: Order, submitted: Stamp)
    | CancelRequestPublished(command: CancelOrderCommand, event: Event)
    | CancelCommandPublished(event: Event)
    | EventPublished(event: Event)
  {
    ghost predicate WellFormed() {
      match this
      case CreatedPublished(e, o, _) =>
        e.CreatedEvent? && o == NewOrder(e.orderId, e.clientId, e.intent)
      case CommandPublished(o, _) => o == NewOrder(o.orderId, o.clientId, o.intent).(state := PendingSubmit)
      case CancelRequestPublished(_, e) => e.CanceledEvent?
      case CancelCommandPublished(e) => e.CanceledEvent?
      case EventPublished(e) =>
        e.IsOrderEvent() && !e.CreatedEvent? && (e.FillEvent? ==> ValidFill(e.size, e.price, e.fee))
    }

    function Stage(): nat {
      match this
      case EventPublished(_) => 0
      case CancelCommandPublished(_) => 1
      case CommandPublished(_, _) => 1
      case _ => 2
    }
  }

  datatype Progress =
    | Suspended(core: Core, frame: Frame)
    | Returned(core: Core)
    | Raised(core: Core)
  {
    ghost predicate WF() {
      core.store.WF() && (Suspended? ==> frame.WellFormed())
    }
  }

  function TopicOf(e: Event): Topic
    requires e.IsOrderEvent()
  {
    match e
    case CreatedEvent(_, _, _, _) => OrderCreatedTopic
    case SubmittedEvent(_, _, _) => OrderSubmittedTopic
    case AckEvent(_, _, _) => OrderAcksTopic
    case RejectedEvent(_, _, _) => OrderRejectsTopic
    case FillEvent(_, _, _, _, _, _, _) => FillsTopic
    case CanceledEvent(_, _, _) => OrderCancelsTopic
  }

  function PublishEvent(c: Core, e: Event): Progress
    requires e.IsOrderEvent()
  {
    Suspended(c.Publish(TopicOf(e), EventMessage(e)), EventPublished(e))
  }

  // ---- From the call to the first await ----------------------------------------------

  function StartCreate(c: Core, intent: Intent, clientId: Id, orderId: Id, created: Stamp,
                       submitted: Stamp): (p: Progress)
    requires c.store.WF()
    ensures p.WF()
  {
    if clientId in c.idem && c.idem[clientId] != EMPTY && c.idem[clientId] in c.store.orders then Returned(c)
    else
      var e := CreatedEvent(created, orderId, clientId, intent);
      Suspended(
        c.(store := c.store.Insert(intent, clientId, orderId)).Publish(OrderCreatedTopic, EventMessage(e)),
        CreatedPublished(e, NewOrder(orderId, clientId, intent), submitted))
  }

  function StartAck(c: Core, clientId: Id, venueId: Id, stamp: Stamp): (p: Progress)
    requires c.store.WF()
    ensures p.WF()
  {
    var order := c.store.GetByClient(clientId);
    if order.None? then Raised(c) else
    var acked := Transition(order.value, Acked, None);
    if acked.None? then Raised(c) else
    var store := c.store.Update(acked.value.(venueId := Some(venueId)));
    if store.None? then Raised(c)
    else PublishEvent(c.(store := store.value), AckEvent(stamp, order.value.orderId, venueId))
  }

  function StartReject(c: Core, clientId: Id, reason: Id, stamp: Stamp): (p: Progress)
    requires c.store.WF()
    ensures p.WF()
  {
    var order := c.store.GetByClient(clientId);
    if order.None? then Raised(c)
    else PublishEvent(c.(tracked := c.tracked - {order.value.orderId}),
                      RejectedEvent(stamp, order.value.orderId, reason))
  }

  function StartFill(c: Core, clientId: Id, size: real, price: real, fee: real, fillId: Id, venueFillId: Option<Id>,
                     stamp: Stamp): (p: Progress)
    requires c.store.WF()
    ensures p.WF()
  {
    var order := c.store.GetByClient(clientId);
    if order.None? || order.value.filled + size > order.value.Size() || !ValidFill(size, price, fee) then Raised(c)
    else PublishEvent(c, FillEvent(stamp, order.value.orderId, fillId, size, price, fee, venueFillId))
  }

  function StartCancel(c: Core, clientId: Id, reason: Option<Id>, requested: Stamp, canceled: Stamp): (p: Progress)
    requires c.store.WF()
    ensures p.WF()
  {
    var order := c.store.GetByClient(clientId);
    if order.None? || order.value.Terminal() then Raised(c)
    else
      var o := order.value;
      Suspended(
        c.(tracked := c.tracked - {o.orderId})
        .Publish(CancelRequestedTopic, EventMessage(CancelRequestedEvent(requested, o.orderId, clientId, reason))),
        CancelRequestPublished(CancelOrderCommand(o.orderId, clientId, o.venueId, reason),
                               CanceledEvent(canceled, o.orderId, reason)))
  }

  /** The order a venue update refers to: by client id when it carries one that is known,
      otherwise by venue id. */
  function Locate(s: Store, clientRef: Option<Id>, venueRef: Option<Id>): Option<Order> {
    var found := if Truthy(clientRef) then s.GetByClient(clientRef.value) else None;
    if found.Some? then found
    else if Truthy(venueRef) then s.GetByVenue(venueRef.value)
    else None
  }

  function Start(c: Core, call: Call): (p: Progress)
    requires c.store.WF()
    ensures p.WF()
  {
    match call
    case CreateOrder(intent, clientId, orderId, created, submitted) =>
      StartCreate(c, intent, clientId, orderId, created, submitted)
    case VenueAck(clientId, venueId, stamp) => StartAck(c, clientId, venueId, stamp)
    case VenueReject(clientId, reason, stamp) => StartReject(c, clientId, reason, stamp)
    case VenueFill(clientId, size, price, fee, fillId, venueFillId, stamp) =>
      StartFill(c, clientId, size, price, fee, fillId, venueFillId, stamp)
    case Cancel(clientId, reason, requested, canceled) => StartCancel(c, clientId, reason, requested, canceled)
    case CanonicalAck(clientRef, venueId, stamp) =>
      var order := Locate(c.store, clientRef, Some(venueId));
      if order.None? then Returned(c) else StartAck(c, order.value.clientId, venueId, stamp)
    case CanonicalReject(clientRef, reason, stamp) =>
      var order := Locate(c.store, clientRef, None);
      if order.None? then Returned(c) else StartReject(c, order.value.clientId, reason, stamp)
    case CanonicalFill(clientRef, venueRef, size, price, fee, fillId, venueFillId, stamp) =>
      var order := Locate(c.store, clientRef, venueRef);
      if order.None? then Returned(c)
      else StartFill(c, order.value.clientId, size, price, fee, fillId, venueFillId, stamp)
    case CanonicalCancel(clientRef, venueRef, reason, requested, canceled) =>
      var order := Locate(c.store, clientRef, venueRef);
      if order.None? then Returned(c)
      else StartCancel(c, order.value.clientId, reason, requested, canceled)
  }

  // ---- From one await to the next ----------------------------------------------------

  function Resume(c: Core, f: Frame): (p: Progress)
    requires c.store.WF() && f.WellFormed()
    ensures p.WF()
    ensures p.Suspended? ==> p.frame.Stage() < f.Stage()
  {
    match f
    case CreatedPublished(e, order, submitted) =>
      var c1 := c.(store := c.store.ApplyCreated(e), tracked := c.tracked + {order.orderId});
      if order.clientId in c1.idem && c1.idem[order.clientId] != order.orderId then Raised(c1)
      else
        var c2 := c1.(idem := c1.idem[order.clientId := order.orderId]);
        var pending := order.(state := PendingSubmit);
        var store := c2.store.Update(pending);
        if store.None? then Raised(c2)
        else
          var command := SubmitOrderCommand(order.orderId, order.clientId, order.intent);
          Suspended(
            c2.(store := store.value).Publish(SubmitCommandsTopic, SubmitMessage(command)),
            CommandPublished(pending, submitted))
    case CommandPublished(order, submitted) =>
      var store := c.store.Update(order.(state := Submitted));
      if store.None? then Raised(c)
      else if order.orderId !in c.tracked then Raised(c.(store := store.value))
      else PublishEvent(c.(store := store.value), SubmittedEvent(submitted, order.orderId, order.clientId))
    case CancelRequestPublished(command, e) =>
      Suspended(c.Publish(CancelCommandsTopic, CancelMessage(command)), CancelCommandPublished(e))
    case CancelCommandPublished(e) => PublishEvent(c, e)
    case EventPublished(e) =>
      var store := c.store.Apply(e);
      if store.None? then Raised(c)
      else
        var done := e.FillEvent? && e.orderId in store.value.orders && store.value.orders[e.orderId].Terminal();
        Returned(c.(store := store.value, tracked := if done then c.tracked - {e.orderId} else c.tracked))
  }

  /** Runs a handler to its end. */
  function Finish(p: Progress): (r: Progress)
    requires p.WF()
    ensures r.WF() && !r.Suspended?
    decreases if p.Suspended? then p.frame.Stage() + 1 else 0
  {
    if p.Suspended? then Finish(Resume(p.core, p.frame)) else p
  }

  /** A call handled without interleaving. */
  function Handle(c: Core, call: Call): (r: Progress)
    requires c.store.WF()
    ensures r.WF() && !r.Suspended?
  {
    Finish(Start(c, call))
  }

  lemma FinishStep(p: Progress)
    requires p.WF() && p.Suspended?
    ensures Finish(p) == Finish(Resume(p.core, p.frame))
    ensures !Resume(p.core, p.frame).Suspended? ==> Finish(p) == Resume(p.core, p.frame)
  {
  }

  // ---- The objects -------------------------------------------------------------------

  class IdempotencyStore {
    var mappings: map<Id, Id>

    constructor ()
      ensures mappings == map[]
    {
      mappings := map[];
    }

    /** Raises (ok is false) exactly when the key is taken by another order. */
    method RecordOrder(clientId: Id, orderId: Id) returns (ok: bool)
      modifies this
      ensures ok == !(clientId in old(mappings) && old(mappings)[clientId] != orderId)
      ensures mappings == if ok then old(mappings)[clientId := orderId] else old(mappings)
    {
      if clientId in mappings {
        return mappings[clientId] == orderId;
      }
      mappings := mappings[clientId := orderId];
      return true;
    }

    method GetOrderId(clientId: Id) returns (r: Option<Id>)
      ensures r == if clientId in mappings then Some(mappings[clientId]) else None
    {
      r := if clientId in mappings then Some(mappings[clientId]) else None;
    }
  }

  class OMSCore {
    const bus: EventBus
    const store: InMemoryOrderStore
    const idempotency: IdempotencyStore
    /** generate_client_order_id: any function of the intent. */
    const keyOf: Intent -> Id
    var orderTimestamps: set<Id>

    ghost predicate Valid()
      reads this, store
    {
      store.bus == bus && store.View().WF()
    }

    function View(): Core
      reads this, store, idempotency, bus, bus.store
    {
      Core(store.View(), idempotency.mappings, orderTimestamps, bus.View())
    }

    constructor (bus: EventBus, store: InMemoryOrderStore, idempotency: IdempotencyStore, keyOf: Intent -> Id)
      requires store.bus == bus && store.View().WF()
      ensures Valid() && this.bus == bus && this.store == store && this.idempotency == idempotency
      ensures this.keyOf == keyOf
      ensures View() == Core(store.View(), idempotency.mappings, {}, bus.View())
    {
      this.bus := bus;
      this.store := store;
      this.idempotency := idempotency;
      this.keyOf := keyOf;
      orderTimestamps := {};
    }

    /** The stored order that the key is registered for. */
    function KnownOrder(clientId: Id): Option<Order>
      reads this, store, idempotency
    {
      var mappings := idempotency.mappings;
      if clientId in mappings && mappings[clientId] != EMPTY then store.View().GetOrder(mappings[clientId]) else None
    }

    /** Raises when `order` is None. Otherwise returns the order registered under the intent's key,
        or the caller's own copy of the new order as it was submitted. */
    method CreateOrder(intent: Intent, orderId: Id, created: Stamp, submitted: Stamp) returns (order: Option<Order>)
      requires Valid()
      modifies this, store, idempotency, bus, bus.store
      ensures Valid()
      ensures var r := Handle(old(View()), Call.CreateOrder(intent, keyOf(intent), orderId, created, submitted));
              View() == r.core && order.Some? == r.Returned?
      ensures var known := old(KnownOrder(keyOf(intent)));
              order.Some? ==>
                order.value == if known.Some? then known.value
                else NewOrder(orderId, keyOf(intent), intent).(state := Submitted)
    {
      var clientId := keyOf(intent);
      ghost var p0 := Start(View(), Call.CreateOrder(intent, clientId, orderId, created, submitted));
      var existing := idempotency.GetOrderId(clientId);
      if Truthy(existing) {
        order := store.GetOrder(existing.value);
        if order.Some? {
          return;
        }
      }
      var o := store.CreateOrder(intent, clientId, orderId, created);
      ghost var p1 := Resume(p0.core, p0.frame);
      FinishStep(p0);
      var ok := RequestSubmission(p0.core, p0.frame, o);
      if !ok {
        return None;
      }
      o := o.(state := PendingSubmit);
      FinishStep(p1);
      ok := MarkSubmitted(p1.core, p1.frame, o, submitted);
      order := if ok then Some(o.(state := Submitted)) else None;
    }

    /** Steps 4 to 6 of create_order, on the freshly created order. */
    method RequestSubmission(ghost c: Core, ghost f: Frame, o: Order) returns (ok: bool)
      requires store.bus == bus && c.store.WF() && f.WellFormed() && f.CreatedPublished? && f.order == o
      requires View() == c.(store := c.store.ApplyCreated(f.event))
      modifies this, store, idempotency, bus, bus.store
      ensures Valid()
      ensures View() == Resume(c, f).core && ok == Resume(c, f).Suspended?
    {
      orderTimestamps := orderTimestamps + {o.orderId};
      ok := idempotency.RecordOrder(o.clientId, o.orderId);
      if !ok {
        return;
      }
      ok := store.UpdateOrder(o.(state := PendingSubmit));
      if !ok {
        return;
      }
      bus.Publish(SubmitCommandsTopic, SubmitMessage(SubmitOrderCommand(o.orderId, o.clientId, o.intent)));
    }

    /** Steps 7 and 8 of create_order. */
    method MarkSubmitted(ghost c: Core, ghost f: Frame, o: Order, submitted: Stamp) returns (ok: bool)
      requires Valid() && c == View() && f.WellFormed()
      requires f.CommandPublished? && f.order == o && f.submitted == submitted
      modifies store, bus, bus.store
      ensures Valid()
      ensures var r := Finish(Resume(c, f)); View() == r.core && ok == r.Returned?
    {
      ghost var p := Resume(c, f);
      ok := store.UpdateOrder(o.(state := Submitted));
      if !ok {
        return;
      }
      if o.orderId !in orderTimestamps {
        return false;
      }
      var event := SubmittedEvent(submitted, o.orderId, o.clientId);
      bus.Publish(OrderSubmittedTopic, EventMessage(event));
      assert View() == p.core;
      FinishStep(p);
      ok := store.HandleOrderSubmitted(event);
    }

    method HandleVenueAck(clientId: Id, venueId: Id, stamp: Stamp) returns (ok: bool)
      requires Valid()
      modifies this, store, bus, bus.store
      ensures Valid()
      ensures var r := Handle(old(View()), VenueAck(clientId, venueId, stamp));
              View() == r.core && ok == r.Returned?
    {
      ghost var p0 := Start(View(), VenueAck(clientId, venueId, stamp));
      var found := store.GetOrderByClientId(clientId);
      if found.None? {
        return false;
      }
      var acked := Transition(found.value, Acked, None);
      if acked.None? {
        return false;
      }
      ok := store.UpdateOrder(acked.value.(venueId := Some(venueId)));
      if !ok {
        return false;
      }
      var event := AckEvent(stamp, found.value.orderId, venueId);
      bus.Publish(OrderAcksTopic, EventMessage(event));
      assert View() == p0.core;
      FinishStep(p0);
      ok := store.HandleOrderAck(event);
    }

    method HandleVenueReject(clientId: Id, reason: Id, stamp: Stamp) returns (ok: bool)
      requires Valid()
      modifies this, store, bus, bus.store
      ensures Valid()
      ensures var r := Handle(old(View()), VenueReject(clientId, reason, stamp));
              View() == r.core && ok == r.Returned?
    {
      ghost var p0 := Start(View(), VenueReject(clientId, reason, stamp));
      var found := store.GetOrderByClientId(clientId);
      if found.None? {
        return false;
      }
      orderTimestamps := orderTimestamps - {found.value.orderId};
      var event := RejectedEvent(stamp, found.value.orderId, reason);
      bus.Publish(OrderRejectsTopic, EventMessage(event));
      assert View() == p0.core;
      FinishStep(p0);
      ok := store.HandleOrderRejected(event);
    }

    method HandleFill(clientId: Id, size: real, price: real, fee: real, fillId: Id, venueFillId: Option<Id>,
                      stamp: Stamp) returns (ok: bool)
      requires Valid()
      modifies this, store, bus, bus.store
      ensures Valid()
      ensures var r := Handle(old(View()), VenueFill(clientId, size, price, fee, fillId, venueFillId, stamp));
              View() == r.core && ok == r.Returned?
    {
      ghost var p0 := Start(View(), VenueFill(clientId, size, price, fee, fillId, venueFillId, stamp));
      var found := store.GetOrderByClientId(clientId);
      if found.None? {
        return false;
      }
      if found.value.filled + size > found.value.Size() {
        return false;
      }
      if !ValidFill(size, price, fee) {
        return false;
      }
      var event := FillEvent(stamp, found.value.orderId, fillId, size, price, fee, venueFillId);
      bus.Publish(FillsTopic, EventMessage(event));
      assert View() == p0.core;
      FinishStep(p0);
      ok := store.HandleFill(event);
      if !ok {
        return false;
      }
      var updated := store.GetOrder(found.value.orderId);
      if updated.Some? && updated.value.Terminal() {
        orderTimestamps := orderTimestamps - {updated.value.orderId};
      }
    }

    method HandleCancel(clientId: Id, reason: Option<Id>, requested: Stamp, canceled: Stamp) returns (ok: bool)
      requires Valid()
      modifies this, store, bus, bus.store
      ensures Valid()
      ensures var r := Handle(old(View()), Cancel(clientId, reason, requested, canceled));
              View() == r.core && ok == r.Returned?
    {
      ghost var p0 := Start(View(), Cancel(clientId, reason, requested, canceled));
      var found := store.GetOrderByClientId(clientId);
      if found.None? || found.value.Terminal() {
        return false;
      }
      var o := found.value;
      orderTimestamps := orderTimestamps - {o.orderId};
      bus.Publish(CancelRequestedTopic, EventMessage(CancelRequestedEvent(requested, o.orderId, clientId, reason)));
      assert View() == p0.core;
      ghost var p1 := Resume(p0.core, p0.frame);
      FinishStep(p0);
      FinishStep(p1);
      bus.Publish(CancelCommandsTopic, CancelMessage(CancelOrderCommand(o.orderId, clientId, o.venueId, reason)));
      assert View() == p1.core;
      ghost var p2 := Resume(p1.core, p1.frame);
      FinishStep(p2);
      var event := CanceledEvent(canceled, o.orderId, reason);
      bus.Publish(OrderCancelsTopic, EventMessage(event));
      assert View() == p2.core;
      ok := store.HandleOrderCanceled(event);
    }

    method FindOrder(clientRef: Option<Id>, venueRef: Option<Id>) returns (r: Option<Order>)
      ensures r == Locate(store.View(), clientRef, venueRef)
    {
      r := None;
      if Truthy(clientRef) {
        r := store.GetOrderByClientId(clientRef.value);
      }
      if r.None? && Truthy(venueRef) {
        r := store.GetOrderByVenueId(venueRef.value);
      }
    }

    method HandleCanonicalAck(clientRef: Option<Id>, venueId: Id, stamp: Stamp) returns (ok: bool)
      requires Valid()
      modifies this, store, bus, bus.store
      ensures Valid()
      ensures var r := Handle(old(View()), CanonicalAck(clientRef, venueId, stamp));
              View() == r.core && ok == r.Returned?
    {
      hide Resume;
      var order := FindOrder(clientRef, Some(venueId));
      if order.None? {
        return true;
      }
      ok := HandleVenueAck(order.value.clientId, venueId, stamp);
    }

    method HandleCanonicalReject(clientRef: Option<Id>, reason: Id, stamp: Stamp) returns (ok: bool)
      requires Valid()
      modifies this, store, bus, bus.store
      ensures Valid()
      ensures var r := Handle(old(View()), CanonicalReject(clientRef, reason, stamp));
              View() == r.core && ok == r.Returned?
    {
      hide Resume;
      var order := FindOrder(clientRef, None);
      if order.None? {
        return true;
      }
      ok := HandleVenueReject(order.value.clientId, reason, stamp);
    }

    method HandleCanonicalFill(clientRef: Option<Id>, venueRef: Option<Id>, size: real, price: real, fee: real,
                               fillId: Id, venueFillId: Option<Id>, stamp: Stamp) returns (ok: bool)
      requires Valid()
      modifies this, store, bus, bus.store
      ensures Valid()
      ensures var r := Handle(old(View()),
                              CanonicalFill(clientRef, venueRef, size, price, fee, fillId, venueFillId, stamp));
              View() == r.core && ok == r.Returned?
    {
      hide Resume;
      var order := FindOrder(clientRef, venueRef);
      if order.None? {
        return true;
      }
      ok := HandleFill(order.value.clientId, size, price, fee, fillId, venueFillId, stamp);
    }

    method HandleCanonicalCancel(clientRef: Option<Id>, venueRef: Option<Id>, reason: Option<Id>, requested: Stamp,
                                 canceled: Stamp) returns (ok: bool)
      requires Valid()
      modifies this, store, bus, bus.store
      ensures Valid()
      ensures var r := Handle(old(View()), CanonicalCancel(clientRef, venueRef, reason, requested, canceled));
              View() == r.core && ok == r.Returned?
    {
      hide Resume;
      var order := FindOrder(clientRef, venueRef);
      if order.None? {
        return true;
      }
      ok := HandleCancel(order.value.clientId, reason, requested, canceled);
    }
  }
}
