/** The order projection and its event handlers (polytrader/oms/store.py). */
module OrderStore {
  import opened Prelude
  import opened OrderModel
  import opened EventLog

  function WeightedAverage(avg: real, filled: real, price: real, size: real): (r: real)
    requires filled + size != 0.0
    ensures r * (filled + size) == avg * filled + price * size
  {
    (avg * filled + price * size) / (filled + size)
  }

  /** The order an event turns `o` into, or None where the handler raises. */
  function OrderAfter(o: Order, e: Event): (r: Option<Order>)
    requires e.IsOrderEvent() && !e.CreatedEvent?
    ensures r.Some? ==> r.value.orderId == o.orderId
  {
    match e
    case SubmittedEvent(_, _, _) =>
      var pending := if o.state == New then Transition(o, PendingSubmit, None) else Some(o);
      if pending.None? then None else Transition(pending.value, Submitted, None)
    case AckEvent(_, _, venueId) =>
      var acked := Transition(o, Acked, None);
      if acked.None? then None else Some(acked.value.(venueId := Some(venueId)))
    case RejectedEvent(_, _, reason) =>
      var pending := if o.state == New then Transition(o, PendingSubmit, None) else Some(o);
      if pending.None? then None else
      var submitted :=
        if pending.value.state == PendingSubmit then Transition(pending.value, Submitted, None) else pending;
      if submitted.None? then None else Transition(submitted.value, Rejected, Some(reason))
    case FillEvent(_, _, _, size, price, _, _) =>
      var filled := o.filled + size;
      if o.avgPrice.Some? && filled == 0.0 then None else
      var avg := if o.avgPrice.None? then price else WeightedAverage(o.avgPrice.value, o.filled, price, size);
      var updated := o.(filled := filled, avgPrice := Some(avg));
      if filled >= o.Size() then Transition(updated, Filled, None)
      else if o.state == Acked then Transition(updated, PartiallyFilled, None)
      else Some(updated)
    case CanceledEvent(_, _, reason) =>
      Transition(o, Cancelled, reason)
  }

  /** No event changes whose order it is, and fills only add up. */
  lemma OrderAfterKeeps(o: Order, e: Event)
    requires e.IsOrderEvent() && !e.CreatedEvent?
    ensures var r := OrderAfter(o, e);
            r.Some? ==>
              && r.value.orderId == o.orderId && r.value.clientId == o.clientId && r.value.intent == o.intent
              && (o.filled >= 0.0 && (e.FillEvent? ==> e.size > 0.0) ==> r.value.filled >= 0.0)
              && (!e.AckEvent? ==> r.value.venueId == o.venueId)
  {
    hide WeightedAverage;
  }

  // ---- What each event makes of an order, field by field -------------------------------

  lemma SubmittedOutcome(o: Order, e: Event)
    requires e.SubmittedEvent?
    ensures OrderAfter(o, e) ==
            if o.state in {New, PendingSubmit, Submitted} then Some(o.(state := Submitted)) else None
  {
  }

  lemma AckOutcome(o: Order, e: Event)
    requires e.AckEvent?
    ensures OrderAfter(o, e) ==
            if o.state in {Submitted, Acked} then Some(o.(state := Acked, venueId := Some(e.venueId))) else None
  {
  }

  /** A reject of a rejected order changes nothing, its reason included; an empty reason is not
      recorded. */
  lemma RejectOutcome(o: Order, e: Event)
    requires e.RejectedEvent?
    ensures OrderAfter(o, e) ==
            if o.state == Rejected then Some(o)
            else if o.state !in {New, PendingSubmit, Submitted} then None
            else if e.reason == 0 then Some(o.(state := Rejected))
            else Some(o.(state := Rejected, rejectReason := Some(e.reason)))
  {
  }

  lemma CancelOutcome(o: Order, e: Event)
    requires e.CanceledEvent?
    ensures OrderAfter(o, e) ==
            if o.state in {PendingSubmit, Acked, PartiallyFilled, Cancelled} then Some(o.(state := Cancelled)) else None
  {
  }

  /** A fill adds its size; it completes the order or is partial, and only an acked order shows
      that in its state. */
  lemma FillOutcome(o: Order, e: Event)
    requires e.FillEvent? && e.size > 0.0 && o.filled >= 0.0
    ensures var r, full := OrderAfter(o, e), o.filled + e.size >= o.Size();
            && (r.None? <==> full && o.state !in {Acked, PartiallyFilled, Filled})
            && (r.Some? ==>
                  && r.value == o.(filled := o.filled + e.size, avgPrice := r.value.avgPrice, state := r.value.state)
                  && r.value.state == (if full then Filled else if o.state == Acked then PartiallyFilled else o.state)
                  && r.value.avgPrice.Some?
                  && (o.avgPrice.None? ==> r.value.avgPrice.value == e.price)
                  && (o.avgPrice.Some? ==> r.value.avgPrice.value * (o.filled + e.size) ==
                                           o.avgPrice.value * o.filled + e.price * e.size))
  {
  }

  datatype Store = Store(
    orders: map<Id, Order>,
    byClient: map<Id, Id>,
    byVenue: map<Id, Id>,
    history: map<Id, seq<Event>>)
  {
    /** Every order has a history and is filed under its own id. */
    ghost predicate WF() {
      && orders.Keys == history.Keys
      && forall id :: id in orders ==> orders[id].orderId == id
    }

    function GetOrder(id: Id): Option<Order> {
      if id in orders then Some(orders[id]) else None
    }

    function GetByClient(clientId: Id): Option<Order> {
      if clientId in byClient && byClient[clientId] != EMPTY then GetOrder(byClient[clientId]) else None
    }

    function GetByVenue(venueId: Id): Option<Order> {
      if venueId in byVenue && byVenue[venueId] != EMPTY then GetOrder(byVenue[venueId]) else None
    }

    /** create_order up to its publication. */
    function Insert(intent: Intent, clientId: Id, orderId: Id): Store {
      Store(
        orders[orderId := NewOrder(orderId, clientId, intent)],
        byClient[clientId := orderId],
        byVenue,
        history[orderId := []])
    }

    function ApplyCreated(e: Event): (r: Store)
      requires WF() && e.CreatedEvent?
      ensures r.WF()
    {
      var s := if e.orderId in orders then this else Insert(e.intent, e.clientId, e.orderId);
      s.(history := s.history[e.orderId := s.history[e.orderId] + [e]])
    }

    /** update_order, or None where it raises. */
    function Update(o: Order): (r: Option<Store>)
      requires WF()
      ensures r.Some? ==> r.value.WF()
    {
      if o.orderId !in orders then None else
      var existing := orders[o.orderId];
      if existing.state != o.state && !CanTransition(existing.state, o.state) then None else
      var clients :=
        if o.clientId == existing.clientId then byClient
        else (byClient - {existing.clientId})[o.clientId := o.orderId];
      var venues :=
        if o.venueId == existing.venueId then byVenue
        else
          var rest := if Truthy(existing.venueId) then byVenue - {existing.venueId.value} else byVenue;
          if Truthy(o.venueId) then rest[o.venueId.value := o.orderId] else rest;
      Some(Store(orders[o.orderId := o], clients, venues, history))
    }

    /** The effect of replaying or handling one event, or None where the handler raises. */
    function Apply(e: Event): (r: Option<Store>)
      requires WF()
      ensures r.Some? ==> r.value.WF()
    {
      if e.CreatedEvent? then Some(ApplyCreated(e))
      else if !e.IsOrderEvent() || e.orderId !in orders then Some(this)
      else
        var o := OrderAfter(orders[e.orderId], e);
        if o.None? then None
        else Some(Store(
                    orders[e.orderId := o.value],
                    byClient,
                    if e.AckEvent? && e.venueId != EMPTY then byVenue[e.venueId := e.orderId] else byVenue,
                    history[e.orderId := history[e.orderId] + [e]]))
    }
  }

  /** A lookup finds the order that the index names, if it is stored; an entry with an empty order id
      is no entry. */
  lemma LookupsIff(s: Store, k: Id, o: Order)
    ensures s.GetByClient(k) == Some(o) <==>
            k in s.byClient && s.byClient[k] != 0 && s.byClient[k] in s.orders && s.orders[s.byClient[k]] == o
    ensures s.GetByVenue(k) == Some(o) <==>
            k in s.byVenue && s.byVenue[k] != 0 && s.byVenue[k] in s.orders && s.orders[s.byVenue[k]] == o
  {
  }

  /** An update is refused for an unknown order and for a change of state that is no edge. Otherwise
      it installs the order and moves its entries in the two indexes, dropping those of the ids the
      order had before. */
  lemma UpdateMoves(s: Store, o: Order)
    requires s.WF()
    ensures s.Update(o).None? <==>
            o.orderId !in s.orders
            || (o.state != s.orders[o.orderId].state && (s.orders[o.orderId].state, o.state) !in TRANSITIONS)
    ensures s.Update(o).Some? ==>
              var t, was := s.Update(o).value, s.orders[o.orderId];
              && t.orders == s.orders[o.orderId := o] && t.history == s.history
              && (was.clientId == o.clientId ==> t.byClient == s.byClient)
              && (was.clientId != o.clientId ==>
                    && was.clientId !in t.byClient && o.clientId in t.byClient && t.byClient[o.clientId] == o.orderId
                    && (forall k :: k != was.clientId && k != o.clientId ==>
                                      SameEntry(t.byClient, s.byClient, k)))
              && (was.venueId == o.venueId ==> t.byVenue == s.byVenue)
              && (was.venueId != o.venueId ==>
                    && (Truthy(was.venueId) ==> was.venueId.value !in t.byVenue)
                    && (Truthy(o.venueId) ==> o.venueId.value in t.byVenue && t.byVenue[o.venueId.value] == o.orderId)
                    && (forall v :: v != EMPTY && Some(v) != was.venueId && Some(v) != o.venueId ==>
                                      SameEntry(t.byVenue, s.byVenue, v)))
  {
  }

  predicate SameEntry(a: map<Id, Id>, b: map<Id, Id>, k: Id) {
    (k in a <==> k in b) && (k in a && k in b ==> a[k] == b[k])
  }

  /** An event of an unknown order is passed over, unless it creates the order; a second creation is
      recorded and changes nothing else. */
  lemma UnknownPassedOver(s: Store, e: Event)
    requires s.WF() && e.IsOrderEvent()
    ensures e.orderId !in s.orders && !e.CreatedEvent? ==> s.Apply(e) == Some(s)
    ensures e.orderId in s.orders && e.CreatedEvent? ==>
              s.Apply(e) == Some(s.(history := s.history[e.orderId := s.history[e.orderId] + [e]]))
    ensures e.orderId !in s.orders && e.CreatedEvent? ==>
              s.Apply(e) == Some(Store(
                                   s.orders[e.orderId := NewOrder(e.orderId, e.clientId, e.intent)],
                                   s.byClient[e.clientId := e.orderId],
                                   s.byVenue,
                                   s.history[e.orderId := [e]]))
  {
    if e.CreatedEvent? && e.orderId !in s.orders {
      var t := s.Insert(e.intent, e.clientId, e.orderId);
      assert t.history[e.orderId] + [e] == [e];
      assert t.history[e.orderId := [e]] == s.history[e.orderId := [e]];
    }
  }

  const EMPTY_STORE := Store(map[], map[], map[], map[])

  /** Handling the events one after the other from `s`; None once a handler raises. */
  function Replay(s: Store, es: seq<Event>): (r: Option<Store>)
    requires s.WF()
    ensures r.Some? ==> r.value.WF()
  {
    if es == [] then Some(s)
    else
      var t := Replay(s, es[..|es| - 1]);
      if t.None? then None else t.value.Apply(es[|es| - 1])
  }

  lemma {:induction false} ReplayConcat(s: Store, es: seq<Event>, fs: seq<Event>)
    requires s.WF()
    ensures Replay(s, es + fs) == if Replay(s, es).None? then None else Replay(Replay(s, es).value, fs)
  {
    if fs == [] {
      assert es + fs == es;
    } else {
      var front := fs[..|fs| - 1];
      assert (es + fs)[..|es + fs| - 1] == es + front;
      ReplayConcat(s, es, front);
    }
  }

  lemma ReplaySnoc(s: Store, es: seq<Event>, e: Event)
    requires s.WF()
    ensures Replay(s, es + [e]) == if Replay(s, es).None? then None else Replay(s, es).value.Apply(e)
  {
    assert (es + [e])[..|es + [e]| - 1] == es;
  }

  /** Other events are skipped by a rebuild. */
  lemma {:induction false} ReplayIgnoresOtherEvents(s: Store, es: seq<Event>)
    requires s.WF()
    ensures Replay(s, Filter(es, OrderEvent)) == Replay(s, es)
  {
    if es != [] {
      var front, last := es[..|es| - 1], es[|es| - 1];
      var kept := Filter(front, OrderEvent);
      ReplayIgnoresOtherEvents(s, front);
      if OrderEvent(last) {
        ReplaySnoc(s, kept, last);
        assert Filter(es, OrderEvent) == kept + [last];
      } else {
        assert Filter(es, OrderEvent) == kept;
      }
    }
  }

  /** A full-size fill is refused, or completes the order so that no ack can follow. */
  lemma FullFillBarsAck(s: Store, fill: Event, ack: Event)
    requires s.WF() && fill.FillEvent? && ack.AckEvent? && ack.orderId == fill.orderId && fill.orderId in s.orders
    requires s.orders[fill.orderId].filled >= 0.0 && fill.size == s.orders[fill.orderId].Size()
    ensures s.Apply(fill).Some? ==> s.Apply(fill).value.Apply(ack).None?
  {
    hide WeightedAverage;
  }

  /** An event either leaves the order's state where it is or moves it along the graph. */
  lemma OrderAfterReaches(o: Order, e: Event)
    requires e.IsOrderEvent() && !e.CreatedEvent?
    ensures OrderAfter(o, e).Some? ==> Reaches(o.state, OrderAfter(o, e).value.state)
  {
    var r := OrderAfter(o, e);
    if r.Some? {
      var t := r.value.state;
      ReachesRefl(o.state);
      if o.state != t {
        if o.state == New {
          assert PathFromTo(if t == Submitted then [New, PendingSubmit, Submitted]
                            else [New, PendingSubmit, Submitted, Rejected], New, t);
        } else if CanTransition(o.state, t) {
          ReachesEdge(o.state, t);
        } else {
          assert PathFromTo([PendingSubmit, Submitted, Rejected], PendingSubmit, t);
        }
      }
    }
  }

  /** Once a reject has left NEW or PENDING_SUBMIT behind, it goes through. */
  lemma RejectPath(o: Order, reason: Option<Id>)
    ensures o.state == New ==> Transition(o, PendingSubmit, None) == Some(o.(state := PendingSubmit))
    ensures o.state == PendingSubmit ==> Transition(o, Submitted, None) == Some(o.(state := Submitted))
    ensures o.state == Submitted ==> Transition(o, Rejected, reason).Some?
  {
  }

  lemma RemoveAbsent(m: map<Id, Id>, k: Id)
    ensures k !in m ==> m - {k} == m
  {
  }

  class InMemoryOrderStore {
    const bus: EventBus
    var orders: map<Id, Order>
    var clientOrderIds: map<Id, Id>
    var venueOrderIds: map<Id, Id>
    var orderEvents: map<Id, seq<Event>>

    function View(): Store
      reads this
    {
      Store(orders, clientOrderIds, venueOrderIds, orderEvents)
    }

    constructor (bus: EventBus)
      ensures this.bus == bus && View() == EMPTY_STORE
    {
      this.bus := bus;
      orders, clientOrderIds, venueOrderIds, orderEvents := map[], map[], map[], map[];
    }

    method CreateOrder(intent: Intent, clientId: Id, orderId: Id, stamp: Stamp) returns (order: Order)
      requires View().WF()
      modifies this, bus, bus.store
      ensures order == NewOrder(orderId, clientId, intent)
      ensures View() ==
              old(View()).Insert(intent, clientId, orderId).ApplyCreated(CreatedEvent(stamp, orderId, clientId, intent))
      ensures bus.View() ==
              old(bus.View()).Publish(OrderCreatedTopic, EventMessage(CreatedEvent(stamp, orderId, clientId, intent)))
    {
      order := NewOrder(orderId, clientId, intent);
      orders := orders[orderId := order];
      clientOrderIds := clientOrderIds[clientId := orderId];
      orderEvents := orderEvents[orderId := []];
      var event := CreatedEvent(stamp, orderId, clientId, intent);
      bus.Publish(OrderCreatedTopic, EventMessage(event));
      HandleOrderCreated(event);
    }

    method GetOrder(orderId: Id) returns (r: Option<Order>)
      ensures r == View().GetOrder(orderId)
    {
      r := if orderId in orders then Some(orders[orderId]) else None;
    }

    method GetOrderByClientId(clientId: Id) returns (r: Option<Order>)
      ensures r == View().GetByClient(clientId)
    {
      var orderId := if clientId in clientOrderIds then clientOrderIds[clientId] else EMPTY;
      if orderId != EMPTY {
        r := GetOrder(orderId);
      } else {
        r := None;
      }
    }

    method GetOrderByVenueId(venueId: Id) returns (r: Option<Order>)
      ensures r == View().GetByVenue(venueId)
    {
      var orderId := if venueId in venueOrderIds then venueOrderIds[venueId] else EMPTY;
      if orderId != EMPTY {
        r := GetOrder(orderId);
      } else {
        r := None;
      }
    }

    /** Events of an order, oldest first; simultaneous ones in the order they were recorded. */
    method GetOrderHistory(orderId: Id) returns (r: seq<Event>)
      ensures var recorded := if orderId in orderEvents then orderEvents[orderId] else [];
              && Ordered(r)
              && multiset(r) == multiset(recorded)
              && forall ts :: Filter(r, AtTime(ts)) == Filter(recorded, AtTime(ts))
    {
      var events := if orderId in orderEvents then orderEvents[orderId] else [];
      SortSorts(events);
      r := SortByTs(events);
      forall ts ensures Filter(SortByTs(events), AtTime(ts)) == Filter(events, AtTime(ts)) {
        SortKeepsTies(events, ts);
      }
    }

    /** Raises (ok is false) without changing anything, or installs the order. */
    method UpdateOrder(order: Order) returns (ok: bool)
      requires View().WF()
      modifies this
      ensures ok == old(View()).Update(order).Some?
      ensures View() == if ok then old(View()).Update(order).value else old(View())
    {
      if order.orderId !in orders {
        return false;
      }
      var existing := orders[order.orderId];
      if existing.state != order.state {
        if !CanTransition(existing.state, order.state) {
          return false;
        }
      }
      orders := orders[order.orderId := order];
      if order.clientId != existing.clientId {
        RemoveAbsent(clientOrderIds, existing.clientId);
        if existing.clientId in clientOrderIds {
          clientOrderIds := clientOrderIds - {existing.clientId};
        }
        clientOrderIds := clientOrderIds[order.clientId := order.orderId];
      }
      if order.venueId != existing.venueId {
        if Truthy(existing.venueId) {
          RemoveAbsent(venueOrderIds, existing.venueId.value);
          if existing.venueId.value in venueOrderIds {
            venueOrderIds := venueOrderIds - {existing.venueId.value};
          }
        }
        if Truthy(order.venueId) {
          venueOrderIds := venueOrderIds[order.venueId.value := order.orderId];
        }
      }
      return true;
    }

    /** On failure the store holds what the events before the offending one produced. */
    method RebuildFromEvents(events: seq<Event>) returns (ok: bool)
      modifies this
      ensures ok == Replay(EMPTY_STORE, events).Some?
      ensures ok ==> Some(View()) == Replay(EMPTY_STORE, events)
      ensures !ok ==> exists k | 0 <= k < |events| ::
                  && Replay(EMPTY_STORE, events[..k]) == Some(View())
                  && View().WF() && View().Apply(events[k]) == None
      ensures View().WF()
    {
      hide OrderAfter;
      orders, clientOrderIds, venueOrderIds, orderEvents := map[], map[], map[], map[];
      for i := 0 to |events|
        invariant Replay(EMPTY_STORE, events[..i]) == Some(View())
      {
        assert events[..i + 1][..i] == events[..i];
        var e := events[i];
        ok := true;
        if e.CreatedEvent? {
          HandleOrderCreated(e);
        } else if e.SubmittedEvent? {
          ok := HandleOrderSubmitted(e);
        } else if e.AckEvent? {
          ok := HandleOrderAck(e);
        } else if e.RejectedEvent? {
          ok := HandleOrderRejected(e);
        } else if e.FillEvent? {
          ok := HandleFill(e);
        } else if e.CanceledEvent? {
          ok := HandleOrderCanceled(e);
        }
        if !ok {
          ReplayConcat(EMPTY_STORE, events[..i + 1], events[i + 1..]);
          assert events[..i + 1] + events[i + 1..] == events;
          ReplayNone(events[..i + 1], events[i + 1..]);
          return;
        }
      }
      assert events[..|events|] == events;
      ok := true;
    }

    method HandleOrderCreated(e: Event)
      requires View().WF() && e.CreatedEvent?
      modifies this
      ensures View() == old(View()).ApplyCreated(e)
    {
      if e.orderId !in orders {
        orders := orders[e.orderId := NewOrder(e.orderId, e.clientId, e.intent)];
        clientOrderIds := clientOrderIds[e.clientId := e.orderId];
        orderEvents := orderEvents[e.orderId := []];
      }
      orderEvents := orderEvents[e.orderId := orderEvents[e.orderId] + [e]];
    }

    method HandleOrderSubmitted(e: Event) returns (ok: bool)
      requires View().WF() && e.SubmittedEvent?
      modifies this
      ensures ok == old(View()).Apply(e).Some?
      ensures View() == if ok then old(View()).Apply(e).value else old(View())
    {
      if e.orderId !in orders {
        return true;
      }
      var order := orders[e.orderId];
      if order.state == New {
        var pending := Transition(order, PendingSubmit, None);
        if pending.None? {
          return false;
        }
        order := pending.value;
      }
      var submitted := Transition(order, Submitted, None);
      if submitted.None? {
        return false;
      }
      orders := orders[e.orderId := submitted.value];
      orderEvents := orderEvents[e.orderId := orderEvents[e.orderId] + [e]];
      return true;
    }

    method HandleOrderAck(e: Event) returns (ok: bool)
      requires View().WF() && e.AckEvent?
      modifies this
      ensures ok == old(View()).Apply(e).Some?
      ensures View() == if ok then old(View()).Apply(e).value else old(View())
    {
      if e.orderId !in orders {
        return true;
      }
      var acked := Transition(orders[e.orderId], Acked, None);
      if acked.None? {
        return false;
      }
      orders := orders[e.orderId := acked.value.(venueId := Some(e.venueId))];
      if e.venueId != EMPTY {
        venueOrderIds := venueOrderIds[e.venueId := e.orderId];
      }
      orderEvents := orderEvents[e.orderId := orderEvents[e.orderId] + [e]];
      return true;
    }

    /** Stores each intermediate state; still, when it raises nothing has been stored. */
    method HandleOrderRejected(e: Event) returns (ok: bool)
      requires View().WF() && e.RejectedEvent?
      modifies this
      ensures ok == old(View()).Apply(e).Some?
      ensures View() == if ok then old(View()).Apply(e).value else old(View())
    {
      if e.orderId !in orders {
        return true;
      }
      hide Transition, CanTransition, WeightedAverage;
      var order := orders[e.orderId];
      RejectPath(order, Some(e.reason));
      if order.state == New {
        var pending := Transition(order, PendingSubmit, None);
        if pending.None? {
          return false;
        }
        order := pending.value;
        RejectPath(order, Some(e.reason));
        orders := orders[e.orderId := order];
      }
      if order.state == PendingSubmit {
        var submitted := Transition(order, Submitted, None);
        if submitted.None? {
          return false;
        }
        order := submitted.value;
        RejectPath(order, Some(e.reason));
        orders := orders[e.orderId := order];
      }
      var rejected := Transition(order, Rejected, Some(e.reason));
      if rejected.None? {
        return false;
      }
      orders := orders[e.orderId := rejected.value];
      orderEvents := orderEvents[e.orderId := orderEvents[e.orderId] + [e]];
      return true;
    }

    method HandleFill(e: Event) returns (ok: bool)
      requires View().WF() && e.FillEvent?
      modifies this
      ensures ok == old(View()).Apply(e).Some?
      ensures View() == if ok then old(View()).Apply(e).value else old(View())
    {
      if e.orderId !in orders {
        return true;
      }
      var order := orders[e.orderId];
      var filled := order.filled + e.size;
      var avg: real;
      if order.avgPrice.None? {
        avg := e.price;
      } else {
        var total := order.filled + e.size;
        if total == 0.0 {
          return false;
        }
        avg := WeightedAverage(order.avgPrice.value, order.filled, e.price, e.size);
      }
      order := order.(filled := filled, avgPrice := Some(avg));
      if filled >= order.Size() {
        var done := Transition(order, Filled, None);
        if done.None? {
          return false;
        }
        order := done.value;
      } else if order.state == Acked {
        var partial := Transition(order, PartiallyFilled, None);
        if partial.None? {
          return false;
        }
        order := partial.value;
      }
      orders := orders[e.orderId := order];
      orderEvents := orderEvents[e.orderId := orderEvents[e.orderId] + [e]];
      return true;
    }

    method HandleOrderCanceled(e: Event) returns (ok: bool)
      requires View().WF() && e.CanceledEvent?
      modifies this
      ensures ok == old(View()).Apply(e).Some?
      ensures View() == if ok then old(View()).Apply(e).value else old(View())
    {
      if e.orderId !in orders {
        return true;
      }
      var cancelled := Transition(orders[e.orderId], Cancelled, e.cancelReason);
      if cancelled.None? {
        return false;
      }
      orders := orders[e.orderId := cancelled.value];
      orderEvents := orderEvents[e.orderId := orderEvents[e.orderId] + [e]];
      return true;
    }
  }

  /** Once a replay has raised, replaying more events does not help. */
  lemma ReplayNone(es: seq<Event>, fs: seq<Event>)
    requires Replay(EMPTY_STORE, es) == None
    ensures Replay(EMPTY_STORE, es + fs) == None
  {
    ReplayConcat(EMPTY_STORE, es, fs);
  }
}
