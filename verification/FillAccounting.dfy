/** Exact fill accounting over runs with one call at a time
    (polytrader/oms/store.py, polytrader/oms/core.py). */
module FillAccounting {
  import opened Prelude
  import opened OrderModel
  import opened OrderStore
  import opened OmsCore
  import opened OmsRuns

  /** Total size of the fills among the events. */
  function Bought(es: seq<Event>): real {
    if es == [] then 0.0
    else Bought(es[..|es| - 1]) + (if es[|es| - 1].FillEvent? then es[|es| - 1].size else 0.0)
  }

  function Worth(price: real, size: real): real {
    price * size
  }

  /** Total price times size of the fills among the events. */
  function Paid(es: seq<Event>): real {
    if es == [] then 0.0
    else Paid(es[..|es| - 1]) + (if es[|es| - 1].FillEvent? then Worth(es[|es| - 1].price, es[|es| - 1].size) else 0.0)
  }

  ghost predicate FillsValid(es: seq<Event>) {
    forall e :: e in es && e.FillEvent? ==> e.size > 0.0
  }

  ghost predicate PricesWithin(es: seq<Event>, low: real, high: real) {
    forall e :: e in es && e.FillEvent? ==> low <= e.price <= high
  }

  lemma WorthAdds(price: real, a: real, b: real)
    ensures Worth(price, a + b) == Worth(price, a) + Worth(price, b)
    ensures Worth(price, 0.0) == 0.0
  {
  }

  lemma WorthMonotone(p: real, q: real, size: real)
    requires p <= q && size >= 0.0
    ensures Worth(p, size) <= Worth(q, size)
  {
  }

  lemma {:induction false} PaidBounds(es: seq<Event>, low: real, high: real)
    requires FillsValid(es) && PricesWithin(es, low, high)
    ensures Worth(low, Bought(es)) <= Paid(es) <= Worth(high, Bought(es))
    ensures Bought(es) >= 0.0
  {
    hide Worth;
    if es == [] {
      WorthAdds(low, 0.0, 0.0);
      WorthAdds(high, 0.0, 0.0);
    } else {
      var front, last := es[..|es| - 1], es[|es| - 1];
      assert last in es && forall e :: e in front ==> e in es;
      PaidBounds(front, low, high);
      if last.FillEvent? {
        WorthMonotone(low, last.price, last.size);
        WorthMonotone(last.price, high, last.size);
        WorthAdds(low, Bought(front), last.size);
        WorthAdds(high, Bought(front), last.size);
      }
    }
  }

  /** What the order says about its fills is what its history says. */
  ghost predicate Accounted(o: Order, es: seq<Event>) {
    && FillsValid(es)
    && o.filled == Bought(es)
    && 0.0 <= o.filled <= o.Size()
    && (o.avgPrice.None? <==> o.filled == 0.0)
    && (o.avgPrice.Some? ==> Worth(o.avgPrice.value, o.filled) == Paid(es))
    && (o.state == Filled <==> o.filled == o.Size())
    && (o.state == PartiallyFilled ==> 0.0 < o.filled)
  }

  ghost predicate AllAccounted(s: Store) {
    s.WF() && forall id :: id in s.orders ==> Accounted(s.orders[id], s.history[id])
  }

  lemma WorthStrict(p: real, q: real, size: real)
    requires p < q && size > 0.0
    ensures Worth(p, size) < Worth(q, size)
  {
    assert Worth(q - p, size) > 0.0;
  }

  lemma QuotientBetween(q: real, n: real, total: real, low: real, high: real)
    requires n > 0.0 && Worth(q, n) == total && Worth(low, n) <= total <= Worth(high, n)
    ensures low <= q <= high
  {
    hide Worth;
    if q < low {
      WorthStrict(q, low, n);
    }
    if high < q {
      WorthStrict(high, q, n);
    }
  }

  /** The average lies between any bounds of the fill prices. */
  lemma AverageBetween(o: Order, es: seq<Event>, low: real, high: real)
    requires Accounted(o, es) && o.avgPrice.Some? && PricesWithin(es, low, high)
    ensures low <= o.avgPrice.value <= high
  {
    hide Worth, Paid, Bought;
    PaidBounds(es, low, high);
    QuotientBetween(o.avgPrice.value, o.filled, Paid(es), low, high);
  }

  lemma FillAccounted(o: Order, es: seq<Event>, e: Event)
    requires Accounted(o, es) && e.FillEvent? && e.size > 0.0 && o.filled + e.size <= o.Size()
    requires OrderAfter(o, e).Some?
    ensures Accounted(OrderAfter(o, e).value, es + [e])
  {
    var o' := OrderAfter(o, e).value;
    assert (es + [e])[..|es|] == es;
    if o.avgPrice.None? {
      PaidNothing(es);
      assert o'.avgPrice.value * o'.filled == e.price * e.size;
    } else {
      assert o'.avgPrice.value * (o.filled + e.size) == o.avgPrice.value * o.filled + e.price * e.size;
    }
  }

  /** Without fills nothing is paid. */
  lemma {:induction false} PaidNothing(es: seq<Event>)
    requires FillsValid(es) && Bought(es) == 0.0
    ensures Paid(es) == 0.0
  {
    PaidAtMost(es);
  }

  lemma {:induction false} PaidAtMost(es: seq<Event>)
    requires FillsValid(es)
    ensures Bought(es) >= 0.0 && (Bought(es) == 0.0 ==> Paid(es) == 0.0)
  {
    hide Worth;
    if es != [] {
      assert es[|es| - 1] in es;
      PaidAtMost(es[..|es| - 1]);
    }
  }

  lemma OtherAccounted(o: Order, es: seq<Event>, e: Event)
    requires Accounted(o, es) && e.IsOrderEvent() && !e.CreatedEvent? && !e.FillEvent?
    requires OrderAfter(o, e).Some?
    ensures Accounted(OrderAfter(o, e).value, es + [e])
  {
    assert (es + [e])[..|es|] == es;
  }

  lemma ApplyAccounted(s: Store, e: Event, venues: map<Id, Id>)
    requires AllAccounted(s) && TakenWithin(s, e)
    ensures AllAccounted(s.Apply(e).value.(byVenue := venues))
  {
    if e.orderId in s.orders {
      var o := s.orders[e.orderId];
      if e.FillEvent? {
        FillAccounted(o, s.history[e.orderId], e);
      } else {
        OtherAccounted(o, s.history[e.orderId], e);
      }
      assert s.Apply(e).value.orders == s.orders[e.orderId := OrderAfter(o, e).value];
    }
  }

  lemma CreateAccounted(s: Store, d: Call)
    requires AllAccounted(s) && d.CreateOrder?
    ensures AllAccounted(WithNewOrder(s, d, Submitted, [CreatedBy(d), SubmittedBy(d)]))
  {
    var es := [CreatedBy(d), SubmittedBy(d)];
    assert es[..1] == [CreatedBy(d)] && es[..1][..0] == [];
    assert Bought(es) == Bought(es[..1]) == 0.0;
  }

  lemma HandleAccounted(c: Core, call: Call)
    requires Linked(c) && Fresh(c, call) && AllAccounted(c.store)
    ensures AllAccounted(Handle(c, call).core.store)
  {
    hide Handle, AllAccounted;
    var e := HandleEffect(c, call);
    if e.Some? {
      ApplyAccounted(c.store, e.value, Handle(c, call).core.store.byVenue);
    } else if Handle(c, call).core.store != c.store {
      CreateAccounted(c.store, call);
    }
  }

  /** In every run, raising calls included, every order's filled size is the sum of its applied
      fills and its average price their size-weighted mean; an order is FILLED exactly when its
      filled size is its size, and is never overfilled. */
  lemma {:induction false} FillsAccounted(calls: seq<Call>)
    requires FreshRun(INITIAL, calls)
    ensures AllAccounted(Run(INITIAL, calls).store)
  {
    if calls != [] {
      FillsAccounted(calls[..|calls| - 1]);
      RunKeepsLinked(calls[..|calls| - 1]);
      HandleAccounted(Run(INITIAL, calls[..|calls| - 1]), calls[|calls| - 1]);
    }
  }

  // ---- Fills before the ack ------------------------------------------------------------

  /** Event `i` is a fill and no ack comes before it. */
  ghost predicate FilledEarly(es: seq<Event>, i: int) {
    0 <= i < |es| && es[i].FillEvent? && forall j :: 0 <= j < i ==> !es[j].AckEvent?
  }

  /** Before its ack an order has no ack in its history, and while it is ACKED every fill there
      precedes every ack. */
  ghost predicate AckTimed(o: Order, es: seq<Event>) {
    && (o.state in {New, PendingSubmit, Submitted} ==> forall e :: e in es ==> !e.AckEvent?)
    && (o.state == Acked ==> forall i, j :: 0 <= j < i < |es| && es[i].FillEvent? ==> !es[j].AckEvent?)
  }

  ghost predicate AllAckTimed(s: Store) {
    s.WF() && forall id :: id in s.orders ==> AckTimed(s.orders[id], s.history[id])
  }

  lemma EventAckTimed(o: Order, es: seq<Event>, e: Event)
    requires AckTimed(o, es) && e.IsOrderEvent() && !e.CreatedEvent? && OrderAfter(o, e).Some?
    ensures AckTimed(OrderAfter(o, e).value, es + [e])
  {
    hide WeightedAverage;
  }

  lemma ApplyAckTimed(s: Store, e: Event, venues: map<Id, Id>)
    requires AllAckTimed(s) && e.IsOrderEvent() && !e.CreatedEvent? && s.Apply(e).Some?
    ensures AllAckTimed(s.Apply(e).value.(byVenue := venues))
  {
    hide OrderAfter, AckTimed;
    if e.orderId in s.orders {
      EventAckTimed(s.orders[e.orderId], s.history[e.orderId], e);
    }
  }

  lemma CreateAckTimed(s: Store, d: Call)
    requires AllAckTimed(s) && d.CreateOrder?
    ensures AllAckTimed(WithNewOrder(s, d, Submitted, [CreatedBy(d), SubmittedBy(d)]))
  {
  }

  lemma HandleAckTimed(c: Core, call: Call)
    requires Linked(c) && Fresh(c, call) && AllAckTimed(c.store)
    ensures AllAckTimed(Handle(c, call).core.store)
  {
    hide Handle, AllAckTimed, WithNewOrder;
    var e := HandleEffect(c, call);
    if e.Some? {
      ApplyAckTimed(c.store, e.value, Handle(c, call).core.store.byVenue);
    } else if Handle(c, call).core.store != c.store {
      CreateAckTimed(c.store, call);
    }
  }

  lemma {:induction false} RunAckTimed(calls: seq<Call>)
    requires FreshRun(INITIAL, calls)
    ensures AllAckTimed(Run(INITIAL, calls).store)
  {
    if calls != [] {
      hide Handle, AllAckTimed, Linked, Fresh;
      var front, last := calls[..|calls| - 1], calls[|calls| - 1];
      RunAckTimed(front);
      RunKeepsLinked(front);
      HandleAckTimed(Run(INITIAL, front), last);
    } else {
      assert AllAckTimed(EMPTY_STORE);
    }
  }

  lemma {:induction false} BoughtSome(es: seq<Event>)
    requires FillsValid(es)
    ensures Bought(es) >= 0.0
    ensures Bought(es) > 0.0 <==> exists i :: 0 <= i < |es| && es[i].FillEvent?
  {
    hide Worth;
    if es != [] {
      var front, last := es[..|es| - 1], es[|es| - 1];
      assert last in es && forall e :: e in front ==> e in es;
      BoughtSome(front);
      if i :| 0 <= i < |front| && front[i].FillEvent? {
        assert es[i].FillEvent?;
      }
      if i :| 0 <= i < |es| && es[i].FillEvent? {
        assert i < |front| ==> front[i].FillEvent?;
      }
    }
  }

  /** In every run an ACKED order has something filled if and only if a fill was applied to it
      before its first ack: a partial fill does not wait for the ack and leaves the state alone. */
  lemma AckedAndFilledIff(calls: seq<Call>, id: Id)
    requires FreshRun(INITIAL, calls)
    ensures var s := Run(INITIAL, calls).store;
            id in s.orders && s.orders[id].state == Acked ==>
              id in s.history && (s.orders[id].filled > 0.0 <==> exists i :: FilledEarly(s.history[id], i))
  {
    var s := Run(INITIAL, calls).store;
    RunAckTimed(calls);
    FillsAccounted(calls);
    if id in s.orders && s.orders[id].state == Acked {
      var es := s.history[id];
      BoughtSome(es);
      if i :| 0 <= i < |es| && es[i].FillEvent? {
        assert FilledEarly(es, i);
      }
    }
  }

  lemma EarlyFill(c: Core, fill: Call)
    requires Linked(c) && fill.VenueFill? && ValidFill(fill.size, fill.price, fill.fee)
    requires Target(c, fill).Some? && Target(c, fill).value.state == Submitted
    requires Target(c, fill).value.filled + fill.size < Target(c, fill).value.Size()
    ensures Handle(c, fill).Returned? && Linked(Handle(c, fill).core)
    ensures var o := Handle(c, fill).core.store.GetByClient(fill.clientId);
            o.Some? && o.value.state == Submitted && o.value.filled == Target(c, fill).value.filled + fill.size
  {
    hide Handle;
    FillEffect(c, fill);
    FillKeepsLinked(c, fill);
  }

  lemma AckKeepsFills(c: Core, ack: Call)
    requires Linked(c) && ack.VenueAck? && Target(c, ack).Some? && Target(c, ack).value.state == Submitted
    ensures Handle(c, ack).Returned?
    ensures var o := Handle(c, ack).core.store.GetByClient(ack.clientId);
            o.Some? && o.value.state == Acked && o.value.filled == Target(c, ack).value.filled
  {
    hide Handle;
    AckEffect(c, ack);
  }

  /** A partial fill does not need an acked order: one that arrives before the ack is counted
      and leaves the state alone, so afterwards ACKED does not mean unfilled. */
  lemma FillBeforeAck(c: Core, fill: Call, ack: Call)
    requires Linked(c) && fill.VenueFill? && ack.VenueAck? && ack.clientId == fill.clientId
    requires ValidFill(fill.size, fill.price, fill.fee)
    requires Target(c, fill).Some? && Target(c, fill).value.state == Submitted
    requires Target(c, fill).value.filled + fill.size < Target(c, fill).value.Size()
    ensures Handle(c, fill).Returned? && Handle(Handle(c, fill).core, ack).Returned?
    ensures var o := Handle(Handle(c, fill).core, ack).core.store.GetByClient(ack.clientId);
            o.Some? && o.value.state == Acked && o.value.filled == Target(c, fill).value.filled + fill.size
  {
    EarlyFill(c, fill);
    AckKeepsFills(Handle(c, fill).core, ack);
  }
}
