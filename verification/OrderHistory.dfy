/** Every field of an order read off its history, over runs with one call at a time
    (polytrader/oms/store.py, polytrader/oms/core.py). */
module OrderHistory {
  import opened Prelude
  import opened OrderModel
  import opened EventLog
  import opened OrderStore
  import opened OmsCore
  import opened OmsRuns
  import opened FillAccounting

  ghost predicate WasCanceled(es: seq<Event>) {
    exists i :: 0 <= i < |es| && es[i].CanceledEvent?
  }

  ghost predicate WasRejected(es: seq<Event>) {
    exists i :: 0 <= i < |es| && es[i].RejectedEvent?
  }

  ghost predicate WasAcked(es: seq<Event>) {
    exists i :: 0 <= i < |es| && es[i].AckEvent?
  }

  /** Some fill comes after an ack. */
  ghost predicate FilledOpen(es: seq<Event>) {
    exists i, j :: 0 <= i < j < |es| && es[i].AckEvent? && es[j].FillEvent?
  }

  /** The state an order of this size is in after these events. */
  ghost function StateOf(es: seq<Event>, size: real): OrderState {
    if WasCanceled(es) then Cancelled
    else if WasRejected(es) then Rejected
    else if Bought(es) == size then Filled
    else if FilledOpen(es) then PartiallyFilled
    else if WasAcked(es) then Acked
    else Submitted
  }

  /** The venue id of the last ack. */
  ghost function LastVenueId(es: seq<Event>): Option<Id> {
    if es == [] then None
    else if es[|es| - 1].AckEvent? then Some(es[|es| - 1].venueId)
    else LastVenueId(es[..|es| - 1])
  }

  /** The reason of the first reject, unless it is empty. */
  ghost function FirstReason(es: seq<Event>): Option<Id> {
    if es == [] then None
    else
      var front, last := es[..|es| - 1], es[|es| - 1];
      if WasRejected(front) then FirstReason(front)
      else if last.RejectedEvent? && last.reason != EMPTY then Some(last.reason)
      else None
  }

  /** The order is what its history says: its identity from the creation it begins with, its state,
      venue id and reject reason, and the account of its fills. */
  ghost predicate Told(o: Order, es: seq<Event>) {
    && es != [] && es[0].CreatedEvent?
    && o.orderId == es[0].orderId && o.clientId == es[0].clientId && o.intent == es[0].intent
    && o.state == StateOf(es, o.Size()) && !(WasCanceled(es) && WasRejected(es))
    && o.venueId == LastVenueId(es)
    && o.rejectReason == FirstReason(es)
    && Accounted(o, es)
  }

  ghost predicate AllTold(s: Store) {
    s.WF() && forall id :: id in s.orders ==> Told(s.orders[id], s.history[id])
  }

  lemma WasSnoc(es: seq<Event>, e: Event)
    ensures WasCanceled(es + [e]) <==> WasCanceled(es) || e.CanceledEvent?
    ensures WasRejected(es + [e]) <==> WasRejected(es) || e.RejectedEvent?
    ensures WasAcked(es + [e]) <==> WasAcked(es) || e.AckEvent?
    ensures FilledOpen(es + [e]) <==> FilledOpen(es) || (WasAcked(es) && e.FillEvent?)
  {
    var fs := es + [e];
    assert forall i :: 0 <= i < |es| ==> fs[i] == es[i];
    assert fs[|es|] == e;
    if FilledOpen(fs) {
      var i, j :| 0 <= i < j < |fs| && fs[i].AckEvent? && fs[j].FillEvent?;
      assert es[i].AckEvent?;
      assert j < |es| ==> es[j].FillEvent?;
    }
  }

  lemma TellsSnoc(es: seq<Event>, e: Event)
    ensures Bought(es + [e]) == Bought(es) + if e.FillEvent? then e.size else 0.0
    ensures LastVenueId(es + [e]) == if e.AckEvent? then Some(e.venueId) else LastVenueId(es)
    ensures FirstReason(es + [e]) ==
            if WasRejected(es) then FirstReason(es)
            else if e.RejectedEvent? && e.reason != EMPTY then Some(e.reason)
            else None
  {
    assert (es + [e])[..|es|] == es;
  }

  lemma {:induction false} NoReasonYet(es: seq<Event>)
    requires !WasRejected(es)
    ensures FirstReason(es) == None
  {
    if es != [] {
      var front := es[..|es| - 1];
      assert forall i :: 0 <= i < |front| ==> front[i] == es[i];
      assert !es[|es| - 1].RejectedEvent?;
    }
  }

  lemma {:induction false} NoVenueYet(es: seq<Event>)
    ensures LastVenueId(es).Some? <==> WasAcked(es)
  {
    if es != [] {
      NoVenueYet(es[..|es| - 1]);
      WasSnoc(es[..|es| - 1], es[|es| - 1]);
      assert es == es[..|es| - 1] + [es[|es| - 1]];
    }
  }

  lemma AckedBefore(es: seq<Event>)
    ensures FilledOpen(es) ==> WasAcked(es)
  {
  }

  lemma StateTold(o: Order, es: seq<Event>, e: Event)
    requires Told(o, es) && e.IsOrderEvent() && !e.CreatedEvent? && OrderAfter(o, e).Some?
    requires e.FillEvent? ==> e.size > 0.0 && o.filled + e.size <= o.Size()
    ensures OrderAfter(o, e).value.state == StateOf(es + [e], o.Size())
    ensures !(WasCanceled(es + [e]) && WasRejected(es + [e]))
  {
    hide OrderAfter, WasCanceled, WasRejected, WasAcked, FilledOpen, LastVenueId, FirstReason, Bought, Paid, Worth;
    WasSnoc(es, e);
    TellsSnoc(es, e);
    AckedBefore(es);
    match e {
      case SubmittedEvent(_, _, _) => SubmittedOutcome(o, e);
      case AckEvent(_, _, _) => AckOutcome(o, e);
      case RejectedEvent(_, _, _) => RejectOutcome(o, e);
      case FillEvent(_, _, _, _, _, _, _) => FillOutcome(o, e);
      case CanceledEvent(_, _, _) => CancelOutcome(o, e);
    }
  }

  lemma FieldsTold(o: Order, es: seq<Event>, e: Event)
    requires Told(o, es) && e.IsOrderEvent() && !e.CreatedEvent? && OrderAfter(o, e).Some?
    requires e.FillEvent? ==> e.size > 0.0 && o.filled + e.size <= o.Size()
    ensures var r := OrderAfter(o, e).value;
            && r.orderId == o.orderId && r.clientId == o.clientId && r.intent == o.intent
            && r.venueId == LastVenueId(es + [e]) && r.rejectReason == FirstReason(es + [e])
  {
    hide OrderAfter, WasCanceled, WasRejected, WasAcked, FilledOpen, LastVenueId, FirstReason, Bought, Paid, Worth;
    TellsSnoc(es, e);
    if !WasRejected(es) {
      NoReasonYet(es);
    }
    match e {
      case SubmittedEvent(_, _, _) => SubmittedOutcome(o, e);
      case AckEvent(_, _, _) => AckOutcome(o, e);
      case RejectedEvent(_, _, _) => RejectOutcome(o, e);
      case FillEvent(_, _, _, _, _, _, _) => FillOutcome(o, e);
      case CanceledEvent(_, _, _) => CancelOutcome(o, e);
    }
  }

  lemma EventTold(o: Order, es: seq<Event>, e: Event)
    requires Told(o, es) && e.IsOrderEvent() && !e.CreatedEvent? && OrderAfter(o, e).Some?
    requires e.FillEvent? ==> e.size > 0.0 && o.filled + e.size <= o.Size()
    ensures Told(OrderAfter(o, e).value, es + [e])
  {
    hide OrderAfter, StateOf, LastVenueId, FirstReason, Accounted, WasCanceled, WasRejected;
    StateTold(o, es, e);
    FieldsTold(o, es, e);
    if e.FillEvent? {
      FillAccounted(o, es, e);
    } else {
      OtherAccounted(o, es, e);
    }
  }

  lemma ApplyTold(s: Store, e: Event, venues: map<Id, Id>)
    requires AllTold(s) && TakenWithin(s, e)
    ensures AllTold(s.Apply(e).value.(byVenue := venues))
  {
    hide OrderAfter, Told;
    if e.orderId in s.orders {
      EventTold(s.orders[e.orderId], s.history[e.orderId], e);
    }
  }

  lemma CreationTold(d: Call)
    requires d.CreateOrder?
    ensures Told(NewOrder(d.orderId, d.clientId, d.intent).(state := Submitted), [CreatedBy(d), SubmittedBy(d)])
  {
    var es := [CreatedBy(d), SubmittedBy(d)];
    assert es[..1] == [CreatedBy(d)] && es[..1][..0] == [];
    assert Bought(es) == Bought(es[..1]) == 0.0;
    NoVenueYet(es);
    NoReasonYet(es);
  }

  lemma CreateTold(s: Store, d: Call)
    requires AllTold(s) && d.CreateOrder?
    ensures AllTold(WithNewOrder(s, d, Submitted, [CreatedBy(d), SubmittedBy(d)]))
  {
    hide Told;
    CreationTold(d);
  }

  lemma HandleTold(c: Core, call: Call)
    requires Linked(c) && Fresh(c, call) && AllTold(c.store)
    ensures AllTold(Handle(c, call).core.store)
  {
    hide Handle, AllTold;
    var e := HandleEffect(c, call);
    if e.Some? {
      ApplyTold(c.store, e.value, Handle(c, call).core.store.byVenue);
    } else if Handle(c, call).core.store != c.store {
      CreateTold(c.store, call);
    }
  }

  /** In every run, raising calls included, every order is what its history says, field by field. */
  lemma {:induction false} OrdersAreTold(calls: seq<Call>)
    requires FreshRun(INITIAL, calls)
    ensures AllTold(Run(INITIAL, calls).store)
  {
    if calls != [] {
      hide Handle, AllTold, Linked, Fresh;
      OrdersAreTold(calls[..|calls| - 1]);
      RunKeepsLinked(calls[..|calls| - 1]);
      HandleTold(Run(INITIAL, calls[..|calls| - 1]), calls[|calls| - 1]);
    } else {
      assert AllTold(EMPTY_STORE);
    }
  }

  /** In particular an order is CANCELLED exactly when a cancel is in its history, and REJECTED
      exactly when a reject is; and no history has both. */
  lemma ClosedIff(calls: seq<Call>, id: Id)
    requires FreshRun(INITIAL, calls) && id in Run(INITIAL, calls).store.orders
    ensures var s := Run(INITIAL, calls).store;
            && id in s.history
            && (s.orders[id].state == Cancelled <==> exists e :: e in s.history[id] && e.CanceledEvent?)
            && (s.orders[id].state == Rejected <==> exists e :: e in s.history[id] && e.RejectedEvent?)
  {
    hide Run, FreshRun, FirstReason, LastVenueId, Accounted;
    OrdersAreTold(calls);
    var s := Run(INITIAL, calls).store;
    assert Told(s.orders[id], s.history[id]);
    HasEvent(s.history[id]);
  }

  lemma HasEvent(es: seq<Event>)
    ensures WasCanceled(es) <==> exists e :: e in es && e.CanceledEvent?
    ensures WasRejected(es) <==> exists e :: e in es && e.RejectedEvent?
  {
    if WasCanceled(es) {
      var i :| 0 <= i < |es| && es[i].CanceledEvent?;
      assert es[i] in es;
    }
    if WasRejected(es) {
      var i :| 0 <= i < |es| && es[i].RejectedEvent?;
      assert es[i] in es;
    }
  }

  // ---- Calls that go through ------------------------------------------------------------

  /** A cancel goes through exactly for an order that is ACKED, PARTIALLY_FILLED or still
      PENDING_SUBMIT, and then the stored order is CANCELLED and otherwise as it was. */
  lemma CancelReturns(c: Core, d: Call)
    requires Linked(c) && d.Cancel?
    ensures var o, r := Target(c, d), Handle(c, d);
            && (r.Returned? <==> o.Some? && o.value.state in {PendingSubmit, Acked, PartiallyFilled})
            && (r.Returned? ==> r.core.store.orders == c.store.orders[o.value.orderId := o.value.(state := Cancelled)])
            && (!r.Returned? ==> r.core.store == c.store)
  {
    hide Handle, OrderAfter;
    CancelEffect(c, d);
    var o := Target(c, d);
    if o.Some? {
      CancelOutcome(o.value, CanceledEvent(d.canceled, o.value.orderId, d.cancelReason));
    }
  }

  /** An ack goes through exactly for a SUBMITTED or ACKED order, and sets its venue id. */
  lemma AckReturns(c: Core, d: Call)
    requires Linked(c) && d.VenueAck?
    ensures var o, r := Target(c, d), Handle(c, d);
            && (r.Returned? <==> o.Some? && o.value.state in {Submitted, Acked})
            && (r.Returned? ==>
                  r.core.store.orders ==
                  c.store.orders[o.value.orderId := o.value.(state := Acked, venueId := Some(d.venueId))])
            && (!r.Returned? ==> r.core.store == c.store)
  {
    hide Handle, OrderAfter;
    AckEffect(c, d);
    var o := Target(c, d);
    if o.Some? {
      AckOutcome(o.value, AckEvent(d.stamp, o.value.orderId, d.venueId));
    }
  }

  /** A reject goes through exactly while the order is not past SUBMITTED, or is rejected already. */
  lemma RejectReturns(c: Core, d: Call)
    requires Linked(c) && d.VenueReject?
    ensures var o, r := Target(c, d), Handle(c, d);
            && (r.Returned? <==> o.Some? && o.value.state in {New, PendingSubmit, Submitted, Rejected})
            && (r.Returned? ==>
                  && o.value.orderId in r.core.store.orders
                  && r.core.store.orders[o.value.orderId].state == Rejected
                  && r.core.store.orders == c.store.orders[o.value.orderId := r.core.store.orders[o.value.orderId]])
            && (!r.Returned? ==> r.core.store == c.store)
  {
    hide Handle, OrderAfter;
    RejectEffect(c, d);
    var o := Target(c, d);
    if o.Some? {
      RejectOutcome(o.value, RejectedEvent(d.stamp, o.value.orderId, d.reason));
    }
  }

  /** A fill goes through exactly when it is valid, does not overfill, and does not complete an order
      that is not open at the venue; it adds its size. */
  lemma FillReturns(c: Core, d: Call)
    requires Linked(c) && d.VenueFill?
    ensures var o, r := Target(c, d), Handle(c, d);
            && (r.Returned? <==>
                && o.Some? && d.size > 0.0 && 0.0 < d.price <= 1.0 && d.fee >= 0.0
                && o.value.filled + d.size <= o.value.Size()
                && (o.value.filled + d.size < o.value.Size()
                    || o.value.state in {Acked, PartiallyFilled, Filled}))
            && (r.Returned? ==>
                  && o.value.orderId in r.core.store.orders
                  && r.core.store.orders[o.value.orderId].filled == o.value.filled + d.size
                  && r.core.store.orders == c.store.orders[o.value.orderId := r.core.store.orders[o.value.orderId]])
            && (!r.Returned? ==> r.core.store == c.store)
  {
    hide Handle, OrderAfter;
    FillEffect(c, d);
    var o := Target(c, d);
    if o.Some? && d.size > 0.0 {
      FillOutcome(o.value, FillEvent(d.stamp, o.value.orderId, d.fillId, d.size, d.price, d.fee, d.venueFillId));
    }
  }

  // ---- Orders whose submission is timed --------------------------------------------------

  lemma CreationTracked(c: Core, d: Call)
    requires Linked(c) && d.CreateOrder? && Fresh(c, d)
    ensures Handle(c, d).core.tracked == if d.clientId in c.idem then c.tracked else c.tracked + {d.orderId}
  {
    if d.clientId !in c.idem {
      var p := Start(c, d);
      FinishStep(p);
      InsertNewOrder(c.store, d);
      UpdateNewOrder(c.store, d, New, PendingSubmit, [CreatedBy(d)]);
      SubmissionTracked(c, Resume(p.core, p.frame), d);
    }
  }

  lemma SubmissionTracked(c: Core, p: Progress, d: Call)
    requires c.store.WF() && p.WF() && p.Suspended? && d.CreateOrder?
    requires p.frame ==
             CommandPublished(NewOrder(d.orderId, d.clientId, d.intent).(state := PendingSubmit), d.submitted)
    requires p.core.store == WithNewOrder(c.store, d, PendingSubmit, [CreatedBy(d)]) && d.orderId in p.core.tracked
    ensures Finish(p).core.tracked == p.core.tracked
  {
    FinishStep(p);
    UpdateNewOrder(c.store, d, PendingSubmit, Submitted, [CreatedBy(d)]);
    FinishStep(Resume(p.core, p.frame));
  }

  lemma EventTracked(c: Core, e: Event)
    requires c.store.WF() && EventPublished(e).WellFormed()
    ensures var r := Finish(Suspended(c, EventPublished(e)));
            && (!e.FillEvent? ==> r.core.tracked == c.tracked)
            && (e.FillEvent? ==>
                  r.core.tracked ==
                  if r.Returned? && e.orderId in r.core.store.orders
                     && r.core.store.orders[e.orderId].state in {Filled, Cancelled, Rejected}
                  then c.tracked - {e.orderId} else c.tracked)
  {
    hide OrderAfter;
    FinishStep(Suspended(c, EventPublished(e)));
  }

  lemma CancelTracked(c: Core, d: Call)
    requires c.store.WF() && d.Cancel?
    ensures var o := Target(c, d);
            Handle(c, d).core.tracked == if o.Some? && o.value.state !in {Filled, Cancelled, Rejected}
            then c.tracked - {o.value.orderId} else c.tracked
  {
    var p0 := Start(c, d);
    if p0.Suspended? {
      FinishStep(p0);
      var p1 := Resume(p0.core, p0.frame);
      FinishStep(p1);
      var p2 := Resume(p1.core, p1.frame);
      EventTracked(p2.core, p2.frame.event);
    }
  }

  /** The submission of an order is timed from its creation until a cancel or reject of it begins or a
      fill closes it. */
  lemma TrackedAfter(c: Core, d: Call)
    requires Linked(c) && Fresh(c, d) && Direct(c, d) == Some(d)
    ensures var o, r := Target(c, d), Handle(c, d);
            r.core.tracked ==
            match d
            case CreateOrder(_, clientId, orderId, _, _) =>
              if clientId in c.idem then c.tracked else c.tracked + {orderId}
            case VenueReject(_, _, _) => if o.Some? then c.tracked - {o.value.orderId} else c.tracked
            case VenueFill(_, _, _, _, _, _, _) =>
              if r.Returned? && o.Some? && o.value.orderId in r.core.store.orders
                 && r.core.store.orders[o.value.orderId].state in {Filled, Cancelled, Rejected}
              then c.tracked - {o.value.orderId} else c.tracked
            case Cancel(_, _, _, _) =>
              if o.Some? && o.value.state !in {Filled, Cancelled, Rejected}
              then c.tracked - {o.value.orderId} else c.tracked
            case _ => c.tracked
  {
    if d.CreateOrder? {
      CreationTracked(c, d);
    } else if d.Cancel? {
      CancelTracked(c, d);
    } else {
      hide OrderAfter, Bus.Publish;
      var p := Start(c, d);
      if p.Suspended? {
        EventTracked(p.core, p.frame.event);
      }
    }
  }

  lemma CreationAwaits(c: Core, d: Call)
    requires Linked(c) && d.CreateOrder? && Fresh(c, d) && d.clientId !in c.idem
    ensures var p := Start(c, d);
            && p.Suspended?
            && var q := Resume(p.core, p.frame);
            && q.Suspended? && q.core.store == WithNewOrder(c.store, d, PendingSubmit, [CreatedBy(d)])
            && q.frame ==
               CommandPublished(NewOrder(d.orderId, d.clientId, d.intent).(state := PendingSubmit), d.submitted)
  {
    hide Bus.Publish;
    InsertNewOrder(c.store, d);
    UpdateNewOrder(c.store, d, New, PendingSubmit, [CreatedBy(d)]);
  }

  lemma StopBegins(c: Core, o: Order, stop: Call)
    requires c.store.WF() && (stop.VenueReject? || stop.Cancel?)
    requires Target(c, stop) == Some(o) && o.state == PendingSubmit
    ensures var u := Start(c, stop);
            u.Suspended? && u.core.store == c.store && o.orderId !in u.core.tracked
  {
  }

  /** A reject or cancel that begins while the submit command of its order is being published stops the
      creation: when it resumes the order becomes SUBMITTED, but the creation raises and no submission
      is logged. */
  lemma CreationStopped(c: Core, d: Call, stop: Call)
    requires Linked(c) && d.CreateOrder? && Fresh(c, d) && d.clientId !in c.idem
    requires (stop.VenueReject? || stop.Cancel?) && stop.clientId == d.clientId
    ensures var p := Start(c, d);
            && p.Suspended?
            && var q := Resume(p.core, p.frame);
            && q.Suspended?
            && var u := Start(q.core, stop);
            && u.Suspended?
            && var r := Resume(u.core, q.frame);
            && r.Raised? && r.core.bus == u.core.bus
            && d.orderId in r.core.store.orders && r.core.store.orders[d.orderId].state == Submitted
  {
    CreationAwaits(c, d);
    var q := Resume(Start(c, d).core, Start(c, d).frame);
    assert Target(q.core, stop) == Some(q.frame.order);
    hide Start, Bus.Publish, Indexed;
    StopBegins(q.core, q.frame.order, stop);
    UpdateNewOrder(c.store, d, PendingSubmit, Submitted, [CreatedBy(d)]);
  }
}
