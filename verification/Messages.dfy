/** What each call sends to the queues of the bus (polytrader/oms/core.py, polytrader/events/bus.py). */
module Messages {
  import opened Prelude
  import opened OrderModel
  import opened EventLog
  import opened OrderStore
  import opened OmsCore
  import opened OmsRuns
  import opened OrderHistory

  /** What an intent with a new key puts on the topic. */
  function OfCreation(d: Call, t: Topic): seq<Message>
    requires d.CreateOrder?
  {
    match t
    case OrderCreatedTopic => [EventMessage(CreatedEvent(d.created, d.orderId, d.clientId, d.intent))]
    case SubmitCommandsTopic => [SubmitMessage(SubmitOrderCommand(d.orderId, d.clientId, d.intent))]
    case OrderSubmittedTopic => [EventMessage(SubmittedEvent(d.submitted, d.orderId, d.clientId))]
    case _ => []
  }

  /** What a cancel of the order puts on the topic. */
  function OfCancel(d: Call, o: Order, t: Topic): seq<Message>
    requires d.Cancel?
  {
    match t
    case CancelRequestedTopic =>
      [EventMessage(CancelRequestedEvent(d.requested, o.orderId, d.clientId, d.cancelReason))]
    case CancelCommandsTopic => [CancelMessage(CancelOrderCommand(o.orderId, d.clientId, o.venueId, d.cancelReason))]
    case OrderCancelsTopic => [EventMessage(CanceledEvent(d.canceled, o.orderId, d.cancelReason))]
    case _ => []
  }

  /** What a direct call puts on the topic, read off the order it is about. */
  function Messages(c: Core, d: Call, t: Topic): seq<Message> {
    var o := Target(c, d);
    match d
    case CreateOrder(_, clientId, _, _, _) => if clientId in c.idem then [] else OfCreation(d, t)
    case VenueAck(_, venueId, stamp) =>
      if t == OrderAcksTopic && o.Some? && o.value.state in {Submitted, Acked}
      then [EventMessage(AckEvent(stamp, o.value.orderId, venueId))] else []
    case VenueReject(_, reason, stamp) =>
      if t == OrderRejectsTopic && o.Some? then [EventMessage(RejectedEvent(stamp, o.value.orderId, reason))] else []
    case VenueFill(_, size, price, fee, fillId, venueFillId, stamp) =>
      if t == FillsTopic && o.Some? && o.value.filled + size <= o.value.Size()
         && size > 0.0 && 0.0 < price <= 1.0 && fee >= 0.0
      then [EventMessage(FillEvent(stamp, o.value.orderId, fillId, size, price, fee, venueFillId))] else []
    case Cancel(_, _, _, _) =>
      if o.Some? && o.value.state !in {Filled, Cancelled, Rejected} then OfCancel(d, o.value, t) else []
    case _ => []
  }

  lemma ThreePublished(b: Bus, u: Topic, m: Message, v: Topic, n: Message, w: Topic, o: Message, t: Topic)
    requires u != v && v != w && u != w
    ensures Sent(b, b.Publish(u, m).Publish(v, n).Publish(w, o), t,
                 if t == u then [m] else if t == v then [n] else if t == w then [o] else [])
  {
    hide Sent, Bus.Publish;
    var b1 := b.Publish(u, m);
    var b2 := b1.Publish(v, n);
    PublishSends(b, u, m, t);
    PublishSends(b1, v, n, t);
    PublishSends(b2, w, o, t);
    var ms, ns, os := if t == u then [m] else [], if t == v then [n] else [], if t == w then [o] else [];
    SentThen(b, b1, b2, t, ms, ns);
    SentThen(b, b2, b2.Publish(w, o), t, ms + ns, os);
    assert ms + ns + os == if t == u then [m] else if t == v then [n] else if t == w then [o] else [];
  }

  // ---- The bus after each handler --------------------------------------------------------

  lemma CreationBus(c: Core, d: Call)
    requires Linked(c) && d.CreateOrder? && Fresh(c, d) && d.clientId !in c.idem
    ensures Handle(c, d).core.bus ==
            c.bus.Publish(OrderCreatedTopic, EventMessage(CreatedBy(d)))
            .Publish(SubmitCommandsTopic, SubmitMessage(SubmitOrderCommand(d.orderId, d.clientId, d.intent)))
            .Publish(OrderSubmittedTopic, EventMessage(SubmittedBy(d)))
  {
    hide Bus.Publish;
    var p := Start(c, d);
    FinishStep(p);
    InsertNewOrder(c.store, d);
    UpdateNewOrder(c.store, d, New, PendingSubmit, [CreatedBy(d)]);
    SubmissionBus(c, Resume(p.core, p.frame), d);
  }

  lemma SubmissionBus(c: Core, p: Progress, d: Call)
    requires c.store.WF() && p.WF() && p.Suspended? && d.CreateOrder?
    requires p.frame ==
             CommandPublished(NewOrder(d.orderId, d.clientId, d.intent).(state := PendingSubmit), d.submitted)
    requires p.core.store == WithNewOrder(c.store, d, PendingSubmit, [CreatedBy(d)]) && d.orderId in p.core.tracked
    ensures Finish(p).core.bus == p.core.bus.Publish(OrderSubmittedTopic, EventMessage(SubmittedBy(d)))
  {
    hide Bus.Publish;
    FinishStep(p);
    UpdateNewOrder(c.store, d, PendingSubmit, Submitted, [CreatedBy(d)]);
    FinishStep(Resume(p.core, p.frame));
  }

  lemma EventBusAfter(c: Core, d: Call, t: Topic, e: Event)
    requires c.store.WF() && e.IsOrderEvent() && TopicOf(e) == t
    requires Start(c, d).Suspended? && Start(c, d).frame == EventPublished(e)
    requires Start(c, d).core.bus == c.bus.Publish(t, EventMessage(e))
    ensures Handle(c, d).core.bus == c.bus.Publish(t, EventMessage(e))
  {
    hide Bus.Publish, Start, OrderAfter;
    FinishStep(Start(c, d));
  }

  lemma CancelBus(c: Core, d: Call)
    requires c.store.WF() && d.Cancel? && Target(c, d).Some? && !Target(c, d).value.Terminal()
    ensures var o := Target(c, d).value;
            Handle(c, d).core.bus ==
            c.bus.Publish(CancelRequestedTopic,
                          EventMessage(CancelRequestedEvent(d.requested, o.orderId, d.clientId, d.cancelReason)))
            .Publish(CancelCommandsTopic,
                     CancelMessage(CancelOrderCommand(o.orderId, d.clientId, o.venueId, d.cancelReason)))
            .Publish(OrderCancelsTopic, EventMessage(CanceledEvent(d.canceled, o.orderId, d.cancelReason)))
  {
    hide Bus.Publish, OrderAfter;
    var p0 := Start(c, d);
    FinishStep(p0);
    var p1 := Resume(p0.core, p0.frame);
    FinishStep(p1);
    FinishStep(Resume(p1.core, p1.frame));
  }

  lemma CreationSends(c: Core, d: Call, t: Topic)
    requires Linked(c) && d.CreateOrder? && Fresh(c, d)
    ensures Sent(c.bus, Handle(c, d).core.bus, t, Messages(c, d, t))
  {
    hide Handle, Sent, Bus.Publish;
    CreateEffect(c, d);
    SentNothing(c.bus, t);
    if d.clientId !in c.idem {
      CreationBus(c, d);
      ThreePublished(c.bus, OrderCreatedTopic, EventMessage(CreatedBy(d)),
                     SubmitCommandsTopic, SubmitMessage(SubmitOrderCommand(d.orderId, d.clientId, d.intent)),
                     OrderSubmittedTopic, EventMessage(SubmittedBy(d)), t);
    }
  }

  lemma CancelRaises(c: Core, d: Call)
    requires Linked(c) && d.Cancel?
    ensures c.store.WF()
    ensures Target(c, d).None? || Target(c, d).value.Terminal() ==> Handle(c, d).core.bus == c.bus
  {
    hide Handle;
    CancelEffect(c, d);
  }

  lemma CancelMessages(c: Core, d: Call, t: Topic)
    requires d.Cancel?
    ensures var o := Target(c, d);
            Messages(c, d, t) ==
            if o.None? || o.value.Terminal() then []
            else if t == CancelRequestedTopic then
              [EventMessage(CancelRequestedEvent(d.requested, o.value.orderId, d.clientId, d.cancelReason))]
            else if t == CancelCommandsTopic then
              [CancelMessage(CancelOrderCommand(o.value.orderId, d.clientId, o.value.venueId, d.cancelReason))]
            else if t == OrderCancelsTopic then
              [EventMessage(CanceledEvent(d.canceled, o.value.orderId, d.cancelReason))]
            else []
  {
    hide Target;
  }

  lemma CancelSends(c: Core, d: Call, t: Topic)
    requires Linked(c) && d.Cancel?
    ensures Sent(c.bus, Handle(c, d).core.bus, t, Messages(c, d, t))
  {
    hide Handle, Sent, Bus.Publish, Messages, OfCancel;
    SentNothing(c.bus, t);
    CancelRaises(c, d);
    CancelMessages(c, d, t);
    hide Target, Linked;
    var o := Target(c, d);
    if o.Some? && !o.value.Terminal() {
      CancelBus(c, d);
      ThreePublished(c.bus, CancelRequestedTopic,
                     EventMessage(CancelRequestedEvent(d.requested, o.value.orderId, d.clientId, d.cancelReason)),
                     CancelCommandsTopic,
                     CancelMessage(CancelOrderCommand(o.value.orderId, d.clientId, o.value.venueId, d.cancelReason)),
                     OrderCancelsTopic, EventMessage(CanceledEvent(d.canceled, o.value.orderId, d.cancelReason)), t);
    }
  }

  lemma AckStarts(c: Core, d: Call)
    requires Linked(c) && d.VenueAck? && Target(c, d).Some? && Target(c, d).value.state in {Submitted, Acked}
    ensures var e := AckEvent(d.stamp, Target(c, d).value.orderId, d.venueId);
            && Start(c, d).Suspended? && Start(c, d).frame == EventPublished(e)
            && Start(c, d).core.bus == c.bus.Publish(OrderAcksTopic, EventMessage(e))
  {
    hide Bus.Publish, Indexed;
    var o := Target(c, d).value;
    IndexedOrder(c.store, o.orderId);
    TargetStored(c, d);
    AckTwice(c.store, o, AckEvent(d.stamp, o.orderId, d.venueId));
  }

  lemma TargetStored(c: Core, d: Call)
    requires Linked(c) && Target(c, d).Some?
    ensures var o := Target(c, d).value; o.orderId in c.store.orders && c.store.orders[o.orderId] == o
  {
  }

  lemma AckSends(c: Core, d: Call, t: Topic)
    requires Linked(c) && d.VenueAck?
    ensures Sent(c.bus, Handle(c, d).core.bus, t, Messages(c, d, t))
  {
    assert c.store.WF();
    hide Handle, Start, Sent, Bus.Publish, Linked, Target;
    AckReturns(c, d);
    SentNothing(c.bus, t);
    var o := Target(c, d);
    if o.Some? && o.value.state in {Submitted, Acked} {
      var e := AckEvent(d.stamp, o.value.orderId, d.venueId);
      AckStarts(c, d);
      EventBusAfter(c, d, OrderAcksTopic, e);
      PublishSends(c.bus, OrderAcksTopic, EventMessage(e), t);
    } else {
      AckRaises(c, d);
    }
  }

  lemma AckRaises(c: Core, d: Call)
    requires Linked(c) && d.VenueAck? && !Handle(c, d).Returned?
    ensures Handle(c, d).core.bus == c.bus
  {
    hide Handle;
    AckEffect(c, d);
  }

  lemma RejectSends(c: Core, d: Call, t: Topic)
    requires Linked(c) && d.VenueReject?
    ensures Sent(c.bus, Handle(c, d).core.bus, t, Messages(c, d, t))
  {
    hide Handle, Sent, Bus.Publish;
    RejectEffect(c, d);
    SentNothing(c.bus, t);
    var o := Target(c, d);
    if o.Some? {
      var e := RejectedEvent(d.stamp, o.value.orderId, d.reason);
      EventBusAfter(c, d, OrderRejectsTopic, e);
      PublishSends(c.bus, OrderRejectsTopic, EventMessage(e), t);
    }
  }

  lemma FillSends(c: Core, d: Call, t: Topic)
    requires Linked(c) && d.VenueFill?
    ensures Sent(c.bus, Handle(c, d).core.bus, t, Messages(c, d, t))
  {
    hide Handle, Sent, Bus.Publish;
    FillEffect(c, d);
    SentNothing(c.bus, t);
    var o := Target(c, d);
    if o.Some? && o.value.filled + d.size <= o.value.Size() && ValidFill(d.size, d.price, d.fee) {
      var e := FillEvent(d.stamp, o.value.orderId, d.fillId, d.size, d.price, d.fee, d.venueFillId);
      EventBusAfter(c, d, FillsTopic, e);
      PublishSends(c.bus, FillsTopic, EventMessage(e), t);
    }
  }

  /** Every call, returning or raising, puts on each topic exactly the messages that are due: three
      topics for a creation with a new key and for a cancel of an open order, commands included, one
      for an ack, reject or fill that passes its checks, and nothing otherwise. */
  lemma HandleSends(c: Core, call: Call, t: Topic)
    requires Linked(c) && Fresh(c, call)
    ensures Sent(c.bus, Handle(c, call).core.bus, t,
                 if Direct(c, call).None? then [] else Messages(c, Direct(c, call).value, t))
  {
    hide Handle, Sent, Messages;
    HandleDirect(c, call);
    SentNothing(c.bus, t);
    if Direct(c, call).Some? {
      var d := Direct(c, call).value;
      match d {
        case CreateOrder(_, _, _, _, _) => CreationSends(c, d, t);
        case VenueAck(_, _, _) => AckSends(c, d, t);
        case VenueReject(_, _, _) => RejectSends(c, d, t);
        case VenueFill(_, _, _, _, _, _, _) => FillSends(c, d, t);
        case Cancel(_, _, _, _) => CancelSends(c, d, t);
      }
    }
  }

  /** Cancel commands in particular: one for each cancel of an order that is not closed, naming it
      and its venue id, whether or not the handler then raises, and none from any other call. */
  lemma CancelCommandSent(c: Core, call: Call)
    requires Linked(c) && Fresh(c, call)
    ensures var d := Direct(c, call);
            Sent(c.bus, Handle(c, call).core.bus, CancelCommandsTopic,
                 if d.Some? && d.value.Cancel? && Target(c, d.value).Some?
                    && Target(c, d.value).value.state !in {Filled, Cancelled, Rejected}
                 then
                   var o := Target(c, d.value).value;
                   [CancelMessage(CancelOrderCommand(o.orderId, d.value.clientId, o.venueId, d.value.cancelReason))]
                 else [])
  {
    hide Handle, Sent;
    HandleSends(c, call, CancelCommandsTopic);
  }
}
