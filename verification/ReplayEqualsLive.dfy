/** Rebuilding the store from the log of a run (polytrader/oms/store.py, polytrader/oms/core.py). */
module ReplayEqualsLive {
  import opened Prelude
  import opened OrderModel
  import opened EventLog
  import opened OrderStore
  import opened OmsCore
  import opened OmsRuns

  /** The call will publish an event that its own store update then refuses: a reject of an
      order past SUBMITTED, the last fill of an order that is not open at the venue, or the
      cancel of an order still in NEW or SUBMITTED. */
  predicate PublishesThenRaises(c: Core, call: Call) {
    var d := Direct(c, call);
    d.Some? &&
    var o := Target(c, d.value);
    o.Some? &&
    match d.value
    case VenueReject(_, _, _) => o.value.state in {Acked, PartiallyFilled, Filled, Cancelled}
    case VenueFill(_, size, price, fee, _, _, _) =>
      && ValidFill(size, price, fee)
      && o.value.filled + size == o.value.Size()
      && o.value.state !in {Acked, PartiallyFilled, Filled}
    case Cancel(_, _, _, _) => o.value.state in {New, Submitted}
    case _ => false
  }

  /** The call re-acks an order under another venue id while the old id is still indexed. */
  predicate ReAcksUnderNewId(c: Core, call: Call) {
    var d := Direct(c, call);
    d.Some? && d.value.VenueAck? &&
    var o := Target(c, d.value);
    && o.Some? && Transition(o.value, Acked, None).Some?
    && Truthy(o.value.venueId) && o.value.venueId.value in c.store.byVenue
    && o.value.venueId.value != d.value.venueId
  }

  function Rebuilt(c: Core): Option<Store> {
    Replay(EMPTY_STORE, c.bus.log.events)
  }

  ghost predicate SameButVenues(s: Store, t: Store) {
    t == s.(byVenue := t.byVenue) && forall v :: v in s.byVenue ==> v in t.byVenue && t.byVenue[v] == s.byVenue[v]
  }

  /** The rebuilt store has the same orders, client index and histories, and a venue index that
      contains the live one. */
  ghost predicate Mirrors(c: Core) {
    Rebuilt(c).Some? && SameButVenues(c.store, Rebuilt(c).value)
  }

  lemma ApplySameButVenues(s: Store, t: Store, e: Event)
    requires s.WF() && SameButVenues(s, t) && e.IsOrderEvent() && !e.CreatedEvent?
    ensures t.WF() && t.Apply(e).Some? == s.Apply(e).Some?
    ensures s.Apply(e).Some? ==> SameButVenues(s.Apply(e).value, t.Apply(e).value)
  {
  }

  lemma RebuiltAppend(c: Core, log: Log, e: Event)
    requires e.stamp.id !in log.ids && c.bus.log == log.Append(e)
    ensures Rebuilt(c) == var r := Replay(EMPTY_STORE, log.events); if r.None? then None else r.value.Apply(e)
  {
    ReplaySnoc(EMPTY_STORE, log.events, e);
  }

  lemma FirstReplay(t: Store, d: Call)
    requires t.WF() && d.CreateOrder? && d.orderId !in t.orders
    ensures t.ApplyCreated(CreatedBy(d)) == WithNewOrder(t, d, New, [CreatedBy(d)])
  {
    InsertNewOrder(t, d);
  }

  lemma SecondReplay(t: Store, d: Call)
    requires t.WF() && d.CreateOrder?
    ensures WithNewOrder(t, d, New, [CreatedBy(d)]).WF()
    ensures WithNewOrder(t, d, New, [CreatedBy(d)]).Apply(SubmittedBy(d))
         == Some(WithNewOrder(t, d, Submitted, [CreatedBy(d), SubmittedBy(d)]))
  {
    var u := WithNewOrder(t, d, New, [CreatedBy(d)]);
    assert u.history[d.orderId] + [SubmittedBy(d)] == [CreatedBy(d), SubmittedBy(d)];
    var v := u.Apply(SubmittedBy(d)).value;
    assert v.orders == WithNewOrder(t, d, Submitted, []).orders;
    assert v.history == t.history[d.orderId := [CreatedBy(d), SubmittedBy(d)]];
  }

  lemma CreatedReplay(t: Store, d: Call)
    requires t.WF() && d.CreateOrder? && d.orderId !in t.orders
    ensures t.ApplyCreated(CreatedBy(d)) == WithNewOrder(t, d, New, [CreatedBy(d)])
    ensures t.ApplyCreated(CreatedBy(d)).Apply(SubmittedBy(d))
         == Some(WithNewOrder(t, d, Submitted, [CreatedBy(d), SubmittedBy(d)]))
  {
    hide WithNewOrder;
    FirstReplay(t, d);
    SecondReplay(t, d);
  }

  lemma CreateMirrors(c: Core, d: Call)
    requires Linked(c) && d.CreateOrder? && Fresh(c, d) && Mirrors(c)
    ensures Mirrors(Handle(c, d).core)
    ensures Rebuilt(c) == Some(c.store) ==> Rebuilt(Handle(c, d).core) == Some(Handle(c, d).core.store)
  {
    hide Handle, Replay;
    CreateEffect(c, d);
    if d.clientId !in c.idem {
      var t := Rebuilt(c).value;
      CreatedReplay(t, d);
      ReplaySnoc(EMPTY_STORE, c.bus.log.events, CreatedBy(d));
      RebuiltAppend(Handle(c, d).core, c.bus.log.Append(CreatedBy(d)), SubmittedBy(d));
    }
  }

  /** An ack leaves the venue index as replaying its event would, exactly when it does not
      retire an indexed id. */
  lemma AckedVenuesIff(s: Store, o: Order, v: Id)
    ensures var replayed := if v != EMPTY then s.byVenue[v := o.orderId] else s.byVenue;
            var live := AckedVenues(s, o, v);
            && (live == replayed <==> !(Truthy(o.venueId) && o.venueId.value in s.byVenue && o.venueId.value != v))
            && (forall k :: k in live ==> k in replayed && live[k] == replayed[k])
  {
    if Truthy(o.venueId) {
      var u := o.venueId.value;
      RemoveAbsent(s.byVenue, u);
      if u in s.byVenue && u != v {
        assert u !in AckedVenues(s, o, v);
        assert u in if v != EMPTY then s.byVenue[v := o.orderId] else s.byVenue;
      }
    }
  }

  lemma AckSameButVenues(s: Store, t: Store, o: Order, e: Event)
    requires s.WF() && SameButVenues(s, t) && e.AckEvent?
    requires e.orderId == o.orderId && e.orderId in s.orders && s.orders[e.orderId] == o && s.Apply(e).Some?
    ensures t.WF() && t.Apply(e).Some?
    ensures var live := s.Apply(e).value.(byVenue := AckedVenues(s, o, e.venueId));
            && SameButVenues(live, t.Apply(e).value)
            && (t == s ==> (t.Apply(e).value == live <==>
                            !(Truthy(o.venueId) && o.venueId.value in s.byVenue && o.venueId.value != e.venueId)))
  {
    ApplySameButVenues(s, t, e);
    AckedVenuesIff(s, o, e.venueId);
  }

  lemma AckMirrors(c: Core, d: Call)
    requires Linked(c) && d.VenueAck? && Fresh(c, d) && Mirrors(c)
    ensures Mirrors(Handle(c, d).core)
    ensures Rebuilt(c) == Some(c.store) ==>
              (Rebuilt(Handle(c, d).core) == Some(Handle(c, d).core.store) <==> !ReAcksUnderNewId(c, d))
  {
    hide Handle, Replay;
    AckEffect(c, d);
    if Handle(c, d).Returned? {
      var o := Target(c, d).value;
      var e := AckEvent(d.stamp, o.orderId, d.venueId);
      RebuiltAppend(Handle(c, d).core, c.bus.log, e);
      AckSameButVenues(c.store, Rebuilt(c).value, o, e);
    }
  }

  lemma PublishedMirrors(c: Core, r: Progress, log: Log, e: Event)
    requires c.store.WF() && !r.Suspended? && PublishedThenApplied(c, r, log, e)
    requires e.IsOrderEvent() && !e.CreatedEvent? && !e.AckEvent? && e.stamp.id !in log.ids
    requires Mirrors(c) && Replay(EMPTY_STORE, log.events) == Rebuilt(c)
    ensures c.store.Apply(e).None? ==> Rebuilt(r.core) == None
    ensures c.store.Apply(e).Some? ==> Mirrors(r.core)
    ensures c.store.Apply(e).Some? && Rebuilt(c) == Some(c.store) ==> Rebuilt(r.core) == Some(r.core.store)
  {
    RebuiltAppend(r.core, log, e);
    ApplySameButVenues(c.store, Rebuilt(c).value, e);
  }

  /** When the store refuses a published event, read off the state of the order. */
  lemma WhenRefused(s: Store, e: Event)
    requires e.RejectedEvent? || e.CanceledEvent? || (e.FillEvent? && e.size > 0.0)
    requires s.WF() && e.orderId in s.orders && s.orders[e.orderId].filled >= 0.0
    ensures var o := s.orders[e.orderId];
            s.Apply(e).None? <==>
            match e
            case RejectedEvent(_, _, _) => o.state in {Acked, PartiallyFilled, Filled, Cancelled}
            case FillEvent(_, _, _, size, _, _, _) =>
              o.filled + size >= o.Size() && o.state !in {Acked, PartiallyFilled, Filled}
            case _ => o.state in {New, Submitted, Filled, Rejected}
  {
  }

  lemma RejectMirrors(c: Core, d: Call)
    requires Linked(c) && d.VenueReject? && Fresh(c, d) && Mirrors(c)
    ensures if PublishesThenRaises(c, d) then Rebuilt(Handle(c, d).core) == None else Mirrors(Handle(c, d).core)
    ensures Rebuilt(c) == Some(c.store) && !PublishesThenRaises(c, d) ==>
              Rebuilt(Handle(c, d).core) == Some(Handle(c, d).core.store)
  {
    hide Handle, Replay;
    RejectEffect(c, d);
    if Target(c, d).Some? {
      WhenRefused(c.store, RejectedEvent(d.stamp, Target(c, d).value.orderId, d.reason));
      PublishedMirrors(c, Handle(c, d), c.bus.log, RejectedEvent(d.stamp, Target(c, d).value.orderId, d.reason));
    }
  }

  lemma FillMirrors(c: Core, d: Call)
    requires Linked(c) && d.VenueFill? && Fresh(c, d) && Mirrors(c)
    ensures if PublishesThenRaises(c, d) then Rebuilt(Handle(c, d).core) == None else Mirrors(Handle(c, d).core)
    ensures Rebuilt(c) == Some(c.store) && !PublishesThenRaises(c, d) ==>
              Rebuilt(Handle(c, d).core) == Some(Handle(c, d).core.store)
  {
    hide Handle, Replay;
    FillEffect(c, d);
    if Handle(c, d) != Raised(c) {
      var e := FillEvent(d.stamp, Target(c, d).value.orderId, d.fillId, d.size, d.price, d.fee, d.venueFillId);
      WhenRefused(c.store, e);
      PublishedMirrors(c, Handle(c, d), c.bus.log, e);
    }
  }

  lemma CancelMirrors(c: Core, d: Call)
    requires Linked(c) && d.Cancel? && Fresh(c, d) && Mirrors(c)
    ensures if PublishesThenRaises(c, d) then Rebuilt(Handle(c, d).core) == None else Mirrors(Handle(c, d).core)
    ensures Rebuilt(c) == Some(c.store) && !PublishesThenRaises(c, d) ==>
              Rebuilt(Handle(c, d).core) == Some(Handle(c, d).core.store)
  {
    hide Handle, Replay;
    CancelEffect(c, d);
    if Handle(c, d) != Raised(c) {
      var o := Target(c, d).value;
      var request := CancelRequestedEvent(d.requested, o.orderId, d.clientId, d.cancelReason);
      ReplaySnoc(EMPTY_STORE, c.bus.log.events, request);
      var e := CanceledEvent(d.canceled, o.orderId, d.cancelReason);
      WhenRefused(c.store, e);
      PublishedMirrors(c, Handle(c, d), c.bus.log.Append(request), e);
    }
  }

  lemma DirectGuards(c: Core, call: Call)
    requires c.store.WF() && Direct(c, call).Some?
    ensures var d := Direct(c, call).value;
            && Direct(c, d) == Some(d)
            && (PublishesThenRaises(c, call) <==> PublishesThenRaises(c, d))
            && (ReAcksUnderNewId(c, call) <==> ReAcksUnderNewId(c, d))
  {
  }

  /** One call: if it publishes and then raises, the log can no longer be replayed; otherwise the
      replayed store still mirrors the live one, and an exact copy stays exact if and only if the
      call is not a re-ack under a new venue id. */
  lemma HandleMirrors(c: Core, call: Call)
    requires Linked(c) && Fresh(c, call) && Mirrors(c)
    ensures if PublishesThenRaises(c, call) then Rebuilt(Handle(c, call).core) == None
            else Mirrors(Handle(c, call).core)
    ensures Rebuilt(c) == Some(c.store) && !PublishesThenRaises(c, call) ==>
              (Rebuilt(Handle(c, call).core) == Some(Handle(c, call).core.store) <==> !ReAcksUnderNewId(c, call))
  {
    hide Handle, Replay, Mirrors;
    HandleDirect(c, call);
    if Direct(c, call).Some? {
      DirectGuards(c, call);
      var d := Direct(c, call).value;
      match d {
        case CreateOrder(_, _, _, _, _) => CreateMirrors(c, d);
        case VenueAck(_, _, _) => AckMirrors(c, d);
        case VenueReject(_, _, _) => RejectMirrors(c, d);
        case VenueFill(_, _, _, _, _, _, _) => FillMirrors(c, d);
        case Cancel(_, _, _, _) => CancelMirrors(c, d);
      }
    }
  }

  ghost predicate EveryCall(calls: seq<Call>, ok: (Core, Call) -> bool) {
    forall i :: 0 <= i < |calls| ==> ok(Run(INITIAL, calls[..i]), calls[i])
  }

  lemma EveryCallSplit(calls: seq<Call>, ok: (Core, Call) -> bool)
    requires calls != []
    ensures var front := calls[..|calls| - 1];
            EveryCall(calls, ok) <==> EveryCall(front, ok) && ok(Run(INITIAL, front), calls[|calls| - 1])
  {
    hide Run;
    var front := calls[..|calls| - 1];
    assert forall i :: 0 <= i < |front| ==> front[..i] == calls[..i] && front[i] == calls[i];
    assert calls[..|calls| - 1] == front;
    if EveryCall(calls, ok) {
      forall i | 0 <= i < |front| ensures ok(Run(INITIAL, front[..i]), front[i]) {
        assert ok(Run(INITIAL, calls[..i]), calls[i]);
      }
    }
    if EveryCall(front, ok) && ok(Run(INITIAL, front), calls[|calls| - 1]) {
      forall i | 0 <= i < |calls| ensures ok(Run(INITIAL, calls[..i]), calls[i]) {
        if i < |front| {
          assert ok(Run(INITIAL, front[..i]), front[i]);
        }
      }
    }
  }

  predicate PublishesOnlyWhatItApplies(c: Core, call: Call) {
    !PublishesThenRaises(c, call)
  }

  predicate KeepsVenueId(c: Core, call: Call) {
    !ReAcksUnderNewId(c, call)
  }

  lemma RebuiltStaysNone(c: Core, c': Core)
    requires c.bus.log.events <= c'.bus.log.events && Rebuilt(c) == None
    ensures Rebuilt(c') == None
  {
    var more := c'.bus.log.events[|c.bus.log.events|..];
    assert c'.bus.log.events == c.bus.log.events + more;
    ReplayNone(c.bus.log.events, more);
  }

  /** For every run: the log can be replayed if and only if no call published an event and then
      raised; and then orders, client index and histories come out as they are live. */
  lemma {:induction false} ReplayableIff(calls: seq<Call>)
    requires FreshRun(INITIAL, calls)
    ensures Rebuilt(Run(INITIAL, calls)).Some? <==> EveryCall(calls, PublishesOnlyWhatItApplies)
    ensures Rebuilt(Run(INITIAL, calls)).Some? ==> Mirrors(Run(INITIAL, calls))
  {
    if calls != [] {
      var front, last := calls[..|calls| - 1], calls[|calls| - 1];
      ReplayableIff(front);
      RunKeepsLinked(front);
      EveryCallSplit(calls, PublishesOnlyWhatItApplies);
      HandleKeepsLinked(Run(INITIAL, front), last);
      if Rebuilt(Run(INITIAL, front)).Some? {
        HandleMirrors(Run(INITIAL, front), last);
      } else {
        RebuiltStaysNone(Run(INITIAL, front), Run(INITIAL, calls));
      }
    }
  }

  /** For every run in which no call publishes and then raises, and no order is re-acked under a
      new venue id, the rebuilt store is the live store: orders, both indexes and histories. */
  lemma {:induction false} ReplayIsLive(calls: seq<Call>)
    requires FreshRun(INITIAL, calls)
    requires EveryCall(calls, PublishesOnlyWhatItApplies) && EveryCall(calls, KeepsVenueId)
    ensures Rebuilt(Run(INITIAL, calls)) == Some(Run(INITIAL, calls).store)
  {
    if calls != [] {
      var front, last := calls[..|calls| - 1], calls[|calls| - 1];
      EveryCallSplit(calls, PublishesOnlyWhatItApplies);
      EveryCallSplit(calls, KeepsVenueId);
      ReplayIsLive(front);
      RunKeepsLinked(front);
      HandleMirrors(Run(INITIAL, front), last);
    }
  }

  /** The rebuilt store is the live store after the first `n` calls. */
  ghost predicate LiveAfter(calls: seq<Call>, n: int)
    requires 0 <= n <= |calls|
  {
    Rebuilt(Run(INITIAL, calls[..n])) == Some(Run(INITIAL, calls[..n]).store)
  }

  lemma LiveStep(calls: seq<Call>, n: nat)
    requires FreshRun(INITIAL, calls) && n < |calls| && LiveAfter(calls, n)
    ensures LiveAfter(calls, n + 1) <==>
            PublishesOnlyWhatItApplies(Run(INITIAL, calls[..n]), calls[n])
            && KeepsVenueId(Run(INITIAL, calls[..n]), calls[n])
  {
    hide Handle, Replay, Linked, Fresh, PublishesThenRaises, ReAcksUnderNewId;
    var front, next := calls[..n], calls[..n + 1];
    assert next[..|next| - 1] == front && next[|next| - 1] == calls[n];
    FreshPrefix(calls, n + 1);
    RunKeepsLinked(front);
    HandleMirrors(Run(INITIAL, front), calls[n]);
  }

  /** In every run the rebuilt store is the live store at every moment if and only if no call
      publishes and then raises and none re-acks an order under a new venue id. */
  lemma ReplayIsLiveIff(calls: seq<Call>)
    requires FreshRun(INITIAL, calls)
    ensures (forall n :: 0 <= n <= |calls| ==> LiveAfter(calls, n))
       <==> EveryCall(calls, PublishesOnlyWhatItApplies) && EveryCall(calls, KeepsVenueId)
  {
    hide Run, Replay;
    if forall n :: 0 <= n <= |calls| ==> LiveAfter(calls, n) {
      forall n | 0 <= n < |calls|
        ensures PublishesOnlyWhatItApplies(Run(INITIAL, calls[..n]), calls[n])
        ensures KeepsVenueId(Run(INITIAL, calls[..n]), calls[n])
      {
        assert LiveAfter(calls, n) && LiveAfter(calls, n + 1);
        LiveStep(calls, n);
      }
    }
    if EveryCall(calls, PublishesOnlyWhatItApplies) && EveryCall(calls, KeepsVenueId) {
      forall n | 0 <= n <= |calls| ensures LiveAfter(calls, n) {
        LiveWhileKept(calls, n);
      }
    }
  }

  lemma {:induction false} LiveWhileKept(calls: seq<Call>, n: nat)
    requires FreshRun(INITIAL, calls) && n <= |calls|
    requires EveryCall(calls, PublishesOnlyWhatItApplies) && EveryCall(calls, KeepsVenueId)
    ensures LiveAfter(calls, n)
  {
    if n == 0 {
      assert calls[..0] == [];
    } else {
      hide Run, Replay;
      LiveWhileKept(calls, n - 1);
      LiveStep(calls, n - 1);
    }
  }

  /** The execution router also publishes fills, straight to the log, and each time an ack after
      it. Its full-size fill is refused by a replay unless the order is open or filled, and then
      the ack is, whatever state the order is in. */
  lemma RouterFillBreaksReplay(c: Core, orderId: Id, e: Event, ack: Event)
    requires Linked(c) && Mirrors(c) && orderId in c.store.orders
    requires e.FillEvent? && e.orderId == orderId && ValidFill(e.size, e.price, e.fee)
    requires e.size == c.store.orders[orderId].Size() && ack.AckEvent? && ack.orderId == orderId
    requires e.stamp.id !in c.bus.log.ids && ack.stamp.id !in c.bus.log.ids + {e.stamp.id}
    ensures var filled := c.Publish(FillsTopic, EventMessage(e));
            && (Rebuilt(filled) == None <==> c.store.orders[orderId].state !in {Acked, PartiallyFilled, Filled})
            && Rebuilt(filled.Publish(OrderAcksTopic, EventMessage(ack))) == None
  {
    hide Replay;
    var filled := c.Publish(FillsTopic, EventMessage(e));
    RebuiltAppend(filled, c.bus.log, e);
    ApplySameButVenues(c.store, Rebuilt(c).value, e);
    WhenRefused(c.store, e);
    RebuiltAppend(filled.Publish(OrderAcksTopic, EventMessage(ack)), filled.bus.log, ack);
    FullFillBarsAck(Rebuilt(c).value, e, ack);
  }
}
