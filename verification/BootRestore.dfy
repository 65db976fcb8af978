/** When exactly boot restores the live store of a run (polytrader/ops/replay.py,
    polytrader/oms/core.py, polytrader/oms/store.py). */
module BootRestore {
  import opened Prelude
  import opened OrderModel
  import opened EventLog
  import opened OrderStore
  import opened OmsCore
  import opened OmsRuns
  import opened ReplayEqualsLive
  import opened Reconstruction

  // ---- Boot takes each order's events as if they were alone ----------------------------

  lemma {:induction false} TypeOrderedFilter(xs: seq<Event>, p: Event -> bool)
    requires TypeOrdered(xs)
    ensures TypeOrdered(Filter(xs, p))
  {
    if xs != [] {
      hide Filter;
      var front, last := xs[..|xs| - 1], xs[|xs| - 1];
      TypeOrderedFront(xs);
      TypeOrderedFilter(front, p);
      FilterSnoc(xs, p);
      forall x | x in Filter(front, p) ensures NotAfter(x, last) {
        FilterMember(front, p, x);
        var i :| 0 <= i < |front| && front[i] == x;
        assert NotAfter(xs[i], xs[|xs| - 1]);
      }
      TypeOrderedSnoc(Filter(front, p), last);
    } else {
      assert Filter(xs, p) == [];
    }
  }

  lemma GatheredRanked(es: seq<Event>, x: Event)
    requires x in Gathered(es)
    ensures KindRank(KindOf(x)) < |ORDER_EVENT_KINDS|
  {
    hide Filter, Gathered, SortByTs, OfKind, TypeOrdered;
    GatheredByType(es, 0);
    assert x in multiset(Gathered(es));
    assert x in Filter(es, OrderEvent);
    FilterMember(es, OrderEvent, x);
  }

  lemma GatheredOrderOfKind(es: seq<Event>, id: Id, m: nat)
    requires m < |ORDER_EVENT_KINDS|
    ensures var k := OfKind(ORDER_EVENT_KINDS[m]);
            Filter(Filter(Gathered(es), About(id)), k) == Filter(Gathered(Filter(es, About(id))), k)
  {
    hide Filter, Gathered, SortByTs;
    var k, a := OfKind(ORDER_EVENT_KINDS[m]), About(id);
    GatheredByType(es, m);
    GatheredByType(Filter(es, a), m);
    FilterCommutes(Gathered(es), a, k);
    SortFilter(Filter(es, k), a);
    FilterCommutes(es, a, k);
  }

  /** What boot makes of one order's events does not depend on the others'. */
  lemma GatheredOrder(es: seq<Event>, id: Id)
    ensures Filter(Gathered(es), About(id)) == Gathered(Filter(es, About(id)))
  {
    hide Filter, Gathered, KindOf, KindRank;
    var xs, ys := Filter(Gathered(es), About(id)), Gathered(Filter(es, About(id)));
    GatheredByType(es, 0);
    GatheredByType(Filter(es, About(id)), 0);
    TypeOrderedFilter(Gathered(es), About(id));
    forall x | x in xs || x in ys ensures KindRank(KindOf(x)) < |ORDER_EVENT_KINDS| {
      if x in xs {
        FilterMember(Gathered(es), About(id), x);
        GatheredRanked(es, x);
      } else {
        GatheredRanked(Filter(es, About(id)), x);
      }
    }
    forall m | 0 <= m < |ORDER_EVENT_KINDS|
      ensures Filter(xs, OfKind(ORDER_EVENT_KINDS[m])) == Filter(ys, OfKind(ORDER_EVENT_KINDS[m]))
    {
      GatheredOrderOfKind(es, id, m);
    }
    TypeOrderedUnique(xs, ys);
  }

  /** Boot replays the events of an order in log order if and only if the log has them by timestamp
      and type; how they lie among the events of other orders is immaterial. */
  lemma GatheredOrderIff(es: seq<Event>, id: Id)
    ensures Filter(Gathered(es), About(id)) == Filter(es, About(id)) <==> TypeOrdered(Filter(es, About(id)))
    ensures |Filter(Gathered(es), About(id))| == |Filter(es, About(id))|
  {
    hide Filter, Gathered;
    var mine := Filter(es, About(id));
    GatheredOrder(es, id);
    GatheredIsLogOrder(mine);
    FilterFilter(es, OrderEvent, About(id));
    FilterCommutes(es, OrderEvent, About(id));
    GatheredByType(mine, 0);
    SameSize(Gathered(mine), mine);
  }

  lemma SameSize(xs: seq<Event>, ys: seq<Event>)
    requires multiset(xs) == multiset(ys)
    ensures |xs| == |ys|
  {
    assert |multiset(xs)| == |multiset(ys)|;
  }

  // ---- Histories and venue ids that a replay produces ----------------------------------

  /** What the order's history holds, nothing for an unknown order. */
  function Recorded(s: Store, id: Id): seq<Event> {
    if id in s.history then s.history[id] else []
  }

  /** The order's events start with its creation. */
  predicate Born(es: seq<Event>, id: Id) {
    Filter(es, About(id)) == [] || Filter(es, About(id))[0].CreatedEvent?
  }

  lemma BornFront(es: seq<Event>, id: Id)
    requires es != [] && Born(es, id)
    ensures Born(es[..|es| - 1], id)
  {
    FilterSnoc(es, About(id));
  }

  lemma ApplyRecords(s: Store, e: Event, id: Id)
    requires s.WF() && s.Apply(e).Some?
    ensures Recorded(s.Apply(e).value, id) ==
            Recorded(s, id) + if About(id)(e) && (e.CreatedEvent? || id in s.orders) then [e] else []
    ensures id in s.Apply(e).value.orders <==> id in s.orders || (About(id)(e) && e.CreatedEvent?)
  {
    hide OrderAfter;
  }

  /** A replay never records more than there is, and misses only what precedes the creation. */
  lemma {:induction false} ReplayRecords(es: seq<Event>, id: Id)
    requires Replay(EMPTY_STORE, es).Some?
    ensures var s, mine := Replay(EMPTY_STORE, es).value, Filter(es, About(id));
            && |Recorded(s, id)| <= |mine| && Recorded(s, id) == mine[|mine| - |Recorded(s, id)|..]
            && (Born(es, id) ==> Recorded(s, id) == mine && (id in s.orders <==> mine != []))
  {
    if es != [] {
      hide Filter, Recorded, OrderAfter, About;
      var front, last := es[..|es| - 1], es[|es| - 1];
      ReplayRecords(front, id);
      ApplyRecords(Replay(EMPTY_STORE, front).value, last, id);
      FilterSnoc(es, About(id));
      if Born(es, id) {
        BornFront(es, id);
      }
    }
  }

  function AcksUnder(v: Id): Event -> bool {
    (e: Event) => e.AckEvent? && e.venueId == v
  }

  /** The order last acked under the venue id. */
  function LastAcker(es: seq<Event>, v: Id): Option<Id> {
    var acks := Filter(es, AcksUnder(v));
    if acks == [] then None
    else
      FilterMember(es, AcksUnder(v), acks[|acks| - 1]);
      Some(acks[|acks| - 1].orderId)
  }

  function VenueEntry(s: Store, v: Id): Option<Id> {
    if v in s.byVenue then Some(s.byVenue[v]) else None
  }

  lemma {:induction false} ReplayVenues(es: seq<Event>, v: Id)
    requires Replay(EMPTY_STORE, es).Some? && forall id :: Born(es, id)
    ensures VenueEntry(Replay(EMPTY_STORE, es).value, v) == if v == EMPTY then None else LastAcker(es, v)
  {
    if es != [] {
      hide Filter, Born;
      var front, last := es[..|es| - 1], es[|es| - 1];
      forall id ensures Born(front, id) {
        BornFront(es, id);
      }
      ReplayVenues(front, v);
      FilterSnoc(es, AcksUnder(v));
      if AcksUnder(v)(last) {
        BornKnown(es);
      }
    }
  }

  lemma BornKnown(es: seq<Event>)
    requires es != [] && es[|es| - 1].AckEvent?
    requires Replay(EMPTY_STORE, es).Some? && Born(es, es[|es| - 1].orderId)
    ensures es[|es| - 1].orderId in Replay(EMPTY_STORE, es[..|es| - 1]).value.orders
  {
    hide Filter;
    var front, last := es[..|es| - 1], es[|es| - 1];
    BornFront(es, last.orderId);
    ReplayRecords(front, last.orderId);
    FilterSnoc(es, About(last.orderId));
  }

  lemma GatheredAcks(es: seq<Event>, v: Id)
    ensures LastAcker(Gathered(es), v) == LastAcker(SortByTs(es), v)
  {
    hide Filter, Gathered, SortByTs;
    GatheredByType(es, 2);
    FilterFilter(Gathered(es), OfKind(AckKind), AcksUnder(v));
    FilterFilter(SortByTs(es), OfKind(AckKind), AcksUnder(v));
    SortFilter(es, OfKind(AckKind));
  }

  // ---- What a call logs and what it records --------------------------------------------

  /** A call logs no order event and leaves the store alone; or it creates an order; or it logs one
      event of a known order and then applies it, unless the store refuses it. */
  ghost predicate LogsAndRecords(c: Core, c': Core, call: Call, es: seq<Event>)
    requires c.store.WF()
  {
    && Filter(c'.bus.log.events, OrderEvent) == Filter(c.bus.log.events, OrderEvent) + es
    && (|| (es == [] && c'.store == c.store)
        || (&& call.CreateOrder? && call.orderId !in c.store.orders
            && es == [CreatedBy(call), SubmittedBy(call)]
            && c'.store == WithNewOrder(c.store, call, Submitted, es))
        || (|es| == 1 && OneRecorded(c.store, c'.store, es[0])))
  }

  ghost predicate OneRecorded(s: Store, t: Store, e: Event)
    requires s.WF()
  {
    && e.IsOrderEvent() && !e.CreatedEvent? && e.orderId in s.orders
    && t == if s.Apply(e).Some? then s.Apply(e).value.(byVenue := t.byVenue) else s
  }

  predicate Refused(s: Store, es: seq<Event>)
    requires s.WF()
  {
    |es| == 1 && s.Apply(es[0]).None?
  }

  lemma AppendedOrderEvents(l: Log, e: Event)
    requires e.stamp.id !in l.ids
    ensures Filter(l.Append(e).events, OrderEvent) ==
            Filter(l.events, OrderEvent) + if OrderEvent(e) then [e] else []
  {
    hide Filter;
    FilterAppend(l.events, e, OrderEvent);
  }

  lemma CreateLogs(c: Core, d: Call) returns (es: seq<Event>)
    requires Linked(c) && Fresh(c, d) && d.CreateOrder?
    ensures LogsAndRecords(c, Handle(c, d).core, d, es) && !Refused(c.store, es)
  {
    hide Handle, Filter;
    CreateEffect(c, d);
    es := [];
    if d.clientId !in c.idem {
      es := [CreatedBy(d), SubmittedBy(d)];
      AppendedOrderEvents(c.bus.log, CreatedBy(d));
      AppendedOrderEvents(c.bus.log.Append(CreatedBy(d)), SubmittedBy(d));
      var before := Filter(c.bus.log.events, OrderEvent);
      assert before + [CreatedBy(d)] + [SubmittedBy(d)] == before + es;
    }
  }

  lemma AckLogs(c: Core, d: Call) returns (es: seq<Event>)
    requires Linked(c) && Fresh(c, d) && d.VenueAck?
    ensures LogsAndRecords(c, Handle(c, d).core, d, es) && !Refused(c.store, es)
  {
    hide Handle, Filter;
    AckEffect(c, d);
    es := [];
    if Handle(c, d).Returned? {
      var e := AckEvent(d.stamp, Target(c, d).value.orderId, d.venueId);
      es := [e];
      AppendedOrderEvents(c.bus.log, e);
    }
  }

  lemma PublishedLogs(c: Core, r: Progress, log: Log, d: Call, e: Event)
    requires c.store.WF() && !r.Suspended? && PublishedThenApplied(c, r, log, e) && e.stamp.id !in log.ids
    requires e.IsOrderEvent() && !e.CreatedEvent? && e.orderId in c.store.orders
    requires Filter(log.events, OrderEvent) == Filter(c.bus.log.events, OrderEvent)
    ensures LogsAndRecords(c, r.core, d, [e])
  {
    hide Filter;
    AppendedOrderEvents(log, e);
  }

  lemma NothingLogged(c: Core, d: Call)
    requires c.store.WF()
    ensures LogsAndRecords(c, c, d, []) && !Refused(c.store, [])
  {
    hide Filter;
    assert Filter(c.bus.log.events, OrderEvent) + [] == Filter(c.bus.log.events, OrderEvent);
  }

  lemma RejectLogs(c: Core, d: Call) returns (es: seq<Event>)
    requires Linked(c) && Fresh(c, d) && d.VenueReject?
    ensures LogsAndRecords(c, Handle(c, d).core, d, es) && (Refused(c.store, es) <==> PublishesThenRaises(c, d))
  {
    hide Handle, Filter, LogsAndRecords, OrderAfter;
    RejectEffect(c, d);
    NothingLogged(c, d);
    es := [];
    if Target(c, d).Some? {
      var e := RejectedEvent(d.stamp, Target(c, d).value.orderId, d.reason);
      WhenRefused(c.store, e);
      PublishedLogs(c, Handle(c, d), c.bus.log, d, e);
      es := [e];
    }
  }

  lemma FillLogs(c: Core, d: Call) returns (es: seq<Event>)
    requires Linked(c) && Fresh(c, d) && d.VenueFill?
    ensures LogsAndRecords(c, Handle(c, d).core, d, es) && (Refused(c.store, es) <==> PublishesThenRaises(c, d))
  {
    hide Handle, Filter, LogsAndRecords, OrderAfter;
    FillEffect(c, d);
    NothingLogged(c, d);
    es := [];
    if Handle(c, d) != Raised(c) {
      var e := FillEvent(d.stamp, Target(c, d).value.orderId, d.fillId, d.size, d.price, d.fee, d.venueFillId);
      WhenRefused(c.store, e);
      PublishedLogs(c, Handle(c, d), c.bus.log, d, e);
      es := [e];
    }
  }

  lemma CancelLogs(c: Core, d: Call) returns (es: seq<Event>)
    requires Linked(c) && Fresh(c, d) && d.Cancel?
    ensures LogsAndRecords(c, Handle(c, d).core, d, es) && (Refused(c.store, es) <==> PublishesThenRaises(c, d))
  {
    hide Handle, Filter, LogsAndRecords, OrderAfter;
    CancelEffect(c, d);
    NothingLogged(c, d);
    es := [];
    if Handle(c, d) != Raised(c) {
      var o := Target(c, d).value;
      var request := CancelRequestedEvent(d.requested, o.orderId, d.clientId, d.cancelReason);
      var e := CanceledEvent(d.canceled, o.orderId, d.cancelReason);
      AppendedOrderEvents(c.bus.log, request);
      assert Filter(c.bus.log.events, OrderEvent) + [] == Filter(c.bus.log.events, OrderEvent);
      WhenRefused(c.store, e);
      PublishedLogs(c, Handle(c, d), c.bus.log.Append(request), d, e);
      es := [e];
    }
  }

  lemma DirectLogs(c: Core, d: Call) returns (es: seq<Event>)
    requires Linked(c) && Fresh(c, d) && Direct(c, d) == Some(d)
    ensures LogsAndRecords(c, Handle(c, d).core, d, es) && (Refused(c.store, es) <==> PublishesThenRaises(c, d))
  {
    hide Handle, Filter, LogsAndRecords, OrderAfter;
    match d {
      case CreateOrder(_, _, _, _, _) => es := CreateLogs(c, d);
      case VenueAck(_, _, _) => es := AckLogs(c, d);
      case VenueReject(_, _, _) => es := RejectLogs(c, d);
      case VenueFill(_, _, _, _, _, _, _) => es := FillLogs(c, d);
      case Cancel(_, _, _, _) => es := CancelLogs(c, d);
    }
  }

  lemma HandleLogs(c: Core, call: Call) returns (es: seq<Event>)
    requires Linked(c) && Fresh(c, call)
    ensures LogsAndRecords(c, Handle(c, call).core, call, es)
            && (Refused(c.store, es) <==> PublishesThenRaises(c, call))
  {
    hide Handle, Filter, LogsAndRecords;
    HandleDirect(c, call);
    es := [];
    if Direct(c, call).Some? {
      DirectGuards(c, call);
      es := DirectLogs(c, Direct(c, call).value);
      DirectLogsAlike(c, Handle(c, call).core, call, es);
    } else {
      NothingLogged(c, call);
    }
  }

  lemma DirectLogsAlike(c: Core, c': Core, call: Call, es: seq<Event>)
    requires c.store.WF() && Direct(c, call).Some? && LogsAndRecords(c, c', Direct(c, call).value, es)
    ensures LogsAndRecords(c, c', call, es)
  {
  }

  // ---- What the log of a run says about its store ---------------------------------------

  /** The order's events in the log. */
  function LoggedFor(c: Core, id: Id): seq<Event> {
    Filter(c.bus.log.events, About(id))
  }

  /** The log has events exactly of the stored orders, each order's from its creation on, and that
      under its client id. */
  ghost predicate Chronicled(c: Core) {
    && (forall id :: Born(c.bus.log.events, id))
    && (forall id :: id in c.store.orders <==> LoggedFor(c, id) != [])
    && (forall e :: e in c.bus.log.events && e.CreatedEvent? ==> CreatesStored(c.store, e))
  }

  predicate CreatesStored(s: Store, e: Event)
    requires e.CreatedEvent?
  {
    e.orderId in s.orders && s.orders[e.orderId].clientId == e.clientId
  }

  lemma LoggedAfter(c: Core, c': Core, es: seq<Event>, id: Id)
    requires Filter(c'.bus.log.events, OrderEvent) == Filter(c.bus.log.events, OrderEvent) + es
    ensures LoggedFor(c', id) == LoggedFor(c, id) + Filter(es, About(id))
  {
    hide Filter;
    FilterFilter(c.bus.log.events, OrderEvent, About(id));
    FilterFilter(c'.bus.log.events, OrderEvent, About(id));
    FilterConcat(Filter(c.bus.log.events, OrderEvent), es, About(id));
  }

  lemma TwoOfOrder(d: Call, id: Id)
    requires d.CreateOrder?
    ensures Filter([CreatedBy(d), SubmittedBy(d)], About(id)) ==
            if id == d.orderId then [CreatedBy(d), SubmittedBy(d)] else []
  {
    hide Filter;
    FilterConcat([CreatedBy(d)], [SubmittedBy(d)], About(id));
    OneOfOrder(CreatedBy(d), id);
    OneOfOrder(SubmittedBy(d), id);
    assert [CreatedBy(d)] + [SubmittedBy(d)] == [CreatedBy(d), SubmittedBy(d)];
  }

  lemma OneOfOrder(e: Event, id: Id)
    ensures Filter([e], About(id)) == if About(id)(e) then [e] else []
  {
    assert [] + [e] == [e] && Filter([], About(id)) == [];
    FilterAppend([], e, About(id));
  }

  /** What a call adds to an order's events it adds to its history, unless the store refuses it. */
  lemma RecordedAfter(c: Core, c': Core, call: Call, es: seq<Event>, id: Id)
    requires c.store.WF() && LogsAndRecords(c, c', call, es)
    ensures LoggedFor(c', id) == LoggedFor(c, id) + Filter(es, About(id))
    ensures Recorded(c'.store, id) == Recorded(c.store, id) + if Refused(c.store, es) then [] else Filter(es, About(id))
    ensures id in c'.store.orders <==> id in c.store.orders || (Filter(es, About(id)) != [] && es[0].CreatedEvent?)
    ensures forall e :: e in es && e.IsOrderEvent() && !es[0].CreatedEvent? ==> e.orderId in c.store.orders
  {
    hide Filter, OrderAfter, LoggedFor;
    LoggedAfter(c, c', es, id);
    if es == [] {
      assert Filter(es, About(id)) == [] by { FilterNone(es, About(id)); }
    } else if |es| == 1 {
      OneOfOrder(es[0], id);
      assert es == [es[0]];
    } else {
      TwoOfOrder(call, id);
    }
  }

  lemma ClientIdsKept(c: Core, c': Core, call: Call, es: seq<Event>, id: Id)
    requires c.store.WF() && LogsAndRecords(c, c', call, es) && id in c.store.orders
    ensures id in c'.store.orders && c'.store.orders[id].clientId == c.store.orders[id].clientId
  {
    hide Filter, OrderAfter;
    if |es| == 1 && OneRecorded(c.store, c'.store, es[0]) && c.store.Apply(es[0]).Some? {
      OrderAfterKeeps(c.store.orders[es[0].orderId], es[0]);
    }
  }

  lemma CreationStored(c: Core, c': Core, call: Call, es: seq<Event>, e: Event)
    requires c.store.WF() && Chronicled(c) && LogsAndRecords(c, c', call, es)
    requires e in c'.bus.log.events && e.CreatedEvent?
    ensures CreatesStored(c'.store, e)
  {
    hide Filter, OrderAfter;
    FilterMember(c'.bus.log.events, OrderEvent, e);
    if e in es {
      assert es == [CreatedBy(call), SubmittedBy(call)];
    } else {
      FilterMember(c.bus.log.events, OrderEvent, e);
      assert CreatesStored(c.store, e);
      ClientIdsKept(c, c', call, es, e.orderId);
    }
  }

  lemma BornAfter(c: Core, c': Core, call: Call, es: seq<Event>, id: Id)
    requires c.store.WF() && Chronicled(c) && LogsAndRecords(c, c', call, es)
    ensures Born(c'.bus.log.events, id)
    ensures id in c'.store.orders <==> LoggedFor(c', id) != []
  {
    hide Filter, OrderAfter, LogsAndRecords;
    RecordedAfter(c, c', call, es, id);
    assert Born(c.bus.log.events, id);
    var more := Filter(es, About(id));
    if LoggedFor(c, id) == [] && more != [] {
      FilterMember(es, About(id), more[0]);
      OnlyCreationsOfNew(c, c', call, es, id);
    }
  }

  lemma OnlyCreationsOfNew(c: Core, c': Core, call: Call, es: seq<Event>, id: Id)
    requires c.store.WF() && LogsAndRecords(c, c', call, es) && Filter(es, About(id)) != [] && id !in c.store.orders
    ensures es[0].CreatedEvent? && Filter(es, About(id)) == es
  {
    hide Filter;
    FilterMember(es, About(id), Filter(es, About(id))[0]);
    if |es| == 2 {
      TwoOfOrder(call, id);
    }
  }

  lemma HandleChronicled(c: Core, call: Call)
    requires Linked(c) && Fresh(c, call) && Chronicled(c)
    ensures Chronicled(Handle(c, call).core)
  {
    hide Handle, Born, LoggedFor, LogsAndRecords;
    var es := HandleLogs(c, call);
    var c' := Handle(c, call).core;
    forall id ensures Born(c'.bus.log.events, id) && (id in c'.store.orders <==> LoggedFor(c', id) != []) {
      BornAfter(c, c', call, es, id);
    }
    forall e | e in c'.bus.log.events && e.CreatedEvent? ensures CreatesStored(c'.store, e) {
      CreationStored(c, c', call, es, e);
    }
  }

  lemma {:induction false} RunChronicled(calls: seq<Call>)
    requires FreshRun(INITIAL, calls)
    ensures Chronicled(Run(INITIAL, calls))
  {
    hide Handle, Chronicled, Linked;
    if calls == [] {
      InitialChronicled();
    } else {
      RunChronicled(calls[..|calls| - 1]);
      RunKeepsLinked(calls[..|calls| - 1]);
      HandleChronicled(Run(INITIAL, calls[..|calls| - 1]), calls[|calls| - 1]);
    }
  }

  lemma InitialChronicled()
    ensures Chronicled(INITIAL)
  {
  }

  /** The live history has all that was logged for the order. */
  predicate FullyRecorded(c: Core, id: Id) {
    Recorded(c.store, id) == LoggedFor(c, id)
  }

  /** In every run the live histories have all that was logged for their orders if and only if no
      call published and then raised; otherwise some history has less. */
  lemma {:induction false} FullyRecordedIff(calls: seq<Call>)
    requires FreshRun(INITIAL, calls)
    ensures var c := Run(INITIAL, calls);
            && (forall id :: |Recorded(c.store, id)| <= |LoggedFor(c, id)|)
            && (EveryCall(calls, PublishesOnlyWhatItApplies) ==> forall id :: FullyRecorded(c, id))
            && (!EveryCall(calls, PublishesOnlyWhatItApplies) ==>
                  exists id :: |Recorded(c.store, id)| < |LoggedFor(c, id)|)
  {
    if calls == [] {
      forall id ensures FullyRecorded(INITIAL, id) {
        assert Filter<Event>([], About(id)) == [];
      }
    } else {
      hide Handle, Linked, EveryCall, Filter, PublishesThenRaises;
      var front, last := calls[..|calls| - 1], calls[|calls| - 1];
      var c, c' := Run(INITIAL, front), Run(INITIAL, calls);
      FullyRecordedIff(front);
      RunKeepsLinked(front);
      EveryCallSplit(calls, PublishesOnlyWhatItApplies);
      var es := HandleLogs(c, last);
      forall id
        ensures |LoggedFor(c', id)| - |Recorded(c'.store, id)| >= |LoggedFor(c, id)| - |Recorded(c.store, id)|
        ensures FullyRecorded(c, id) && !PublishesThenRaises(c, last) ==> FullyRecorded(c', id)
      {
        RecordedAfter(c, c', last, es, id);
      }
      if PublishesThenRaises(c, last) {
        RecordedAfter(c, c', last, es, es[0].orderId);
      }
    }
  }

  lemma RunClientIdsDistinct(calls: seq<Call>)
    requires FreshRun(INITIAL, calls)
    ensures ClientIdsDistinct(Run(INITIAL, calls).bus.log.events)
  {
    hide Handle, Born, LoggedFor, Run, FreshRun;
    RunKeepsLinked(calls);
    RunChronicled(calls);
    var c := Run(INITIAL, calls);
    forall e, f | e in c.bus.log.events && f in c.bus.log.events && e.CreatedEvent? && f.CreatedEvent?
                  && e.clientId == f.clientId
      ensures e.orderId == f.orderId
    {
      assert CreatesStored(c.store, e) && CreatesStored(c.store, f);
    }
  }

  // ---- Boot and the live store -----------------------------------------------------------

  /** What boot rebuilds from the log. */
  function Boot(c: Core): Option<Store> {
    Replay(EMPTY_STORE, Gathered(c.bus.log.events))
  }

  /** Boot restores orders, client index and histories. */
  ghost predicate BootsOrders(c: Core) {
    Boot(c).Some? && Boot(c).value == c.store.(byVenue := Boot(c).value.byVenue)
  }

  /** The log has the events of each order by timestamp, and simultaneous ones in the order of
      their types. */
  ghost predicate OrdersByType(c: Core) {
    forall id :: TypeOrdered(LoggedFor(c, id))
  }

  lemma BootAlike(c: Core)
    requires OrdersByType(c) && ClientIdsDistinct(c.bus.log.events) && Rebuilt(c).Some?
    ensures Boot(c).Some? && Boot(c).value == Rebuilt(c).value.(byVenue := Boot(c).value.byVenue)
    ensures forall id :: Filter(Gathered(c.bus.log.events), About(id)) == LoggedFor(c, id)
  {
    hide Filter, Gathered, Replay, TypeOrdered;
    var es := c.bus.log.events;
    forall id ensures Filter(es, About(id)) == Filter(Gathered(es), About(id)) {
      GatheredOrderIff(es, id);
      assert TypeOrdered(LoggedFor(c, id));
    }
    InterleavingIrrelevant(es, Gathered(es));
  }

  lemma BootRecordsAll(c: Core, id: Id)
    requires BootsOrders(c) && FullyRecorded(c, id)
    ensures TypeOrdered(LoggedFor(c, id))
  {
    hide Filter, Gathered, Replay, TypeOrdered;
    var es := c.bus.log.events;
    GatheredOrderIff(es, id);
    ReplayRecords(Gathered(es), id);
    assert Recorded(Boot(c).value, id) == Recorded(c.store, id);
  }

  /** For every run without publish-then-raise: boot restores orders, client index and histories
      if and only if each order's own events were logged by timestamp and type. How the events of
      different orders are stamped and interleaved is immaterial. */
  lemma BootsOrdersIff(calls: seq<Call>)
    requires FreshRun(INITIAL, calls) && EveryCall(calls, PublishesOnlyWhatItApplies)
    ensures BootsOrders(Run(INITIAL, calls)) <==> OrdersByType(Run(INITIAL, calls))
  {
    hide Run, FreshRun, EveryCall, Replay, TypeOrdered, LoggedFor, Gathered;
    var c := Run(INITIAL, calls);
    ReplayableIff(calls);
    FullyRecordedIff(calls);
    if BootsOrders(c) {
      forall id ensures TypeOrdered(LoggedFor(c, id)) {
        assert FullyRecorded(c, id);
        BootRecordsAll(c, id);
      }
    }
    if OrdersByType(c) {
      RunClientIdsDistinct(calls);
      BootAlike(c);
    }
  }

  /** No order has an event stamped before the first one logged for it, as on any clock that does
      not run backwards. */
  ghost predicate NothingBeforeFirst(es: seq<Event>) {
    forall id, f :: f in Filter(es, About(id)) ==> Filter(es, About(id))[0].stamp.ts <= f.stamp.ts
  }

  lemma BornGathered(es: seq<Event>, id: Id)
    requires NothingBeforeFirst(es) && Born(es, id)
    ensures Born(Gathered(es), id)
  {
    hide Filter, Gathered, TypeOrdered;
    var xs, mine := Filter(Gathered(es), About(id)), Filter(es, About(id));
    if xs != [] {
      GatheredOrderIff(es, id);
      GatheredOrder(es, id);
      GatheredByType(mine, 0);
      FilterFilter(es, OrderEvent, About(id));
      FilterCommutes(es, OrderEvent, About(id));
      FirstArranged(xs, mine);
      FilterMember(es, About(id), xs[0]);
    }
  }

  lemma FirstArranged(xs: seq<Event>, ys: seq<Event>)
    requires TypeOrdered(xs) && multiset(xs) == multiset(ys) && ys != [] && xs != []
    ensures xs[0] == ys[0] || NotAfter(xs[0], ys[0])
    ensures xs[0] in ys
  {
    assert ys[0] in multiset(xs);
    assert xs[0] in multiset(ys);
    var i :| 0 <= i < |xs| && xs[i] == ys[0];
    assert i > 0 ==> NotAfter(xs[0], xs[i]);
  }

  /** Every run on such a clock: boot restores orders, client index and histories if and only if no
      call published and then raised and each order's events were logged by timestamp and type. */
  lemma BootsOrdersOnClockIff(calls: seq<Call>)
    requires FreshRun(INITIAL, calls) && NothingBeforeFirst(Run(INITIAL, calls).bus.log.events)
    ensures BootsOrders(Run(INITIAL, calls)) <==>
            EveryCall(calls, PublishesOnlyWhatItApplies) && OrdersByType(Run(INITIAL, calls))
  {
    hide Run, FreshRun, EveryCall, Replay, TypeOrdered, BootsOrders, Gathered, NothingBeforeFirst, OrdersByType;
    var c := Run(INITIAL, calls);
    if EveryCall(calls, PublishesOnlyWhatItApplies) {
      BootsOrdersIff(calls);
    } else if BootsOrders(c) {
      FullyRecordedIff(calls);
      var id :| |Recorded(c.store, id)| < |LoggedFor(c, id)|;
      RunChronicled(calls);
      BootRecordsAsMany(c, id);
      assert false;
    }
  }

  lemma BootRecordsAsMany(c: Core, id: Id)
    requires BootsOrders(c) && Chronicled(c) && NothingBeforeFirst(c.bus.log.events)
    ensures |Recorded(c.store, id)| == |LoggedFor(c, id)|
  {
    hide Filter, Gathered, Replay, NothingBeforeFirst;
    var es := c.bus.log.events;
    assert Born(es, id);
    BornGathered(es, id);
    ReplayRecords(Gathered(es), id);
    GatheredOrderIff(es, id);
    assert Recorded(Boot(c).value, id) == Recorded(c.store, id);
  }

  /** Of the acks under one venue id the one logged last is also the last by timestamp, or one of
      the same order is. */
  ghost predicate LastAcksAgree(es: seq<Event>) {
    forall v :: v != EMPTY ==> LastAcker(es, v) == LastAcker(SortByTs(es), v)
  }

  lemma SameVenueEntries(s: Store, t: Store)
    ensures s.byVenue == t.byVenue <==> forall v :: VenueEntry(s, v) == VenueEntry(t, v)
  {
    if forall v :: VenueEntry(s, v) == VenueEntry(t, v) {
      forall v ensures v in s.byVenue <==> v in t.byVenue
        ensures v in s.byVenue && v in t.byVenue ==> s.byVenue[v] == t.byVenue[v]
      {
        assert VenueEntry(s, v) == VenueEntry(t, v);
      }
    }
  }

  lemma BootVenuesIff(c: Core)
    requires OrdersByType(c) && Chronicled(c) && ClientIdsDistinct(c.bus.log.events) && Rebuilt(c).Some?
    ensures Boot(c).Some? && (Boot(c).value.byVenue == Rebuilt(c).value.byVenue <==> LastAcksAgree(c.bus.log.events))
  {
    hide Filter, Gathered, Replay, OrdersByType, LastAcker, ClientIdsDistinct, SortByTs;
    var es := c.bus.log.events;
    BootAlike(c);
    forall id ensures Born(es, id) && Born(Gathered(es), id) {
      assert Born(es, id);
    }
    var s, t := Rebuilt(c).value, Boot(c).value;
    forall v
      ensures VenueEntry(s, v) == if v == EMPTY then None else LastAcker(es, v)
      ensures VenueEntry(t, v) == if v == EMPTY then None else LastAcker(SortByTs(es), v)
    {
      ReplayVenues(es, v);
      ReplayVenues(Gathered(es), v);
      GatheredAcks(es, v);
    }
    SameVenueEntries(s, t);
  }

  /** For every run without publish-then-raise and without re-ack under a new venue id, boot
      restores the live store if and only if each order's own events were logged by timestamp and
      type and no venue id was last acked for one order by logging and for another by timestamp. */
  lemma BootRestoresLiveIff(calls: seq<Call>)
    requires FreshRun(INITIAL, calls)
    requires EveryCall(calls, PublishesOnlyWhatItApplies) && EveryCall(calls, KeepsVenueId)
    ensures var c := Run(INITIAL, calls);
            Boot(c) == Some(c.store) <==> OrdersByType(c) && LastAcksAgree(c.bus.log.events)
  {
    hide Run, FreshRun, EveryCall, Replay, OrdersByType, LastAcksAgree, Chronicled, ClientIdsDistinct;
    var c := Run(INITIAL, calls);
    ReplayIsLive(calls);
    BootsOrdersIff(calls);
    if OrdersByType(c) {
      RunChronicled(calls);
      RunClientIdsDistinct(calls);
      BootVenuesIff(c);
    }
  }

  lemma {:induction false} DistinctAcksAgree(es: seq<Event>)
    requires VenueIdsDistinct(es)
    ensures LastAcksAgree(es)
  {
    hide Filter, SortByTs;
    forall v | v != EMPTY ensures LastAcker(es, v) == LastAcker(SortByTs(es), v) {
      var acks := Filter(es, AcksUnder(v));
      SortFilter(es, AcksUnder(v));
      SortSorts(acks);
      var sorted := SortByTs(acks);
      SameSize(sorted, acks);
      if acks != [] {
        var a, b := acks[|acks| - 1], sorted[|acks| - 1];
        assert b in multiset(sorted);
        FilterMember(es, AcksUnder(v), a);
        FilterMember(es, AcksUnder(v), b);
      }
    }
  }

  /** With venue ids distinct across orders only the events of each order matter. */
  lemma BootRestoresDistinctIff(calls: seq<Call>)
    requires FreshRun(INITIAL, calls)
    requires EveryCall(calls, PublishesOnlyWhatItApplies) && EveryCall(calls, KeepsVenueId)
    requires VenueIdsDistinct(Run(INITIAL, calls).bus.log.events)
    ensures var c := Run(INITIAL, calls);
            Boot(c) == Some(c.store) <==> OrdersByType(c)
  {
    BootRestoresLiveIff(calls);
    DistinctAcksAgree(Run(INITIAL, calls).bus.log.events);
  }

  lemma OrderedAcksAgree(es: seq<Event>)
    requires Ordered(Filter(es, OrderEvent))
    ensures LastAcksAgree(es)
  {
    hide Filter, SortByTs, Ordered;
    forall v | v != EMPTY ensures LastAcker(es, v) == LastAcker(SortByTs(es), v) {
      SortFilter(es, AcksUnder(v));
      FilterFilter(es, OrderEvent, AcksUnder(v));
      FilterOrdered(Filter(es, OrderEvent), AcksUnder(v));
      SortOrdered(Filter(es, AcksUnder(v)));
    }
  }

  lemma OrderedNothingBefore(es: seq<Event>)
    requires Ordered(Filter(es, OrderEvent))
    ensures NothingBeforeFirst(es)
  {
    hide Filter;
    forall id, f | f in Filter(es, About(id)) ensures Filter(es, About(id))[0].stamp.ts <= f.stamp.ts {
      FilterFilter(es, OrderEvent, About(id));
      FilterOrdered(Filter(es, OrderEvent), About(id));
    }
  }

  /** On a clock that does not run backwards, boot restores the live store of a run without re-ack
      under a new venue id if and only if no call published and then raised and the simultaneous
      events of each order were logged in the order of their types. */
  lemma BootRestoresOnClockIff(calls: seq<Call>)
    requires FreshRun(INITIAL, calls) && EveryCall(calls, KeepsVenueId)
    requires Ordered(Filter(Run(INITIAL, calls).bus.log.events, OrderEvent))
    ensures var c := Run(INITIAL, calls);
            Boot(c) == Some(c.store) <==> EveryCall(calls, PublishesOnlyWhatItApplies) && OrdersByType(c)
  {
    hide Run, FreshRun, EveryCall, Replay, OrdersByType, Filter, Ordered, LastAcksAgree, NothingBeforeFirst;
    var es := Run(INITIAL, calls).bus.log.events;
    OrderedNothingBefore(es);
    OrderedAcksAgree(es);
    BootsOrdersOnClockIff(calls);
    if EveryCall(calls, PublishesOnlyWhatItApplies) {
      BootRestoresLiveIff(calls);
    }
  }

  /** So boot restores it whenever the whole log has its order events by timestamp and type, as on
      a strictly advancing clock. */
  lemma BootRestoresLive(calls: seq<Call>)
    requires FreshRun(INITIAL, calls)
    requires EveryCall(calls, PublishesOnlyWhatItApplies) && EveryCall(calls, KeepsVenueId)
    requires TypeOrdered(Filter(Run(INITIAL, calls).bus.log.events, OrderEvent))
    ensures Boot(Run(INITIAL, calls)) == Some(Run(INITIAL, calls).store)
  {
    hide Run, FreshRun, EveryCall, Replay, TypeOrdered, Filter;
    var c := Run(INITIAL, calls);
    var es := c.bus.log.events;
    TypeOrderedIsOrdered(Filter(es, OrderEvent));
    BootRestoresOnClockIff(calls);
    forall id ensures TypeOrdered(LoggedFor(c, id)) {
      FilterFilter(es, OrderEvent, About(id));
      TypeOrderedFilter(Filter(es, OrderEvent), About(id));
    }
  }
}
