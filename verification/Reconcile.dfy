/** Comparing the OMS with the venue (polytrader/oms/reconcile.py) and feeding the breaker
    (polytrader/ops/control.py). */
module Reconcile {
  import opened Prelude
  import opened OrderModel
  import opened Ops

  datatype VenueStatus = VenueFilled | VenueCancelled | VenueOpen | VenuePending | VenueUnknown

  datatype ExternalOrder = ExternalOrder(orderId: Id, status: VenueStatus)

  /** The last listed venue order with the id: later entries replace earlier ones. */
  function Matching(venue: seq<ExternalOrder>, id: Id): Option<ExternalOrder> {
    if venue == [] then None
    else if venue[|venue| - 1].orderId == id then Some(venue[|venue| - 1])
    else Matching(venue[..|venue| - 1], id)
  }

  ghost function VenueIds(venue: seq<ExternalOrder>): set<Id> {
    set v <- venue :: v.orderId
  }

  /** Venue ids that OMS orders claim; an empty id is no claim. */
  ghost function ClaimedIds(oms: seq<Order>): set<Id> {
    set o <- oms | Truthy(o.venueId) :: o.venueId.value
  }

  function PhantomEvent(o: Order): ReconcileEvent {
    ReconcileEvent(PhantomOrder, Some(o.orderId), o.venueId, Warning)
  }

  function OrphanEvent(v: ExternalOrder): ReconcileEvent {
    ReconcileEvent(OrphanOrder, None, Some(v.orderId), Warning)
  }

  function MismatchEvent(o: Order, severity: Severity): ReconcileEvent {
    ReconcileEvent(FillMismatch, Some(o.orderId), o.venueId, severity)
  }

  /** One phantom event for each OMS entry whose claimed id the venue does not list. */
  ghost function Phantoms(oms: seq<Order>, venue: seq<ExternalOrder>): seq<ReconcileEvent> {
    if oms == [] then []
    else
      var o := oms[|oms| - 1];
      Phantoms(oms[..|oms| - 1], venue) +
      if Truthy(o.venueId) && o.venueId.value !in VenueIds(venue) then [PhantomEvent(o)] else []
  }

  /** One orphan event for each venue entry that no OMS order claims. */
  ghost function Orphans(oms: seq<Order>, venue: seq<ExternalOrder>): seq<ReconcileEvent> {
    if venue == [] then []
    else
      var v := venue[|venue| - 1];
      Orphans(oms, venue[..|venue| - 1]) + if v.orderId !in ClaimedIds(oms) then [OrphanEvent(v)] else []
  }

  /** The venue says filled and the OMS does not. */
  predicate MissedFill(o: Order, venue: seq<ExternalOrder>) {
    && Truthy(o.venueId)
    && var v := Matching(venue, o.venueId.value);
    v.Some? && v.value.status == VenueFilled && o.state != Filled
  }

  /** The venue says open and the OMS has fills. */
  predicate UnexpectedFill(o: Order, venue: seq<ExternalOrder>) {
    && Truthy(o.venueId)
    && var v := Matching(venue, o.venueId.value);
    v.Some? && v.value.status == VenueOpen && o.filled > 0.0
  }

  ghost function Mismatches(oms: seq<Order>, venue: seq<ExternalOrder>): seq<ReconcileEvent> {
    if oms == [] then []
    else
      var o := oms[|oms| - 1];
      Mismatches(oms[..|oms| - 1], venue) +
      if MissedFill(o, venue) then [MismatchEvent(o, Error)]
      else if UnexpectedFill(o, venue) then [MismatchEvent(o, Warning)]
      else []
  }

  ghost function Compared(oms: seq<Order>, venue: seq<ExternalOrder>): seq<ReconcileEvent> {
    Phantoms(oms, venue) + Orphans(oms, venue) + Mismatches(oms, venue)
  }

  method IndexOms(oms: seq<Order>) returns (byVenueId: map<Id, Order>)
    ensures byVenueId.Keys == ClaimedIds(oms)
  {
    byVenueId := map[];
    for i := 0 to |oms|
      invariant byVenueId.Keys == ClaimedIds(oms[..i])
    {
      var order := oms[i];
      assert oms[..i + 1] == oms[..i] + [order];
      if Truthy(order.venueId) {
        byVenueId := byVenueId[order.venueId.value := order];
      }
    }
    assert oms[..|oms|] == oms;
  }

  method IndexVenue(venue: seq<ExternalOrder>) returns (byId: map<Id, ExternalOrder>)
    ensures byId.Keys == VenueIds(venue)
    ensures forall id :: id in byId ==> Matching(venue, id) == Some(byId[id])
  {
    byId := map[];
    for i := 0 to |venue|
      invariant byId.Keys == VenueIds(venue[..i])
      invariant forall id :: id in byId ==> Matching(venue[..i], id) == Some(byId[id])
    {
      assert venue[..i + 1] == venue[..i] + [venue[i]];
      assert venue[..i + 1][..i] == venue[..i];
      byId := byId[venue[i].orderId := venue[i]];
    }
    assert venue[..|venue|] == venue;
  }

  lemma PhantomsNext(oms: seq<Order>, venue: seq<ExternalOrder>, i: nat)
    requires i < |oms|
    ensures Phantoms(oms[..i + 1], venue) ==
            Phantoms(oms[..i], venue) +
            if Truthy(oms[i].venueId) && oms[i].venueId.value !in VenueIds(venue) then [PhantomEvent(oms[i])] else []
  {
    assert oms[..i + 1][..i] == oms[..i];
  }

  lemma OrphansNext(oms: seq<Order>, venue: seq<ExternalOrder>, i: nat)
    requires i < |venue|
    ensures Orphans(oms, venue[..i + 1]) ==
            Orphans(oms, venue[..i]) +
            if venue[i].orderId !in ClaimedIds(oms) then [OrphanEvent(venue[i])] else []
  {
    assert venue[..i + 1][..i] == venue[..i];
  }

  lemma MismatchesNext(oms: seq<Order>, venue: seq<ExternalOrder>, i: nat)
    requires i < |oms|
    ensures Mismatches(oms[..i + 1], venue) ==
            Mismatches(oms[..i], venue) +
            if MissedFill(oms[i], venue) then [MismatchEvent(oms[i], Error)]
            else if UnexpectedFill(oms[i], venue) then [MismatchEvent(oms[i], Warning)]
            else []
  {
    assert oms[..i + 1][..i] == oms[..i];
  }

  lemma NothingCompared(oms: seq<Order>, venue: seq<ExternalOrder>)
    ensures Phantoms(oms[..0], venue) == Orphans(oms, venue[..0]) == Mismatches(oms[..0], venue) == []
  {
  }

  method CompareOrders(oms: seq<Order>, venue: seq<ExternalOrder>) returns (events: seq<ReconcileEvent>)
    ensures events == Compared(oms, venue)
  {
    hide Phantoms, Orphans, Mismatches, ClaimedIds, VenueIds;
    events := [];
    NothingCompared(oms, venue);
    var omsByVenueId := IndexOms(oms);
    var venueById := IndexVenue(venue);
    for i := 0 to |oms|
      invariant events == Phantoms(oms[..i], venue)
    {
      var order := oms[i];
      PhantomsNext(oms, venue, i);
      if Truthy(order.venueId) && order.venueId.value !in venueById {
        events := events + [PhantomEvent(order)];
      }
    }
    assert oms[..|oms|] == oms;
    for i := 0 to |venue|
      invariant events == Phantoms(oms, venue) + Orphans(oms, venue[..i])
    {
      OrphansNext(oms, venue, i);
      if venue[i].orderId !in omsByVenueId {
        events := events + [OrphanEvent(venue[i])];
      }
    }
    assert venue[..|venue|] == venue;
    for i := 0 to |oms|
      invariant events == Phantoms(oms, venue) + Orphans(oms, venue) + Mismatches(oms[..i], venue)
    {
      var order := oms[i];
      MismatchesNext(oms, venue, i);
      if Truthy(order.venueId) {
        MatchingListed(venue, order.venueId.value);
      }
      if !Truthy(order.venueId) || order.venueId.value !in venueById {
        continue;
      }
      var matched := venueById[order.venueId.value];
      if matched.status == VenueFilled && order.state != Filled {
        events := events + [MismatchEvent(order, Error)];
      } else if matched.status == VenueOpen && order.filled > 0.0 {
        events := events + [MismatchEvent(order, Warning)];
      }
    }
  }

  lemma {:induction false} MatchingListed(venue: seq<ExternalOrder>, id: Id)
    ensures Matching(venue, id).Some? <==> id in VenueIds(venue)
    ensures Matching(venue, id).Some? ==> Matching(venue, id).value in venue && Matching(venue, id).value.orderId == id
  {
    if venue != [] {
      var front, last := venue[..|venue| - 1], venue[|venue| - 1];
      assert venue == front + [last];
      MatchingListed(front, id);
    }
  }

  /** The one event an OMS entry can give rise to, if any. */
  ghost function EntryEvent(o: Order, venue: seq<ExternalOrder>): Option<ReconcileEvent> {
    if !Truthy(o.venueId) then None
    else if o.venueId.value !in VenueIds(venue) then Some(PhantomEvent(o))
    else if MissedFill(o, venue) then Some(MismatchEvent(o, Error))
    else if UnexpectedFill(o, venue) then Some(MismatchEvent(o, Warning))
    else None
  }

  ghost function EntryEvents(oms: seq<Order>, venue: seq<ExternalOrder>): seq<ReconcileEvent> {
    Phantoms(oms, venue) + Mismatches(oms, venue)
  }

  ghost function OneEntry(o: Order, venue: seq<ExternalOrder>): seq<ReconcileEvent> {
    var e := EntryEvent(o, venue);
    if e.Some? then [e.value] else []
  }

  lemma EntrySplits(o: Order, venue: seq<ExternalOrder>)
    ensures OneEntry(o, venue) ==
            (if Truthy(o.venueId) && o.venueId.value !in VenueIds(venue) then [PhantomEvent(o)] else []) +
            (if MissedFill(o, venue) then [MismatchEvent(o, Error)]
             else if UnexpectedFill(o, venue) then [MismatchEvent(o, Warning)]
             else [])
  {
    if Truthy(o.venueId) {
      MatchingListed(venue, o.venueId.value);
    }
  }

  lemma EntryCount(oms: seq<Order>, venue: seq<ExternalOrder>, p: ReconcileEvent -> bool)
    requires oms != []
    ensures var front, o := oms[..|oms| - 1], oms[|oms| - 1];
            Count(EntryEvents(oms, venue), p) == Count(EntryEvents(front, venue), p) + Count(OneEntry(o, venue), p)
  {
    hide Count, MissedFill, UnexpectedFill, VenueIds;
    var front, o := oms[..|oms| - 1], oms[|oms| - 1];
    var phantom := if Truthy(o.venueId) && o.venueId.value !in VenueIds(venue) then [PhantomEvent(o)] else [];
    var mismatch := if MissedFill(o, venue) then [MismatchEvent(o, Error)]
    else if UnexpectedFill(o, venue) then [MismatchEvent(o, Warning)]
    else [];
    assert Phantoms(oms, venue) == Phantoms(front, venue) + phantom;
    assert Mismatches(oms, venue) == Mismatches(front, venue) + mismatch;
    EntrySplits(o, venue);
    CountConcat(Phantoms(oms, venue), Mismatches(oms, venue), p);
    CountConcat(Phantoms(front, venue), Mismatches(front, venue), p);
    CountConcat(Phantoms(front, venue), phantom, p);
    CountConcat(Mismatches(front, venue), mismatch, p);
    CountConcat(phantom, mismatch, p);
  }

  function Is(e: ReconcileEvent): ReconcileEvent -> bool {
    (x: ReconcileEvent) => x == e
  }

  ghost function Yields(venue: seq<ExternalOrder>, e: ReconcileEvent): Order -> bool {
    (o: Order) => EntryEvent(o, venue) == Some(e)
  }

  /** Each OMS entry yields at most one event: every phantom or mismatch event comes exactly as
      often as there are entries whose one event it is. */
  lemma {:induction false} OneEventPerEntry(oms: seq<Order>, venue: seq<ExternalOrder>, e: ReconcileEvent)
    ensures Count(EntryEvents(oms, venue), Is(e)) == Count(oms, Yields(venue, e))
  {
    if oms != [] {
      hide EntryEvents, EntryEvent;
      var front, o := oms[..|oms| - 1], oms[|oms| - 1];
      OneEventPerEntry(front, venue, e);
      EntryCount(oms, venue, Is(e));
      FilterSnoc(oms, Yields(venue, e));
      CountOne(if EntryEvent(o, venue).Some? then EntryEvent(o, venue).value else e, Is(e));
    }
  }

  function OfOrder(id: Id): ReconcileEvent -> bool {
    (e: ReconcileEvent) => e.orderId == Some(id)
  }

  function HasId(id: Id): Order -> bool {
    (o: Order) => o.orderId == id
  }

  /** So an order id comes in at most as many of these events as the OMS lists it. */
  lemma {:induction false} EventsPerOrder(oms: seq<Order>, venue: seq<ExternalOrder>, id: Id)
    ensures Count(EntryEvents(oms, venue), OfOrder(id)) <= Count(oms, HasId(id))
  {
    if oms != [] {
      hide EntryEvents, MissedFill, UnexpectedFill, VenueIds;
      var front, o := oms[..|oms| - 1], oms[|oms| - 1];
      EventsPerOrder(front, venue, id);
      EntryCount(oms, venue, OfOrder(id));
      FilterSnoc(oms, HasId(id));
      CountOne(PhantomEvent(o), OfOrder(id));
      CountOne(MismatchEvent(o, Error), OfOrder(id));
      CountOne(MismatchEvent(o, Warning), OfOrder(id));
    }
  }

  function About(d: Divergence, id: Id): ReconcileEvent -> bool {
    (e: ReconcileEvent) => e.divergence == d && e.venueId == Some(id)
  }

  function Claims(id: Id): Order -> bool {
    (o: Order) => Truthy(o.venueId) && o.venueId.value == id
  }

  function Lists(id: Id): ExternalOrder -> bool {
    (v: ExternalOrder) => v.orderId == id
  }

  lemma {:induction false} PhantomCount(oms: seq<Order>, venue: seq<ExternalOrder>, id: Id)
    ensures |Filter(Phantoms(oms, venue), About(PhantomOrder, id))| ==
            if id in VenueIds(venue) then 0 else |Filter(oms, Claims(id))|
    ensures Filter(Phantoms(oms, venue), About(OrphanOrder, id)) == []
  {
    if oms != [] {
      hide Filter, VenueIds;
      var front, o := oms[..|oms| - 1], oms[|oms| - 1];
      PhantomCount(front, venue, id);
      FilterSnoc(oms, Claims(id));
      if Truthy(o.venueId) && o.venueId.value !in VenueIds(venue) {
        FilterAppend(Phantoms(front, venue), PhantomEvent(o), About(PhantomOrder, id));
        FilterAppend(Phantoms(front, venue), PhantomEvent(o), About(OrphanOrder, id));
      } else {
        assert Phantoms(oms, venue) == Phantoms(front, venue);
      }
    }
  }

  lemma {:induction false} OrphanCount(oms: seq<Order>, venue: seq<ExternalOrder>, id: Id)
    ensures |Filter(Orphans(oms, venue), About(OrphanOrder, id))| ==
            if id in ClaimedIds(oms) then 0 else |Filter(venue, Lists(id))|
    ensures Filter(Orphans(oms, venue), About(PhantomOrder, id)) == []
  {
    if venue != [] {
      hide Filter, ClaimedIds;
      var front, v := venue[..|venue| - 1], venue[|venue| - 1];
      OrphanCount(oms, front, id);
      FilterSnoc(venue, Lists(id));
      if v.orderId !in ClaimedIds(oms) {
        FilterAppend(Orphans(oms, front), OrphanEvent(v), About(OrphanOrder, id));
        FilterAppend(Orphans(oms, front), OrphanEvent(v), About(PhantomOrder, id));
      } else {
        assert Orphans(oms, venue) == Orphans(oms, front);
      }
    }
  }

  lemma {:induction false} MismatchesAreMismatches(oms: seq<Order>, venue: seq<ExternalOrder>, id: Id)
    ensures Filter(Mismatches(oms, venue), About(PhantomOrder, id)) == []
    ensures Filter(Mismatches(oms, venue), About(OrphanOrder, id)) == []
  {
    if oms != [] {
      var front := oms[..|oms| - 1];
      MismatchesAreMismatches(front, venue, id);
      var ms := Mismatches(oms, venue);
      if ms != Mismatches(front, venue) {
        assert ms[..|ms| - 1] == Mismatches(front, venue);
        FilterSnoc(ms, About(PhantomOrder, id));
        FilterSnoc(ms, About(OrphanOrder, id));
      }
    }
  }

  /** For every id, with multiplicity: as many phantom events as OMS orders claim the id, if the
      venue does not list it, and none otherwise; and as many orphan events as the venue lists
      it, if no OMS order claims it, and none otherwise. */
  lemma DifferencesExact(oms: seq<Order>, venue: seq<ExternalOrder>, id: Id)
    ensures |Filter(Compared(oms, venue), About(PhantomOrder, id))| ==
            if id in VenueIds(venue) then 0 else |Filter(oms, Claims(id))|
    ensures |Filter(Compared(oms, venue), About(OrphanOrder, id))| ==
            if id in ClaimedIds(oms) then 0 else |Filter(venue, Lists(id))|
  {
    var p, o, m := Phantoms(oms, venue), Orphans(oms, venue), Mismatches(oms, venue);
    PhantomCount(oms, venue, id);
    OrphanCount(oms, venue, id);
    MismatchesAreMismatches(oms, venue, id);
    FilterConcat(p + o, m, About(PhantomOrder, id));
    FilterConcat(p, o, About(PhantomOrder, id));
    FilterConcat(p + o, m, About(OrphanOrder, id));
    FilterConcat(p, o, About(OrphanOrder, id));
  }

  lemma {:induction false} NoErrors(oms: seq<Order>, venue: seq<ExternalOrder>)
    ensures forall e :: e in Phantoms(oms, venue) ==> e.severity == Warning
    ensures forall e :: e in Orphans(oms, venue) ==> e.severity == Warning
    decreases |oms| + |venue|
  {
    if oms != [] {
      NoErrors(oms[..|oms| - 1], venue);
    }
    if venue != [] {
      NoErrors(oms, venue[..|venue| - 1]);
    }
  }

  lemma {:induction false} ErrorsAreMissedFills(oms: seq<Order>, venue: seq<ExternalOrder>)
    ensures (exists e :: e in Mismatches(oms, venue) && e.severity == Error) <==>
            exists o :: o in oms && MissedFill(o, venue)
    ensures forall e :: e in Mismatches(oms, venue) ==> e.divergence == FillMismatch
  {
    if oms != [] {
      var front, last := oms[..|oms| - 1], oms[|oms| - 1];
      assert oms == front + [last];
      ErrorsAreMissedFills(front, venue);
      assert forall e :: e in Mismatches(front, venue) ==> e in Mismatches(oms, venue);
      if MissedFill(last, venue) {
        assert MismatchEvent(last, Error) in Mismatches(oms, venue);
        assert last in oms;
      }
      if o :| o in oms && MissedFill(o, venue) && o != last {
        assert o in front;
      }
    }
  }

  lemma FilterNonempty(es: seq<ReconcileEvent>, p: ReconcileEvent -> bool)
    ensures Filter(es, p) != [] <==> exists e :: e in es && p(e)
  {
    if Filter(es, p) != [] {
      FilterMember(es, p, Filter(es, p)[0]);
    }
    if e :| e in es && p(e) {
      FilterMember(es, p, e);
    }
  }

  // ---- What trips the breaker ------------------------------------------------------------

  /** Entry `j` is the last with its id. */
  ghost predicate LastListed(venue: seq<ExternalOrder>, j: int) {
    0 <= j < |venue| && forall k :: j < k < |venue| ==> venue[k].orderId != venue[j].orderId
  }

  lemma {:induction false} MatchingIff(venue: seq<ExternalOrder>, id: Id, v: ExternalOrder)
    ensures Matching(venue, id) == Some(v) <==> exists j :: LastListed(venue, j) && venue[j] == v && v.orderId == id
  {
    if venue != [] {
      var front, last := venue[..|venue| - 1], venue[|venue| - 1];
      MatchingIff(front, id, v);
      if last.orderId == id {
        assert LastListed(venue, |venue| - 1);
      } else {
        if j :| LastListed(front, j) && front[j] == v && v.orderId == id {
          assert LastListed(venue, j);
        }
        if j :| LastListed(venue, j) && venue[j] == v && v.orderId == id {
          assert LastListed(front, j);
        }
      }
    }
  }

  /** The last venue entry with the order's venue id has this status. */
  ghost predicate ListedAs(o: Order, venue: seq<ExternalOrder>, status: VenueStatus) {
    exists j :: LastListed(venue, j) && venue[j].orderId != EMPTY && o.venueId == Some(venue[j].orderId)
                && venue[j].status == status
  }

  /** A fill is missed when the venue lists the order as filled and the OMS does not have it so; it is
      unexpected when the venue lists it as open and the OMS has fills. */
  lemma FillsDisagreeIff(o: Order, venue: seq<ExternalOrder>)
    ensures MissedFill(o, venue) <==> ListedAs(o, venue, VenueFilled) && o.state != Filled
    ensures UnexpectedFill(o, venue) <==> ListedAs(o, venue, VenueOpen) && o.filled > 0.0
  {
    forall status: VenueStatus
      ensures ListedAs(o, venue, status) <==>
              Truthy(o.venueId) && Matching(venue, o.venueId.value).Some?
              && Matching(venue, o.venueId.value).value.status == status
    {
      if Truthy(o.venueId) {
        var found := Matching(venue, o.venueId.value);
        if found.Some? {
          MatchingIff(venue, o.venueId.value, found.value);
        }
        if j :| LastListed(venue, j) && o.venueId == Some(venue[j].orderId) && venue[j].status == status {
          MatchingIff(venue, o.venueId.value, venue[j]);
        }
      }
    }
  }

  ghost function Unlisted(venue: seq<ExternalOrder>): Order -> bool {
    (o: Order) => Truthy(o.venueId) && forall v :: v in venue ==> v.orderId != o.venueId.value
  }

  ghost function Unclaimed(oms: seq<Order>): ExternalOrder -> bool {
    (v: ExternalOrder) => forall o :: o in oms && Truthy(o.venueId) ==> o.venueId.value != v.orderId
  }

  ghost function Disagreeing(venue: seq<ExternalOrder>): Order -> bool {
    (o: Order) => || (ListedAs(o, venue, VenueFilled) && o.state != Filled)
                  || (ListedAs(o, venue, VenueOpen) && o.filled > 0.0)
  }

  lemma {:induction false} PhantomTally(oms: seq<Order>, venue: seq<ExternalOrder>)
    ensures |Phantoms(oms, venue)| == Count(oms, Unlisted(venue))
    ensures forall e :: e in Phantoms(oms, venue) ==> e.divergence == PhantomOrder
  {
    if oms != [] {
      PhantomTally(oms[..|oms| - 1], venue);
      FilterSnoc(oms, Unlisted(venue));
    }
  }

  lemma {:induction false} OrphanTally(oms: seq<Order>, venue: seq<ExternalOrder>)
    ensures |Orphans(oms, venue)| == Count(venue, Unclaimed(oms))
    ensures forall e :: e in Orphans(oms, venue) ==> e.divergence == OrphanOrder
  {
    if venue != [] {
      OrphanTally(oms, venue[..|venue| - 1]);
      FilterSnoc(venue, Unclaimed(oms));
    }
  }

  lemma {:induction false} MismatchTally(oms: seq<Order>, venue: seq<ExternalOrder>)
    ensures |Mismatches(oms, venue)| == Count(oms, Disagreeing(venue))
    ensures forall e :: e in Mismatches(oms, venue) ==> e.divergence == FillMismatch
  {
    if oms != [] {
      hide MissedFill, UnexpectedFill, ListedAs;
      MismatchTally(oms[..|oms| - 1], venue);
      FilterSnoc(oms, Disagreeing(venue));
      FillsDisagreeIff(oms[|oms| - 1], venue);
    }
  }

  lemma DivergenceTally(p: seq<ReconcileEvent>, o: seq<ReconcileEvent>, m: seq<ReconcileEvent>)
    requires forall i :: 0 <= i < |p| ==> p[i].divergence == PhantomOrder
    requires forall i :: 0 <= i < |o| ==> o[i].divergence == OrphanOrder
    requires forall i :: 0 <= i < |m| ==> m[i].divergence == FillMismatch
    ensures var es := p + o + m;
            && |Filter(es, Diverging(PhantomOrder))| == |p|
            && |Filter(es, Diverging(OrphanOrder))| == |o|
            && |Filter(es, Diverging(FillMismatch))| == |m|
  {
    hide Filter;
    forall d: Divergence
      ensures Filter(p + o + m, Diverging(d)) ==
              Filter(p, Diverging(d)) + Filter(o, Diverging(d)) + Filter(m, Diverging(d))
    {
      FilterConcat(p + o, m, Diverging(d));
      FilterConcat(p, o, Diverging(d));
    }
    FilterAll(p, Diverging(PhantomOrder));
    FilterNone(o, Diverging(PhantomOrder));
    FilterNone(m, Diverging(PhantomOrder));
    FilterAll(o, Diverging(OrphanOrder));
    FilterNone(p, Diverging(OrphanOrder));
    FilterNone(m, Diverging(OrphanOrder));
    FilterAll(m, Diverging(FillMismatch));
    FilterNone(p, Diverging(FillMismatch));
    FilterNone(o, Diverging(FillMismatch));
  }

  /** Some OMS order was filled at the venue unnoticed. */
  ghost predicate AnyMissedFill(oms: seq<Order>, venue: seq<ExternalOrder>) {
    exists o :: o in oms && ListedAs(o, venue, VenueFilled) && o.state != Filled
  }

  lemma SevereIff(oms: seq<Order>, venue: seq<ExternalOrder>)
    ensures Filter(Compared(oms, venue), Severe) != [] <==> AnyMissedFill(oms, venue)
  {
    hide Filter, MissedFill, UnexpectedFill, ListedAs, Phantoms, Orphans, Mismatches;
    var es := Compared(oms, venue);
    NoErrors(oms, venue);
    ErrorsAreMissedFills(oms, venue);
    FilterNonempty(es, Severe);
    forall o ensures MissedFill(o, venue) <==> ListedAs(o, venue, VenueFilled) && o.state != Filled {
      FillsDisagreeIff(o, venue);
    }
    if e :| e in Mismatches(oms, venue) && e.severity == Error {
      assert e in es && Severe(e);
    }
    if e :| e in es && Severe(e) {
      assert e in Mismatches(oms, venue);
    }
  }

  /** Reconciliation trips an untriggered breaker exactly when it found something, one of the three
      counts has reached its threshold, and, if errors are required, a fill was missed: the counts
      are those of OMS orders whose venue id is not listed, of venue entries that no order claims, and
      of OMS orders whose fills disagree with the last entry listed for them. */
  lemma TripsIff(oms: seq<Order>, venue: seq<ExternalOrder>, t: Thresholds)
    ensures var phantoms, orphans := Count(oms, Unlisted(venue)), Count(venue, Unclaimed(oms));
            var mismatches := Count(oms, Disagreeing(venue));
            ShouldTrigger(t, Compared(oms, venue)) <==>
            && phantoms + orphans + mismatches > 0
            && (phantoms >= t.maxPhantomOrders || orphans >= t.maxOrphanOrders || mismatches >= t.maxFillMismatches)
            && (t.requireErrorSeverity ==> AnyMissedFill(oms, venue))
  {
    hide Count, Filter, Unlisted, Unclaimed, Disagreeing, Phantoms, Orphans, Mismatches, AnyMissedFill;
    PhantomTally(oms, venue);
    OrphanTally(oms, venue);
    MismatchTally(oms, venue);
    DivergenceTally(Phantoms(oms, venue), Orphans(oms, venue), Mismatches(oms, venue));
    SevereIff(oms, venue);
  }

  ghost function Missed(venue: seq<ExternalOrder>): Order -> bool {
    (o: Order) => ListedAs(o, venue, VenueFilled) && o.state != Filled
  }

  lemma {:induction false} ErrorTally(oms: seq<Order>, venue: seq<ExternalOrder>)
    ensures Count(Mismatches(oms, venue), Severe) == Count(oms, Missed(venue))
  {
    if oms == [] {
      assert Filter<ReconcileEvent>([], Severe) == [];
    } else {
      hide MissedFill, UnexpectedFill, ListedAs, Filter;
      var front, o := oms[..|oms| - 1], oms[|oms| - 1];
      ErrorTally(front, venue);
      FilterSnoc(oms, Missed(venue));
      FillsDisagreeIff(o, venue);
      assert Mismatches(front, venue) + [] == Mismatches(front, venue);
      FilterAppend(Mismatches(front, venue), MismatchEvent(o, Error), Severe);
      FilterAppend(Mismatches(front, venue), MismatchEvent(o, Warning), Severe);
    }
  }

  /** The counts that a tripping breaker reports. */
  lemma ReportedCounts(oms: seq<Order>, venue: seq<ExternalOrder>)
    ensures var phantoms, orphans := Count(oms, Unlisted(venue)), Count(venue, Unclaimed(oms));
            var mismatches := Count(oms, Disagreeing(venue));
            Tally(Compared(oms, venue)) ==
            BreakerTrip(phantoms, orphans, mismatches, Count(oms, Missed(venue)), phantoms + orphans + mismatches)
  {
    hide Filter, Unlisted, Unclaimed, Disagreeing, Missed, Phantoms, Orphans, Mismatches;
    PhantomTally(oms, venue);
    OrphanTally(oms, venue);
    MismatchTally(oms, venue);
    DivergenceTally(Phantoms(oms, venue), Orphans(oms, venue), Mismatches(oms, venue));
    NoErrors(oms, venue);
    FilterNone(Phantoms(oms, venue), Severe);
    FilterNone(Orphans(oms, venue), Severe);
    CountConcat(Phantoms(oms, venue) + Orphans(oms, venue), Mismatches(oms, venue), Severe);
    CountConcat(Phantoms(oms, venue), Orphans(oms, venue), Severe);
    ErrorTally(oms, venue);
  }

  ghost predicate FromPhantom(e: ReconcileEvent, oms: seq<Order>, venue: seq<ExternalOrder>) {
    exists o :: o in oms && Unlisted(venue)(o) && e == ReconcileEvent(PhantomOrder, Some(o.orderId), o.venueId, Warning)
  }

  ghost predicate FromOrphan(e: ReconcileEvent, oms: seq<Order>, venue: seq<ExternalOrder>) {
    exists v :: v in venue && Unclaimed(oms)(v) && e == ReconcileEvent(OrphanOrder, None, Some(v.orderId), Warning)
  }

  ghost predicate FromMismatch(e: ReconcileEvent, oms: seq<Order>, venue: seq<ExternalOrder>) {
    exists o ::
      && o in oms && Disagreeing(venue)(o)
      && e == ReconcileEvent(FillMismatch, Some(o.orderId), o.venueId,
                             if ListedAs(o, venue, VenueFilled) && o.state != Filled then Error else Warning)
  }

  lemma {:induction false} PhantomsAre(oms: seq<Order>, venue: seq<ExternalOrder>, e: ReconcileEvent)
    ensures e in Phantoms(oms, venue) <==> FromPhantom(e, oms, venue)
  {
    if oms != [] {
      var front, last := oms[..|oms| - 1], oms[|oms| - 1];
      assert forall o :: o in oms <==> o in front || o == last;
      PhantomsAre(front, venue, e);
    }
  }

  lemma {:induction false} OrphansAre(oms: seq<Order>, venue: seq<ExternalOrder>, e: ReconcileEvent)
    ensures e in Orphans(oms, venue) <==> FromOrphan(e, oms, venue)
  {
    if venue != [] {
      var front, last := venue[..|venue| - 1], venue[|venue| - 1];
      assert forall v :: v in venue <==> v in front || v == last;
      OrphansAre(oms, front, e);
    }
  }

  lemma {:induction false} MismatchesAre(oms: seq<Order>, venue: seq<ExternalOrder>, e: ReconcileEvent)
    ensures e in Mismatches(oms, venue) <==> FromMismatch(e, oms, venue)
  {
    if oms != [] {
      hide MissedFill, UnexpectedFill, ListedAs;
      var front, last := oms[..|oms| - 1], oms[|oms| - 1];
      assert forall o :: o in oms <==> o in front || o == last;
      MismatchesAre(front, venue, e);
      FillsDisagreeIff(last, venue);
    }
  }

  /** The result holds exactly one kind of event for each of the three divergences, and says of which
      order: a warning for a claimed id that is not listed, a warning for a listed id that nobody
      claims, and an error or a warning for a fill that was missed or is unexpected. */
  lemma ComparedIff(oms: seq<Order>, venue: seq<ExternalOrder>, e: ReconcileEvent)
    ensures e in Compared(oms, venue) <==>
            FromPhantom(e, oms, venue) || FromOrphan(e, oms, venue) || FromMismatch(e, oms, venue)
  {
    hide FromPhantom, FromOrphan, FromMismatch, Phantoms, Orphans, Mismatches;
    PhantomsAre(oms, venue, e);
    OrphansAre(oms, venue, e);
    MismatchesAre(oms, venue, e);
  }

  /** Reconciliation followed by an untriggered breaker with default thresholds trips exactly
      when the venue has filled an order that the OMS has not; phantoms and orphans alone,
      however many, never trip it. */
  lemma TripsOnMissedFill(oms: seq<Order>, venue: seq<ExternalOrder>)
    ensures ShouldTrigger(DEFAULT_THRESHOLDS, Compared(oms, venue)) <==> AnyMissedFill(oms, venue)
  {
    hide Filter;
    TripsIff(oms, venue, DEFAULT_THRESHOLDS);
    if AnyMissedFill(oms, venue) {
      var o :| o in oms && ListedAs(o, venue, VenueFilled) && o.state != Filled;
      FilterMember(oms, Disagreeing(venue), o);
    }
  }

  /** If errors are not required, three phantoms, three orphans or one mismatch do. */
  lemma TripsWithoutErrors(oms: seq<Order>, venue: seq<ExternalOrder>)
    ensures ShouldTrigger(DEFAULT_THRESHOLDS.(requireErrorSeverity := false), Compared(oms, venue)) <==>
            || Count(oms, Unlisted(venue)) >= 3
            || Count(venue, Unclaimed(oms)) >= 3
            || Count(oms, Disagreeing(venue)) >= 1
  {
    hide Count, Unlisted, Unclaimed, Disagreeing;
    TripsIff(oms, venue, DEFAULT_THRESHOLDS.(requireErrorSeverity := false));
  }
}
