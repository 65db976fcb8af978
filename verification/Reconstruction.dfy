/** Rebuilding the order store at boot (polytrader/ops/replay.py). */
module Reconstruction {
  import opened Prelude
  import opened OrderModel
  import opened EventLog
  import opened OrderStore

  const ORDER_EVENT_KINDS := [CreatedKind, SubmittedKind, AckKind, RejectedKind, FillKind, CanceledKind]

  function OfKind(k: Kind): Event -> bool {
    Selecting(Selection(Some(k), None, None, None))
  }

  /** The events of the first `n` kinds, kind after kind. */
  function Collected(es: seq<Event>, n: nat): seq<Event>
    requires n <= |ORDER_EVENT_KINDS|
  {
    if n == 0 then []
    else Collected(es, n - 1) + SortByTs(Filter(es, OfKind(ORDER_EVENT_KINDS[n - 1])))
  }

  /** What is handed to the rebuild. */
  function Gathered(es: seq<Event>): seq<Event> {
    SortByTs(Collected(es, |ORDER_EVENT_KINDS|))
  }

  class StateReconstructionService {
    const eventStore: MemoryEventStore
    const omsStore: InMemoryOrderStore

    constructor (eventStore: MemoryEventStore, omsStore: InMemoryOrderStore)
      ensures this.eventStore == eventStore && this.omsStore == omsStore
    {
      this.eventStore := eventStore;
      this.omsStore := omsStore;
    }

    /** Without order events the store is left as it was, not cleared; when an event raises, it
        holds what the events before that one produced. */
    method ReconstructOms() returns (ok: bool)
      modifies omsStore
      ensures var es := Gathered(eventStore.events);
              if es == [] then ok && omsStore.View() == old(omsStore.View())
              else
                && ok == Replay(EMPTY_STORE, es).Some?
                && (ok ==> Some(omsStore.View()) == Replay(EMPTY_STORE, es))
                && (!ok ==> exists k | 0 <= k < |es| ::
                        && Replay(EMPTY_STORE, es[..k]) == Some(omsStore.View())
                        && omsStore.View().WF() && omsStore.View().Apply(es[k]) == None)
    {
      var collected: seq<Event> := [];
      for i := 0 to |ORDER_EVENT_KINDS|
        modifies {}
        invariant collected == Collected(eventStore.events, i)
      {
        var events := eventStore.Replay(Some(ORDER_EVENT_KINDS[i]), None, None);
        collected := collected + events;
      }
      collected := SortByTs(collected);
      if collected == [] {
        return true;
      }
      ok := omsStore.RebuildFromEvents(collected);
    }
  }

  // ---- Collecting and sorting restores the order of the log --------------------------

  function KindRank(k: Kind): nat {
    match k
    case CreatedKind => 0
    case SubmittedKind => 1
    case AckKind => 2
    case RejectedKind => 3
    case FillKind => 4
    case CanceledKind => 5
    case _ => 6
  }

  function RankBelow(n: nat): Event -> bool {
    e => KindRank(KindOf(e)) < n
  }

  lemma KindAtRank(k: Kind, n: nat)
    requires n < |ORDER_EVENT_KINDS|
    ensures k == ORDER_EVENT_KINDS[n] <==> KindRank(k) == n
  {
    match n
    case 0 =>
    case 1 =>
    case 2 =>
    case 3 =>
    case 4 =>
    case _ =>
  }

  lemma {:induction false} FilterByRank(es: seq<Event>, n: nat)
    requires n < |ORDER_EVENT_KINDS|
    ensures multiset(Filter(es, RankBelow(n + 1))) ==
            multiset(Filter(es, RankBelow(n))) + multiset(Filter(es, OfKind(ORDER_EVENT_KINDS[n])))
  {
    if es != [] {
      var front, last := es[..|es| - 1], es[|es| - 1];
      FilterByRank(front, n);
      KindAtRank(KindOf(last), n);
      FilterSnoc(es, RankBelow(n + 1));
      FilterSnoc(es, RankBelow(n));
      FilterSnoc(es, OfKind(ORDER_EVENT_KINDS[n]));
    }
  }

  lemma {:induction false} FilterNothing(es: seq<Event>)
    ensures Filter(es, RankBelow(0)) == []
    ensures Filter(es, RankBelow(6)) == Filter(es, OrderEvent)
  {
    if es != [] {
      FilterNothing(es[..|es| - 1]);
    }
  }

  lemma ConcatMultiset(xs: seq<Event>, ys: seq<Event>)
    ensures multiset(xs + ys) == multiset(xs) + multiset(ys)
  {
  }

  lemma CollectNext(es: seq<Event>, n: nat)
    requires n < |ORDER_EVENT_KINDS|
    ensures Collected(es, n + 1) == Collected(es, n) + SortByTs(Filter(es, OfKind(ORDER_EVENT_KINDS[n])))
  {
  }

  lemma NothingCollected(es: seq<Event>)
    ensures multiset(Collected(es, 0)) == multiset(Filter(es, RankBelow(0)))
  {
    FilterNothing(es);
  }

  lemma {:induction false} CollectedIsPermutation(es: seq<Event>, n: nat)
    requires n <= |ORDER_EVENT_KINDS|
    ensures multiset(Collected(es, n)) == multiset(Filter(es, RankBelow(n)))
  {
    hide *;
    if n == 0 {
      NothingCollected(es);
    } else {
      var group := Filter(es, OfKind(ORDER_EVENT_KINDS[n - 1]));
      CollectedIsPermutation(es, n - 1);
      FilterByRank(es, n - 1);
      SortSorts(group);
      CollectedNext(es, n - 1, group);
    }
  }

  lemma CollectedNext(es: seq<Event>, n: nat, group: seq<Event>)
    requires n < |ORDER_EVENT_KINDS| && group == Filter(es, OfKind(ORDER_EVENT_KINDS[n]))
    requires multiset(SortByTs(group)) == multiset(group)
    ensures multiset(Collected(es, n + 1)) == multiset(Collected(es, n)) + multiset(group)
  {
    hide *;
    CollectNext(es, n);
    ConcatMultiset(Collected(es, n), SortByTs(group));
  }

  /** By timestamp, and at one instant by the order in which the types are collected. */
  ghost predicate TypeOrdered(xs: seq<Event>) {
    forall i, j :: 0 <= i < j < |xs| ==> NotAfter(xs[i], xs[j])
  }

  predicate NotAfter(a: Event, b: Event) {
    a.stamp.ts < b.stamp.ts || (a.stamp.ts == b.stamp.ts && KindRank(KindOf(a)) <= KindRank(KindOf(b)))
  }

  lemma TypeOrderedSnoc(xs: seq<Event>, e: Event)
    requires TypeOrdered(xs) && forall x :: x in xs ==> NotAfter(x, e)
    ensures TypeOrdered(xs + [e])
  {
  }

  lemma TypeOrderedFront(xs: seq<Event>)
    requires TypeOrdered(xs) && xs != []
    ensures TypeOrdered(xs[..|xs| - 1]) && forall x :: x in xs ==> x == xs[|xs| - 1] || NotAfter(x, xs[|xs| - 1])
  {
  }

  lemma TypeOrderedIsOrdered(xs: seq<Event>)
    requires TypeOrdered(xs)
    ensures Ordered(xs)
  {
    forall i, j | 0 <= i < j < |xs| ensures xs[i].stamp.ts <= xs[j].stamp.ts {
      assert NotAfter(xs[i], xs[j]);
    }
  }

  /** Inserting an event of the latest type so far keeps the order by type. */
  lemma {:induction false} InsertTypeOrders(e: Event, xs: seq<Event>)
    requires TypeOrdered(xs) && forall x :: x in xs ==> KindRank(KindOf(x)) <= KindRank(KindOf(e))
    ensures TypeOrdered(InsertByTs(e, xs))
  {
    hide KindRank, KindOf;
    TypeOrderedIsOrdered(xs);
    if xs == [] || xs[|xs| - 1].stamp.ts <= e.stamp.ts {
      forall x | x in xs ensures NotAfter(x, e) {
        assert x.stamp.ts <= xs[|xs| - 1].stamp.ts;
      }
      TypeOrderedSnoc(xs, e);
    } else {
      var front, last := xs[..|xs| - 1], xs[|xs| - 1];
      TypeOrderedFront(xs);
      InsertTypeOrders(e, front);
      InsertPermutes(e, front);
      var r := InsertByTs(e, front);
      forall x | x in r ensures NotAfter(x, last) {
        assert x in multiset(r);
        if x in front {
          var i :| 0 <= i < |front| && front[i] == x;
          assert xs[i] == x;
        }
      }
      TypeOrderedSnoc(r, last);
    }
  }

  ghost predicate RankOrdered(xs: seq<Event>) {
    forall i, j :: 0 <= i < j < |xs| ==> KindRank(KindOf(xs[i])) <= KindRank(KindOf(xs[j]))
  }

  lemma {:induction false} SortTypeOrders(xs: seq<Event>)
    requires RankOrdered(xs)
    ensures TypeOrdered(SortByTs(xs))
  {
    if xs != [] {
      var front, last := xs[..|xs| - 1], xs[|xs| - 1];
      SortTypeOrders(front);
      SortSorts(front);
      var sorted := SortByTs(front);
      forall x | x in sorted ensures KindRank(KindOf(x)) <= KindRank(KindOf(last)) {
        assert x in multiset(sorted);
        assert x in front;
      }
      InsertTypeOrders(last, sorted);
    }
  }

  lemma GroupRanked(es: seq<Event>, n: nat)
    requires n < |ORDER_EVENT_KINDS|
    ensures forall x :: x in SortByTs(Filter(es, OfKind(ORDER_EVENT_KINDS[n]))) ==> KindRank(KindOf(x)) == n
  {
    var group := Filter(es, OfKind(ORDER_EVENT_KINDS[n]));
    SortSorts(group);
    forall x | x in SortByTs(group) ensures KindRank(KindOf(x)) == n {
      assert x in multiset(SortByTs(group));
      FilterMember(es, OfKind(ORDER_EVENT_KINDS[n]), x);
      KindAtRank(KindOf(x), n);
    }
  }

  lemma {:induction false} CollectedRanked(es: seq<Event>, n: nat)
    requires n <= |ORDER_EVENT_KINDS|
    ensures RankOrdered(Collected(es, n))
    ensures forall x :: x in Collected(es, n) ==> KindRank(KindOf(x)) < n
  {
    hide SortByTs, Filter, KindRank, KindOf;
    if n > 0 {
      CollectedRanked(es, n - 1);
      GroupRanked(es, n - 1);
      CollectNext(es, n - 1);
    }
  }

  lemma GroupOfKind(es: seq<Event>, n: nat, m: nat)
    requires n < |ORDER_EVENT_KINDS| && m < |ORDER_EVENT_KINDS|
    ensures var group := SortByTs(Filter(es, OfKind(ORDER_EVENT_KINDS[n])));
            Filter(group, OfKind(ORDER_EVENT_KINDS[m])) == if n == m then group else []
  {
    var k, l := ORDER_EVENT_KINDS[n], ORDER_EVENT_KINDS[m];
    if n == m {
      SortFilter(Filter(es, OfKind(k)), OfKind(k));
      FilterFilter(es, OfKind(k), OfKind(k));
    } else {
      KindAtRank(k, m);
      KindAtRank(k, n);
      GroupRanked(es, n);
      forall x | x in SortByTs(Filter(es, OfKind(k))) ensures !OfKind(l)(x) {
        KindAtRank(KindOf(x), m);
      }
      FilterNone(SortByTs(Filter(es, OfKind(k))), OfKind(l));
    }
  }

  lemma {:induction false} CollectedOfKind(es: seq<Event>, n: nat, m: nat)
    requires n <= |ORDER_EVENT_KINDS| && m < |ORDER_EVENT_KINDS|
    ensures Filter(Collected(es, n), OfKind(ORDER_EVENT_KINDS[m])) ==
            if m < n then SortByTs(Filter(es, OfKind(ORDER_EVENT_KINDS[m]))) else []
  {
    hide SortByTs, Filter, OfKind;
    var k := OfKind(ORDER_EVENT_KINDS[m]);
    if n == 0 {
      FilterNone([], k);
    } else {
      hide Collected;
      var before, group := Collected(es, n - 1), SortByTs(Filter(es, OfKind(ORDER_EVENT_KINDS[n - 1])));
      CollectedOfKind(es, n - 1, m);
      CollectNext(es, n - 1);
      GroupOfKind(es, n - 1, m);
      FilterConcat(before, group, k);
      assert group + [] == group && [] + group == group;
    }
  }

  /** Whatever the log: boot hands over the log's order events by timestamp, simultaneous ones in
      the order of their types, and within one type and instant as they were logged. */
  lemma GatheredByType(es: seq<Event>, m: nat)
    requires m < |ORDER_EVENT_KINDS|
    ensures TypeOrdered(Gathered(es))
    ensures multiset(Gathered(es)) == multiset(Filter(es, OrderEvent))
    ensures Filter(Gathered(es), OfKind(ORDER_EVENT_KINDS[m])) == SortByTs(Filter(es, OfKind(ORDER_EVENT_KINDS[m])))
  {
    hide SortByTs, Filter, Collected;
    var n := |ORDER_EVENT_KINDS|;
    var k := OfKind(ORDER_EVENT_KINDS[m]);
    CollectedRanked(es, n);
    SortTypeOrders(Collected(es, n));
    SortSorts(Collected(es, n));
    CollectedIsPermutation(es, n);
    FilterNothing(es);
    SortFilter(Collected(es, n), k);
    CollectedOfKind(es, n, m);
    SortSorts(Filter(es, k));
    SortOrdered(SortByTs(Filter(es, k)));
  }

  /** The events of each of the six types agree. */
  ghost predicate SameByType(xs: seq<Event>, ys: seq<Event>) {
    && (forall x :: x in xs || x in ys ==> KindRank(KindOf(x)) < |ORDER_EVENT_KINDS|)
    && forall m :: 0 <= m < |ORDER_EVENT_KINDS| ==>
                     Filter(xs, OfKind(ORDER_EVENT_KINDS[m])) == Filter(ys, OfKind(ORDER_EVENT_KINDS[m]))
  }

  lemma SameByTypeMember(xs: seq<Event>, ys: seq<Event>, x: Event)
    requires SameByType(xs, ys) && x in xs
    ensures x in ys
  {
    var m := KindRank(KindOf(x));
    KindAtRank(KindOf(x), m);
    FilterMember(xs, OfKind(ORDER_EVENT_KINDS[m]), x);
    FilterMember(ys, OfKind(ORDER_EVENT_KINDS[m]), x);
  }

  lemma LastOfSame(xs: seq<Event>, x: Event, ys: seq<Event>, y: Event)
    requires xs + [x] == ys + [y]
    ensures x == y
  {
    assert (xs + [x])[|xs + [x]| - 1] == x;
    assert (ys + [y])[|ys + [y]| - 1] == y;
  }

  lemma SameByTypeLast(xs: seq<Event>, ys: seq<Event>)
    requires TypeOrdered(xs) && TypeOrdered(ys) && SameByType(xs, ys) && xs != []
    ensures ys != [] && xs[|xs| - 1] == ys[|ys| - 1]
  {
    hide Filter, KindOf, KindRank;
    var x := xs[|xs| - 1];
    SameByTypeMember(xs, ys, x);
    var y := ys[|ys| - 1];
    assert SameByType(ys, xs);
    SameByTypeMember(ys, xs, y);
    TypeOrderedFront(xs);
    TypeOrderedFront(ys);
    var m := KindRank(KindOf(x));
    assert m == KindRank(KindOf(y));
    KindAtRank(KindOf(x), m);
    KindAtRank(KindOf(y), m);
    var k := OfKind(ORDER_EVENT_KINDS[m]);
    FilterSnoc(xs, k);
    FilterSnoc(ys, k);
    assert Filter(xs, k) == Filter(ys, k);
    LastOfSame(Filter(xs[..|xs| - 1], k), x, Filter(ys[..|ys| - 1], k), y);
  }

  lemma SnocCancels(xs: seq<Event>, ys: seq<Event>, x: Event)
    requires xs + [x] == ys + [x]
    ensures xs == ys
  {
    assert xs == (xs + [x])[..|xs|];
    assert ys == (ys + [x])[..|ys|];
  }

  lemma SameByTypeFront(xs: seq<Event>, ys: seq<Event>)
    requires SameByType(xs, ys) && xs != [] && ys != [] && xs[|xs| - 1] == ys[|ys| - 1]
    ensures SameByType(xs[..|xs| - 1], ys[..|ys| - 1])
  {
    hide Filter;
    var xf, yf, last := xs[..|xs| - 1], ys[..|ys| - 1], xs[|xs| - 1];
    forall x | x in xf || x in yf ensures KindRank(KindOf(x)) < |ORDER_EVENT_KINDS| {
      assert x in xs || x in ys;
    }
    forall m | 0 <= m < |ORDER_EVENT_KINDS|
      ensures Filter(xf, OfKind(ORDER_EVENT_KINDS[m])) == Filter(yf, OfKind(ORDER_EVENT_KINDS[m])) {
      var k := OfKind(ORDER_EVENT_KINDS[m]);
      FilterSnoc(xs, k);
      FilterSnoc(ys, k);
      assert Filter(xs, k) == Filter(ys, k);
      if k(last) {
        SnocCancels(Filter(xf, k), Filter(yf, k), last);
      }
    }
  }

  /** An arrangement by timestamp and type is determined by the events of each type. */
  lemma {:induction false} TypeOrderedUnique(xs: seq<Event>, ys: seq<Event>)
    requires TypeOrdered(xs) && TypeOrdered(ys) && SameByType(xs, ys)
    ensures xs == ys
  {
    if xs == [] {
      if ys != [] {
        SameByTypeMember(ys, xs, ys[0]);
      }
    } else {
      SameByTypeLast(xs, ys);
      SameByTypeFront(xs, ys);
      TypeOrderedFront(xs);
      TypeOrderedFront(ys);
      TypeOrderedUnique(xs[..|xs| - 1], ys[..|ys| - 1]);
    }
  }

  /** What boot hands over is the one arrangement by timestamp and type of the log's order events
      that keeps the log's order within each type. */
  lemma GatheredIs(es: seq<Event>, ys: seq<Event>)
    requires TypeOrdered(ys) && SameByType(ys, Filter(es, OrderEvent))
    ensures Gathered(es) == ys
  {
    hide Filter, Gathered;
    var zs := Gathered(es);
    GatheredByType(es, 0);
    TypeOrderedIsOrdered(ys);
    forall x | x in zs ensures KindRank(KindOf(x)) < |ORDER_EVENT_KINDS| {
      assert x in multiset(zs);
      assert x in Filter(es, OrderEvent);
    }
    forall m | 0 <= m < |ORDER_EVENT_KINDS|
      ensures Filter(zs, OfKind(ORDER_EVENT_KINDS[m])) == Filter(ys, OfKind(ORDER_EVENT_KINDS[m])) {
      var k := OfKind(ORDER_EVENT_KINDS[m]);
      GatheredByType(es, m);
      OrderEventsOfKind(es, m);
      FilterOrdered(ys, k);
      SortOrdered(Filter(ys, k));
    }
    TypeOrderedUnique(zs, ys);
  }

  lemma OrderEventsOfKind(es: seq<Event>, m: nat)
    requires m < |ORDER_EVENT_KINDS|
    ensures Filter(Filter(es, OrderEvent), OfKind(ORDER_EVENT_KINDS[m])) == Filter(es, OfKind(ORDER_EVENT_KINDS[m]))
  {
    forall x | OfKind(ORDER_EVENT_KINDS[m])(x) ensures OrderEvent(x) {
      KindAtRank(KindOf(x), m);
    }
    FilterFilter(es, OrderEvent, OfKind(ORDER_EVENT_KINDS[m]));
  }

  lemma OrderEventsRanked(es: seq<Event>)
    ensures SameByType(Filter(es, OrderEvent), Filter(es, OrderEvent))
  {
    forall x | x in Filter(es, OrderEvent) ensures KindRank(KindOf(x)) < |ORDER_EVENT_KINDS| {
      FilterMember(es, OrderEvent, x);
    }
  }

  /** The rebuild is given the order events of the log in log order if and only if the log has them
      by timestamp, and simultaneous ones in the order of their types. */
  lemma GatheredIsLogOrder(es: seq<Event>)
    ensures Gathered(es) == Filter(es, OrderEvent) <==> TypeOrdered(Filter(es, OrderEvent))
  {
    hide Filter, Gathered;
    GatheredByType(es, 0);
    if TypeOrdered(Filter(es, OrderEvent)) {
      OrderEventsRanked(es);
      GatheredIs(es, Filter(es, OrderEvent));
    }
  }

  lemma SwappedByType(pre: seq<Event>, a: Event, b: Event)
    requires KindRank(KindOf(a)) < KindRank(KindOf(b)) < |ORDER_EVENT_KINDS|
    requires forall x :: x in pre ==> KindRank(KindOf(x)) < |ORDER_EVENT_KINDS|
    ensures SameByType(pre + [a, b], pre + [b, a])
  {
    hide Filter;
    forall m | 0 <= m < |ORDER_EVENT_KINDS|
      ensures Filter(pre + [a, b], OfKind(ORDER_EVENT_KINDS[m])) == Filter(pre + [b, a], OfKind(ORDER_EVENT_KINDS[m]))
    {
      var k := OfKind(ORDER_EVENT_KINDS[m]);
      KindAtRank(KindOf(a), m);
      KindAtRank(KindOf(b), m);
      assert pre + [a, b] == pre + [a] + [b] && pre + [b, a] == pre + [b] + [a];
      FilterAppend(pre, a, k);
      FilterAppend(pre + [a], b, k);
      FilterAppend(pre, b, k);
      FilterAppend(pre + [b], a, k);
    }
  }

  /** The order of the types: creations, submissions, acks, rejects, fills, cancels. */
  predicate EarlierType(a: Event, b: Event) {
    match a
    case CreatedEvent(_, _, _, _) =>
      b.SubmittedEvent? || b.AckEvent? || b.RejectedEvent? || b.FillEvent? || b.CanceledEvent?
    case SubmittedEvent(_, _, _) => b.AckEvent? || b.RejectedEvent? || b.FillEvent? || b.CanceledEvent?
    case AckEvent(_, _, _) => b.RejectedEvent? || b.FillEvent? || b.CanceledEvent?
    case RejectedEvent(_, _, _) => b.FillEvent? || b.CanceledEvent?
    case FillEvent(_, _, _, _, _, _, _) => b.CanceledEvent?
    case _ => false
  }

  lemma EarlierTypeIff(a: Event, b: Event)
    requires OrderEvent(a) && OrderEvent(b)
    ensures EarlierType(a, b) <==> KindRank(KindOf(a)) < KindRank(KindOf(b))
    ensures KindRank(KindOf(a)) < |ORDER_EVENT_KINDS|
  {
  }

  /** So of two simultaneous events at the end of a log in order the one of the type collected first
      comes out first, even if it was logged last: a fill logged before an ack is rebuilt after it. */
  lemma SimultaneousEventsReordered(pre: seq<Event>, a: Event, b: Event)
    requires TypeOrdered(pre + [a, b]) && a.stamp.ts == b.stamp.ts && forall x :: x in pre ==> OrderEvent(x)
    requires EarlierType(a, b)
    ensures Gathered(pre + [b, a]) == pre + [a, b]
  {
    EarlierTypeIff(a, b);
    EarlierTypeIff(b, a);
    hide Gathered, SameByType, TypeOrdered, Filter;
    FilterAll(pre + [b, a], OrderEvent);
    SwappedByType(pre, a, b);
    GatheredIs(pre + [b, a], pre + [a, b]);
  }

  // ---- Only the order of events within each order matters ----------------------------

  /** The order events of one order. */
  function About(id: Id): Event -> bool {
    (e: Event) => e.IsOrderEvent() && e.orderId == id
  }

  ghost predicate SameOrder(s: Store, t: Store, id: Id) {
    && (id in s.orders <==> id in t.orders)
    && (id in s.orders ==>
          id in s.history && id in t.history && s.orders[id] == t.orders[id] && s.history[id] == t.history[id])
  }

  lemma ApplySameOrder(s: Store, t: Store, id: Id, e: Event)
    requires s.WF() && t.WF() && SameOrder(s, t, id) && About(id)(e)
    ensures s.Apply(e).Some? == t.Apply(e).Some?
    ensures s.Apply(e).Some? ==> SameOrder(s.Apply(e).value, t.Apply(e).value, id)
  {
  }

  lemma ApplyOtherOrder(s: Store, id: Id, e: Event)
    requires s.WF() && !About(id)(e) && s.Apply(e).Some?
    ensures SameOrder(s, s.Apply(e).value, id)
  {
  }

  /** What a replay makes of one order is what a replay of that order's events makes of it. */
  lemma {:induction false} ProjectionReplay(es: seq<Event>, id: Id)
    requires Replay(EMPTY_STORE, es).Some?
    ensures Replay(EMPTY_STORE, Filter(es, About(id))).Some?
    ensures SameOrder(Replay(EMPTY_STORE, es).value, Replay(EMPTY_STORE, Filter(es, About(id))).value, id)
  {
    if es != [] {
      var front, last := es[..|es| - 1], es[|es| - 1];
      ProjectionReplay(front, id);
      var s, t := Replay(EMPTY_STORE, front).value, Replay(EMPTY_STORE, Filter(front, About(id))).value;
      FilterSnoc(es, About(id));
      if About(id)(last) {
        ReplaySnoc(EMPTY_STORE, Filter(front, About(id)), last);
        ApplySameOrder(s, t, id, last);
      } else {
        ApplyOtherOrder(s, id, last);
      }
    }
  }

  /** A log can be replayed if and only if the events of each order can be replayed alone. */
  lemma {:induction false} ReplayableOrderByOrder(es: seq<Event>)
    ensures Replay(EMPTY_STORE, es).Some? <==> forall id :: Replay(EMPTY_STORE, Filter(es, About(id))).Some?
  {
    if Replay(EMPTY_STORE, es).Some? {
      forall id ensures Replay(EMPTY_STORE, Filter(es, About(id))).Some? {
        ProjectionReplay(es, id);
      }
    } else {
      var front, last := es[..|es| - 1], es[|es| - 1];
      ReplayableOrderByOrder(front);
      if Replay(EMPTY_STORE, front).Some? {
        var id := last.orderId;
        ProjectionReplay(front, id);
        FilterSnoc(es, About(id));
        ReplaySnoc(EMPTY_STORE, Filter(front, About(id)), last);
        ApplySameOrder(Replay(EMPTY_STORE, front).value, Replay(EMPTY_STORE, Filter(front, About(id))).value, id, last);
        assert Replay(EMPTY_STORE, Filter(es, About(id))).None?;
      } else {
        var id :| Replay(EMPTY_STORE, Filter(front, About(id))).None?;
        assert Replay(EMPTY_STORE, Filter(es, About(id))).None? by {
          FilterSnoc(es, About(id));
          if About(id)(last) {
            ReplaySnoc(EMPTY_STORE, Filter(front, About(id)), last);
          }
        }
      }
    }
  }

  ghost predicate ClientIdsDistinct(es: seq<Event>) {
    forall e, f :: e in es && f in es && e.CreatedEvent? && f.CreatedEvent? && e.clientId == f.clientId ==>
                     e.orderId == f.orderId
  }

  ghost predicate VenueIdsDistinct(es: seq<Event>) {
    forall e, f :: e in es && f in es && e.AckEvent? && f.AckEvent? && e.venueId == f.venueId && e.venueId != EMPTY ==>
                     e.orderId == f.orderId
  }

  ghost predicate Acknowledged(s: Store, v: Id, id: Id) {
    id in s.history && exists e :: e in s.history[id] && e.AckEvent? && e.venueId == v && v != EMPTY
  }

  /** The client index of a rebuilt store as a function of its orders. */
  ghost predicate ClientsDetermined(s: Store) {
    forall k, id :: (k in s.byClient && s.byClient[k] == id) <==> (id in s.orders && s.orders[id].clientId == k)
  }

  /** The venue index of a rebuilt store as a function of its histories. */
  ghost predicate VenuesDetermined(s: Store) {
    forall v, id :: (v in s.byVenue && s.byVenue[v] == id) <==> Acknowledged(s, v, id)
  }

  ghost predicate ClientFromLog(o: Order, es: seq<Event>, id: Id) {
    exists e :: e in es && e.CreatedEvent? && e.orderId == id && e.clientId == o.clientId
  }

  ghost predicate RecordedFrom(h: seq<Event>, es: seq<Event>, id: Id) {
    forall e :: e in h ==> e in es && e.IsOrderEvent() && e.orderId == id
  }

  /** Where orders, client ids and recorded events come from. */
  ghost predicate FromLog(s: Store, es: seq<Event>) {
    && s.WF()
    && (forall id :: id in s.orders ==> ClientFromLog(s.orders[id], es, id))
    && (forall id :: id in s.history ==> RecordedFrom(s.history[id], es, id))
  }

  lemma ClientFromLonger(o: Order, o': Order, es: seq<Event>, e: Event, id: Id)
    requires ClientFromLog(o, es, id) && o'.clientId == o.clientId
    ensures ClientFromLog(o', es + [e], id)
  {
    var c :| c in es && c.CreatedEvent? && c.orderId == id && c.clientId == o.clientId;
    assert c in es + [e];
  }

  lemma ClientsFromLogApply(s: Store, es: seq<Event>, e: Event, id: Id)
    requires FromLog(s, es) && s.Apply(e).Some? && id in s.Apply(e).value.orders
    ensures ClientFromLog(s.Apply(e).value.orders[id], es + [e], id)
  {
    hide OrderAfter;
    if id in s.orders {
      if e.IsOrderEvent() && !e.CreatedEvent? {
        OrderAfterKeeps(s.orders[id], e);
      }
      ClientFromLonger(s.orders[id], s.Apply(e).value.orders[id], es, e, id);
    } else {
      assert e in es + [e];
    }
  }

  lemma RecordedFromLogApply(s: Store, es: seq<Event>, e: Event, id: Id)
    requires FromLog(s, es) && s.Apply(e).Some? && id in s.Apply(e).value.history
    ensures RecordedFrom(s.Apply(e).value.history[id], es + [e], id)
  {
    hide OrderAfter;
    var h := s.Apply(e).value.history[id];
    if id in s.history {
      assert h == s.history[id] || (h == s.history[id] + [e] && e.IsOrderEvent() && id == e.orderId);
    } else {
      assert h == [e];
    }
  }

  lemma FromLogApply(s: Store, es: seq<Event>, e: Event)
    requires FromLog(s, es) && s.Apply(e).Some?
    ensures FromLog(s.Apply(e).value, es + [e])
  {
    forall id | id in s.Apply(e).value.orders ensures ClientFromLog(s.Apply(e).value.orders[id], es + [e], id) {
      ClientsFromLogApply(s, es, e, id);
    }
    forall id | id in s.Apply(e).value.history ensures RecordedFrom(s.Apply(e).value.history[id], es + [e], id) {
      RecordedFromLogApply(s, es, e, id);
    }
  }

  lemma ClientIdIsNew(s: Store, es: seq<Event>, e: Event, id: Id)
    requires FromLog(s, es) && e.CreatedEvent? && ClientIdsDistinct(es + [e]) && e.orderId !in s.orders
    requires id in s.orders
    ensures s.orders[id].clientId != e.clientId
  {
    assert ClientFromLog(s.orders[id], es, id);
    var c :| c in es && c.CreatedEvent? && c.orderId == id && c.clientId == s.orders[id].clientId;
    assert c in es + [e] && e in es + [e];
  }

  lemma ClientsAdd(s: Store, t: Store, o: Order)
    requires ClientsDetermined(s) && o.orderId !in s.orders
    requires forall id :: id in s.orders ==> s.orders[id].clientId != o.clientId
    requires t.orders == s.orders[o.orderId := o] && t.byClient == s.byClient[o.clientId := o.orderId]
    ensures ClientsDetermined(t)
  {
  }

  lemma CreatedKeepsClients(s: Store, es: seq<Event>, e: Event)
    requires FromLog(s, es) && ClientsDetermined(s) && e.CreatedEvent? && ClientIdsDistinct(es + [e])
    ensures ClientsDetermined(s.ApplyCreated(e))
  {
    hide OrderAfter;
    if e.orderId !in s.orders {
      forall id | id in s.orders ensures s.orders[id].clientId != e.clientId {
        ClientIdIsNew(s, es, e, id);
      }
      ClientsAdd(s, s.ApplyCreated(e), NewOrder(e.orderId, e.clientId, e.intent));
    }
  }

  lemma CreatedKeepsVenues(s: Store, e: Event)
    requires s.WF() && VenuesDetermined(s) && e.CreatedEvent?
    ensures VenuesDetermined(s.ApplyCreated(e))
  {
    var t := s.ApplyCreated(e);
    forall v, id ensures Acknowledged(s, v, id) <==> Acknowledged(t, v, id) {
      if id == e.orderId {
        assert id in s.history ==> forall x :: x in t.history[id] <==> x in s.history[id] || x == e;
      }
    }
  }

  lemma AcknowledgedAfter(s: Store, t: Store, e: Event, v: Id, id: Id)
    requires e.IsOrderEvent()
    requires t.history.Keys == s.history.Keys && e.orderId in s.history
    requires t.history[e.orderId] == s.history[e.orderId] + [e]
    requires id != e.orderId && id in s.history ==> t.history[id] == s.history[id]
    ensures Acknowledged(t, v, id) <==>
            Acknowledged(s, v, id) || (id == e.orderId && e.AckEvent? && e.venueId == v && v != EMPTY)
  {
    if id == e.orderId {
      assert forall x :: x in t.history[id] <==> x in s.history[id] || x == e;
    }
  }

  lemma AckedOnce(s: Store, es: seq<Event>, e: Event, id: Id)
    requires FromLog(s, es) && VenueIdsDistinct(es + [e]) && e.AckEvent? && Acknowledged(s, e.venueId, id)
    ensures id == e.orderId
  {
    var a :| a in s.history[id] && a.AckEvent? && a.venueId == e.venueId;
    assert RecordedFrom(s.history[id], es, id);
    assert a in es + [e] && e in es + [e];
  }

  lemma ApplyKeepsClients(s: Store, e: Event)
    requires s.WF() && ClientsDetermined(s) && e.IsOrderEvent() && !e.CreatedEvent? && s.Apply(e).Some?
    ensures ClientsDetermined(s.Apply(e).value)
  {
    hide OrderAfter;
    if e.orderId in s.orders {
      OrderAfterKeeps(s.orders[e.orderId], e);
      assert s.Apply(e).value.orders[e.orderId].clientId == s.orders[e.orderId].clientId;
    }
  }

  lemma ApplyKeepsVenues(s: Store, es: seq<Event>, e: Event)
    requires FromLog(s, es) && VenuesDetermined(s) && VenueIdsDistinct(es + [e])
    requires e.IsOrderEvent() && !e.CreatedEvent? && s.Apply(e).Some?
    ensures VenuesDetermined(s.Apply(e).value)
  {
    hide OrderAfter;
    if e.orderId in s.orders {
      var t := s.Apply(e).value;
      forall v, id ensures (v in t.byVenue && t.byVenue[v] == id) <==> Acknowledged(t, v, id) {
        AcknowledgedAfter(s, t, e, v, id);
        if e.AckEvent? && v == e.venueId && Acknowledged(s, v, id) {
          AckedOnce(s, es, e, id);
        }
      }
    }
  }

  lemma {:induction false} ReplayDetermined(es: seq<Event>)
    requires Replay(EMPTY_STORE, es).Some? && ClientIdsDistinct(es)
    ensures var s := Replay(EMPTY_STORE, es).value;
            FromLog(s, es) && ClientsDetermined(s) && (VenueIdsDistinct(es) ==> VenuesDetermined(s))
  {
    if es != [] {
      var front, last := es[..|es| - 1], es[|es| - 1];
      assert es == front + [last];
      ReplayDetermined(front);
      var s := Replay(EMPTY_STORE, front).value;
      FromLogApply(s, front, last);
      if last.CreatedEvent? {
        CreatedKeepsClients(s, front, last);
        if VenueIdsDistinct(es) {
          CreatedKeepsVenues(s, last);
        }
      } else if last.IsOrderEvent() {
        ApplyKeepsClients(s, last);
        if VenueIdsDistinct(es) {
          ApplyKeepsVenues(s, front, last);
        }
      }
    }
  }

  lemma SameEvents(es: seq<Event>, fs: seq<Event>)
    requires forall id :: Filter(es, About(id)) == Filter(fs, About(id))
    ensures forall e: Event :: e.IsOrderEvent() ==> (e in es <==> e in fs)
  {
    forall e: Event | e.IsOrderEvent() ensures e in es <==> e in fs {
      FilterMember(es, About(e.orderId), e);
      FilterMember(fs, About(e.orderId), e);
    }
  }

  lemma SameOrders(s: Store, t: Store)
    requires s.WF() && t.WF() && forall id :: SameOrder(s, t, id)
    ensures s.orders == t.orders && s.history == t.history
  {
    forall id ensures id in s.orders <==> id in t.orders {
      assert SameOrder(s, t, id);
    }
    forall id | id in s.orders ensures s.orders[id] == t.orders[id] && s.history[id] == t.history[id] {
      assert SameOrder(s, t, id);
    }
  }

  lemma DeterminedClients(s: Store, t: Store)
    requires ClientsDetermined(s) && ClientsDetermined(t) && s.orders == t.orders
    ensures s.byClient == t.byClient
  {
    forall k | k in s.byClient ensures k in t.byClient && t.byClient[k] == s.byClient[k] {
      var id := s.byClient[k];
      assert id in t.orders && t.orders[id].clientId == k;
    }
    forall k | k in t.byClient ensures k in s.byClient {
      var id := t.byClient[k];
      assert id in s.orders && s.orders[id].clientId == k;
    }
  }

  lemma DeterminedVenues(s: Store, t: Store)
    requires VenuesDetermined(s) && VenuesDetermined(t) && s.history == t.history
    ensures s.byVenue == t.byVenue
  {
    forall v | v in s.byVenue ensures v in t.byVenue && t.byVenue[v] == s.byVenue[v] {
      assert Acknowledged(s, v, s.byVenue[v]);
      assert Acknowledged(t, v, s.byVenue[v]);
    }
    forall v | v in t.byVenue ensures v in s.byVenue {
      assert Acknowledged(t, v, t.byVenue[v]);
      assert Acknowledged(s, v, t.byVenue[v]);
    }
  }

  /** Two logs with the same events for each order rebuild the same store, however the orders
      are interleaved, as long as client ids are not shared between orders; and if one can be
      replayed, so can the other. Only the venue index needs venue ids to be unshared as well. */
  lemma InterleavingIrrelevant(es: seq<Event>, fs: seq<Event>)
    requires forall id :: Filter(es, About(id)) == Filter(fs, About(id))
    requires ClientIdsDistinct(es)
    ensures var s, t := Replay(EMPTY_STORE, es), Replay(EMPTY_STORE, fs);
            && s.Some? == t.Some?
            && (s.Some? ==> t.value == s.value.(byVenue := t.value.byVenue))
            && (VenueIdsDistinct(es) ==> s == t)
  {
    hide Replay, Filter;
    ReplayableOrderByOrder(es);
    ReplayableOrderByOrder(fs);
    if Replay(EMPTY_STORE, es).Some? {
      SameEvents(es, fs);
      ReplayDetermined(es);
      ReplayDetermined(fs);
      var s, t := Replay(EMPTY_STORE, es).value, Replay(EMPTY_STORE, fs).value;
      forall id ensures SameOrder(s, t, id) {
        ProjectionReplay(es, id);
        ProjectionReplay(fs, id);
      }
      SameOrders(s, t);
      DeterminedClients(s, t);
      if VenueIdsDistinct(es) {
        DeterminedVenues(s, t);
      }
    }
  }
}
