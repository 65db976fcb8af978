/** Short runs from the empty system that meet the exceptions to the general results
    (polytrader/oms/core.py, polytrader/ops/replay.py). */
module ShortRuns {
  import opened Prelude
  import opened OrderModel
  import opened EventLog
  import opened OrderStore
  import opened OmsCore
  import opened OmsRuns
  import opened ReplayEqualsLive
  import opened Reconstruction
  import opened Router
  import opened Interleaving
  import opened Races

  predicate Creation(d: Call) {
    d.CreateOrder? && d.orderId != EMPTY && d.created.id != d.submitted.id
  }

  function SubmittedOrder(d: Call): Order
    requires d.CreateOrder?
  {
    NewOrder(d.orderId, d.clientId, d.intent).(state := Submitted)
  }

  /** The run consists of fresh calls and ends with one order, of this history. */
  ghost predicate EndsWith(calls: seq<Call>, o: Order, es: seq<Event>) {
    && FreshRun(INITIAL, calls) && Linked(Run(INITIAL, calls))
    && var s := Run(INITIAL, calls).store;
    && s.orders == map[o.orderId := o] && s.history == map[o.orderId := es]
    && s.byClient == map[o.clientId := o.orderId]
    && Run(INITIAL, calls).bus.log == Log(es, set e <- es :: e.stamp.id)
  }

  lemma EndsWithTarget(calls: seq<Call>, o: Order, es: seq<Event>, call: Call)
    requires EndsWith(calls, o, es) && Direct(Run(INITIAL, calls), call) == Some(call) && !call.CreateOrder?
    requires call.clientId == o.clientId
    ensures Target(Run(INITIAL, calls), call) == Some(o) && o.orderId != EMPTY
  {
  }

  lemma TwoIds(c: Event, s: Event)
    requires c.stamp.id != s.stamp.id
    ensures EMPTY_LOG.Append(c).Append(s) == Log([c, s], set e <- [c, s] :: e.stamp.id)
  {
    assert [] + [c] + [s] == [c, s];
  }

  lemma CreatedRun(d: Call)
    requires Creation(d)
    ensures EndsWith([d], SubmittedOrder(d), [CreatedBy(d), SubmittedBy(d)])
  {
    hide Handle;
    RunSnoc([], d);
    assert [] + [d] == [d];
    CreateEffect(INITIAL, d);
    HandleKeepsLinked(INITIAL, d);
    TwoIds(CreatedBy(d), SubmittedBy(d));
  }

  lemma AppendedIds(es: seq<Event>, e: Event)
    requires e.stamp.id !in (set x <- es :: x.stamp.id)
    ensures Log(es, set x <- es :: x.stamp.id).Append(e) == Log(es + [e], set x <- es + [e] :: x.stamp.id)
  {
    assert (set x <- es + [e] :: x.stamp.id) == (set x <- es :: x.stamp.id) + {e.stamp.id};
  }

  /** A fresh event for the one order. */
  predicate FreshFor(es: seq<Event>, stamp: Stamp) {
    forall e :: e in es ==> e.stamp.id != stamp.id
  }

  /** The store after the one order has become `o'` by event `e`. */
  ghost predicate Becomes(s: Store, t: Store, o': Order, e: Event)
    requires e.IsOrderEvent()
  {
    && e.orderId in s.history
    && t.orders == s.orders[e.orderId := o'] && t.history == s.history[e.orderId := s.history[e.orderId] + [e]]
    && t.byClient == s.byClient
  }

  lemma BecomesEndsWith(calls: seq<Call>, call: Call, o: Order, o': Order, es: seq<Event>, e: Event)
    requires EndsWith(calls, o, es) && Fresh(Run(INITIAL, calls), call)
    requires e.IsOrderEvent() && o'.orderId == o.orderId == e.orderId && o'.clientId == o.clientId
    requires FreshFor(es, e.stamp)
    requires Becomes(Run(INITIAL, calls).store, Handle(Run(INITIAL, calls), call).core.store, o', e)
    requires Handle(Run(INITIAL, calls), call).core.bus.log == Run(INITIAL, calls).bus.log.Append(e)
    ensures EndsWith(calls + [call], o', es + [e])
  {
    hide Handle, Fresh, Indexed, Run, FreshRun;
    RunSnoc(calls, call);
    HandleKeepsLinked(Run(INITIAL, calls), call);
    AppendedIds(es, e);
    assert map[o.orderId := o][o.orderId := o'] == map[o'.orderId := o'];
    assert map[o.orderId := es][o.orderId := es + [e]] == map[o'.orderId := es + [e]];
  }

  lemma FillBecomes(s: Store, o: Order, e: Event)
    requires s.WF() && e.FillEvent? && e.orderId in s.orders && s.orders[e.orderId] == o
    requires o.state == Submitted && o.avgPrice.None? && o.filled + e.size < o.Size()
    ensures var t := s.Apply(e);
            t.Some? && Becomes(s, t.value, o.(filled := o.filled + e.size, avgPrice := Some(e.price)), e)
  {
  }

  lemma FilledRun(calls: seq<Call>, o: Order, es: seq<Event>, fill: Call)
    requires EndsWith(calls, o, es) && fill.VenueFill? && fill.clientId == o.clientId && FreshFor(es, fill.stamp)
    requires o.state == Submitted && o.avgPrice.None? && ValidFill(fill.size, fill.price, fill.fee)
    requires o.filled + fill.size < o.Size()
    ensures EndsWith(calls + [fill], o.(filled := o.filled + fill.size, avgPrice := Some(fill.price)),
                     es + [FillOf(o, fill)])
  {
    hide Handle, OrderAfter, Indexed, Run, FreshRun;
    var c := Run(INITIAL, calls);
    EndsWithTarget(calls, o, es, fill);
    FillEffect(c, fill);
    FillBecomes(c.store, o, FillOf(o, fill));
    BecomesEndsWith(calls, fill, o, o.(filled := o.filled + fill.size, avgPrice := Some(fill.price)), es,
                    FillOf(o, fill));
  }

  function FillOf(o: Order, fill: Call): Event
    requires fill.VenueFill?
  {
    FillEvent(fill.stamp, o.orderId, fill.fillId, fill.size, fill.price, fill.fee, fill.venueFillId)
  }

  function AckOf(o: Order, ack: Call): Event
    requires ack.VenueAck?
  {
    AckEvent(ack.stamp, o.orderId, ack.venueId)
  }

  lemma AckBecomes(s: Store, o: Order, e: Event)
    requires s.WF() && e.AckEvent? && e.orderId in s.orders && s.orders[e.orderId] == o && o.state in {Submitted, Acked}
    ensures Transition(o, Acked, None).Some?
    ensures var t := s.Apply(e);
            t.Some? && Becomes(s, t.value, o.(state := Acked, venueId := Some(e.venueId)), e)
  {
  }

  lemma AckedRun(calls: seq<Call>, o: Order, es: seq<Event>, ack: Call)
    requires EndsWith(calls, o, es) && ack.VenueAck? && ack.clientId == o.clientId && FreshFor(es, ack.stamp)
    requires o.state in {Submitted, Acked}
    ensures EndsWith(calls + [ack], o.(state := Acked, venueId := Some(ack.venueId)), es + [AckOf(o, ack)])
    ensures ack.venueId != EMPTY ==> ack.venueId in Run(INITIAL, calls + [ack]).store.byVenue
  {
    hide Handle, OrderAfter, Indexed, Run, FreshRun, Transition;
    var c := Run(INITIAL, calls);
    EndsWithTarget(calls, o, es, ack);
    AckEffect(c, ack);
    AckBecomes(c.store, o, AckOf(o, ack));
    BecomesEndsWith(calls, ack, o, o.(state := Acked, venueId := Some(ack.venueId)), es, AckOf(o, ack));
    RunSnoc(calls, ack);
  }

  // ---- Runs whose log does not give the live store -----------------------------------------

  /** Cancelling a just created order publishes and raises, and the log can no longer be replayed. */
  lemma CancelUnacked(d: Call, cancel: Call)
    requires Creation(d) && cancel.Cancel? && cancel.clientId == d.clientId && cancel.requested.id != cancel.canceled.id
    requires FreshFor([CreatedBy(d), SubmittedBy(d)], cancel.requested)
    requires FreshFor([CreatedBy(d), SubmittedBy(d)], cancel.canceled)
    ensures FreshRun(INITIAL, [d, cancel]) && PublishesThenRaises(Run(INITIAL, [d]), cancel)
    ensures Rebuilt(Run(INITIAL, [d, cancel])) == None
  {
    hide Handle, Replay;
    CreatedRun(d);
    RunSnoc([d], cancel);
    assert [d] + [cancel] == [d, cancel];
    var es := [CreatedBy(d), SubmittedBy(d)];
    EndsWithTarget([d], SubmittedOrder(d), es, cancel);
    assert EveryCall([d, cancel], PublishesOnlyWhatItApplies) ==> !PublishesThenRaises(Run(INITIAL, [d]), cancel) by {
      assert [d, cancel][..1] == [d];
    }
    ReplayableIff([d, cancel]);
  }

  lemma AcksReplayable(calls: seq<Call>)
    requires forall i :: 0 <= i < |calls| ==> calls[i].CreateOrder? || calls[i].VenueAck?
    ensures EveryCall(calls, PublishesOnlyWhatItApplies)
  {
    hide Run;
  }

  lemma FirstAckKeeps(d: Call, a: Call)
    requires Creation(d) && a.VenueAck? && a.clientId == d.clientId
    ensures EveryCall([d, a], KeepsVenueId)
  {
    hide Handle;
    CreatedRun(d);
    EndsWithTarget([d], SubmittedOrder(d), [CreatedBy(d), SubmittedBy(d)], a);
    assert [d, a][..1] == [d];
    forall i | 0 <= i < 2 ensures KeepsVenueId(Run(INITIAL, [d, a][..i]), [d, a][i]) {
    }
  }

  lemma ReAckReached(d: Call, a: Call, b: Call)
    requires Creation(d) && a.VenueAck? && b.VenueAck? && a.clientId == b.clientId == d.clientId
    requires a.venueId != EMPTY && b.venueId != a.venueId && a.stamp.id != b.stamp.id
    requires FreshFor([CreatedBy(d), SubmittedBy(d)], a.stamp) && FreshFor([CreatedBy(d), SubmittedBy(d)], b.stamp)
    ensures FreshRun(INITIAL, [d, a, b]) && ReAcksUnderNewId(Run(INITIAL, [d, a]), b)
    ensures FreshRun(INITIAL, [d, a]) && Linked(Run(INITIAL, [d, a])) && Fresh(Run(INITIAL, [d, a]), b)
  {
    hide Handle, Run;
    var o, es := SubmittedOrder(d), [CreatedBy(d), SubmittedBy(d)];
    CreatedRun(d);
    AckedRun([d], o, es, a);
    assert [d] + [a] == [d, a] && [d, a] + [b] == [d, a, b];
    var o' := o.(state := Acked, venueId := Some(a.venueId));
    EndsWithTarget([d, a], o', es + [AckOf(o, a)], b);
    RunSnoc([d, a], b);
  }

  /** Acking an order under a second venue id leaves the first one behind in the rebuilt index. */
  lemma ReAcked(d: Call, a: Call, b: Call)
    requires Creation(d) && a.VenueAck? && b.VenueAck? && a.clientId == b.clientId == d.clientId
    requires a.venueId != EMPTY && b.venueId != a.venueId && a.stamp.id != b.stamp.id
    requires FreshFor([CreatedBy(d), SubmittedBy(d)], a.stamp) && FreshFor([CreatedBy(d), SubmittedBy(d)], b.stamp)
    ensures FreshRun(INITIAL, [d, a, b]) && ReAcksUnderNewId(Run(INITIAL, [d, a]), b)
    ensures EveryCall([d, a, b], PublishesOnlyWhatItApplies)
    ensures Rebuilt(Run(INITIAL, [d, a, b])) != Some(Run(INITIAL, [d, a, b]).store)
  {
    hide *;
    ReAckReached(d, a, b);
    LastOfThree(d, a, b);
    ReAckNotLive(d, a, b);
  }

  lemma LastOfThree(d: Call, a: Call, b: Call)
    requires Creation(d) && a.VenueAck? && b.VenueAck?
    ensures Run(INITIAL, [d, a, b]) == Handle(Run(INITIAL, [d, a]), b).core
    ensures !PublishesThenRaises(Run(INITIAL, [d, a]), b)
    ensures EveryCall([d, a], PublishesOnlyWhatItApplies) && EveryCall([d, a, b], PublishesOnlyWhatItApplies)
  {
    hide Handle, Run;
    RunSnoc([d, a], b);
    assert [d, a] + [b] == [d, a, b];
    AcksReplayable([d, a]);
    AcksReplayable([d, a, b]);
    assert [d, a, b][..2] == [d, a];
  }

  lemma ReAckNotLive(d: Call, a: Call, b: Call)
    requires Creation(d) && a.VenueAck? && a.clientId == d.clientId
    requires FreshRun(INITIAL, [d, a]) && Linked(Run(INITIAL, [d, a])) && Fresh(Run(INITIAL, [d, a]), b)
    requires EveryCall([d, a], PublishesOnlyWhatItApplies)
    requires ReAcksUnderNewId(Run(INITIAL, [d, a]), b) && !PublishesThenRaises(Run(INITIAL, [d, a]), b)
    ensures var c := Handle(Run(INITIAL, [d, a]), b).core; Rebuilt(c) != Some(c.store)
  {
    hide Handle, Run, FreshRun, EveryCall, Replay, ReAcksUnderNewId, PublishesThenRaises, Indexed;
    FirstAckKeeps(d, a);
    ReplayIsLive([d, a]);
    HandleMirrors(Run(INITIAL, [d, a]), b);
  }

  // ---- A fill ahead of its ack -----------------------------------------------------------

  /** One order, filled in part before it is acked, with both events at one instant. */
  predicate FillAheadOfAck(d: Call, fill: Call, ack: Call) {
    && Creation(d) && fill.VenueFill? && ack.VenueAck? && fill.clientId == ack.clientId == d.clientId
    && ValidFill(fill.size, fill.price, fill.fee) && fill.size < d.intent.size
    && FreshFor([CreatedBy(d), SubmittedBy(d)], fill.stamp) && FreshFor([CreatedBy(d), SubmittedBy(d)], ack.stamp)
    && fill.stamp.id != ack.stamp.id
  }

  lemma FillThenAckRun(d: Call, fill: Call, ack: Call)
    requires FillAheadOfAck(d, fill, ack)
    ensures var o := SubmittedOrder(d);
            EndsWith([d, fill, ack],
                     o.(state := Acked, venueId := Some(ack.venueId),
                     filled := fill.size, avgPrice := Some(fill.price)),
                     [CreatedBy(d), SubmittedBy(d), FillOf(o, fill), AckOf(o, ack)])
  {
    hide Handle, EndsWith;
    var o, es := SubmittedOrder(d), [CreatedBy(d), SubmittedBy(d)];
    CreatedRun(d);
    FilledRun([d], o, es, fill);
    assert [d] + [fill] == [d, fill] && [d, fill] + [ack] == [d, fill, ack];
    var o' := o.(filled := fill.size, avgPrice := Some(fill.price));
    assert o.(filled := o.filled + fill.size, avgPrice := Some(fill.price)) == o';
    AckedRun([d, fill], o', es + [FillOf(o, fill)], ack);
    assert es + [FillOf(o, fill)] + [AckOf(o', ack)] == [CreatedBy(d), SubmittedBy(d), FillOf(o, fill), AckOf(o, ack)];
  }

  /** An ACKED order with something filled is reached. */
  lemma AckedWithFill(d: Call, fill: Call, ack: Call)
    requires FillAheadOfAck(d, fill, ack)
    ensures FreshRun(INITIAL, [d, fill, ack])
    ensures var s := Run(INITIAL, [d, fill, ack]).store;
            d.orderId in s.orders && s.orders[d.orderId].state == Acked && s.orders[d.orderId].filled == fill.size > 0.0
  {
    FillThenAckRun(d, fill, ack);
  }

  lemma FillThenAckKept(d: Call, fill: Call, ack: Call)
    requires FillAheadOfAck(d, fill, ack)
    ensures EveryCall([d, fill, ack], PublishesOnlyWhatItApplies) && EveryCall([d, fill, ack], KeepsVenueId)
  {
    hide Handle, Indexed, Run, FreshRun;
    var calls := [d, fill, ack];
    var o, es := SubmittedOrder(d), [CreatedBy(d), SubmittedBy(d)];
    CreatedRun(d);
    FilledRun([d], o, es, fill);
    assert [d] + [fill] == [d, fill];
    EndsWithTarget([d], o, es, fill);
    EndsWithTarget([d, fill], o.(filled := o.filled + fill.size, avgPrice := Some(fill.price)),
                   es + [FillOf(o, fill)], ack);
    assert calls[..1] == [d] && calls[..2] == [d, fill];
    forall i | 0 <= i < 3
      ensures PublishesOnlyWhatItApplies(Run(INITIAL, calls[..i]), calls[i])
      ensures KeepsVenueId(Run(INITIAL, calls[..i]), calls[i])
    {
    }
  }

  lemma FillAfterAck(s: Store, o: Order, e: Event)
    requires s.WF() && e.FillEvent? && e.orderId in s.orders && s.orders[e.orderId] == o
    requires o.state == Acked && o.avgPrice.None? && o.filled + e.size < o.Size()
    ensures var t := s.Apply(e); t.Some? && e.orderId in t.value.orders
                                 && t.value.orders[e.orderId].state == PartiallyFilled
  {
  }

  /** Then boot does not restore the live store, although the log can be replayed as it is: the
      order is ACKED live, and PARTIALLY_FILLED once rebuilt with the ack before the fill. */
  lemma BootDiverges(d: Call, fill: Call, ack: Call)
    requires FillAheadOfAck(d, fill, ack)
    requires d.created.ts <= d.submitted.ts <= fill.stamp.ts == ack.stamp.ts
    ensures var calls := [d, fill, ack];
            && FreshRun(INITIAL, calls) && EveryCall(calls, PublishesOnlyWhatItApplies)
            && EveryCall(calls, KeepsVenueId)
            && d.orderId in Run(INITIAL, calls).store.orders
            && Run(INITIAL, calls).store.orders[d.orderId].state == Acked
            && var boot := Replay(EMPTY_STORE, Gathered(Run(INITIAL, calls).bus.log.events));
            && boot.Some? && d.orderId in boot.value.orders && boot.value.orders[d.orderId].state == PartiallyFilled
  {
    hide Handle, Replay, Gathered, Run, FreshRun, EveryCall, Indexed;
    var o, es := SubmittedOrder(d), [CreatedBy(d), SubmittedBy(d)];
    var c, s, f, a := CreatedBy(d), SubmittedBy(d), FillOf(o, fill), AckOf(o, ack);
    FillThenAckRun(d, fill, ack);
    FillThenAckKept(d, fill, ack);
    assert [c, s] + [a, f] == [c, s, a, f] && [c, s] + [f, a] == [c, s, f, a];
    SimultaneousEventsReordered([c, s], a, f);
    CreatedRun(d);
    AckedRun([d], o, es, ack);
    assert [d] + [ack] == [d, ack] && es + [a] == [c, s, a] && [c, s, a] + [f] == [c, s, a, f];
    AcksReplayable([d, ack]);
    FirstAckKeeps(d, ack);
    ReplayIsLive([d, ack]);
    ReplaySnoc(EMPTY_STORE, [c, s, a], f);
    FillAfterAck(Run(INITIAL, [d, ack]).store, o.(state := Acked, venueId := Some(ack.venueId)), f);
  }

  // ---- Interleavings that break the accounts -----------------------------------------------

  /** A partial fill is handled while the creation of its order, or while the submit command, is
      being published: the step that resumes the creation damages the accounts. */
  lemma DamagesReached(config: Config, d: Call, fill: Call)
    requires Creation(d) && fill.VenueFill? && fill.clientId == d.clientId
    requires ValidFill(fill.size, fill.price, fill.fee) && fill.size < d.intent.size
    ensures Damages(Execute(config, [Spawn(0, d)] + CallSteps(1, fill)), Wake(0))
    ensures Damages(Execute(config, [Spawn(0, d), Wake(0)] + CallSteps(1, fill)), Wake(0))
  {
    hide Execute, Handle, Start, Resume, CallSteps;
    StartOfRun(config, d);
    CallIsHandled(config, [Spawn(0, d)], 1, fill);
    FillLostToCreation(INITIAL, d, fill);
    CallIsHandled(config, [Spawn(0, d), Wake(0)], 1, fill);
    FillLostToStaleCopy(INITIAL, d, fill);
  }

  lemma CreationSuspends(d: Call)
    requires Creation(d)
    ensures Linked(INITIAL) && Fresh(INITIAL, d) && d.clientId !in INITIAL.idem
    ensures var p := Start(INITIAL, d);
            && p.Suspended?
            && Resume(p.core, p.frame).Suspended?
  {
    InsertNewOrder(EMPTY_STORE, d);
    UpdateNewOrder(EMPTY_STORE, d, New, PendingSubmit, [CreatedBy(d)]);
  }

  lemma StartOfRun(config: Config, d: Call)
    requires Creation(d)
    ensures Linked(INITIAL) && Fresh(INITIAL, d) && d.clientId !in INITIAL.idem
    ensures var p := Start(INITIAL, d);
            && p.Suspended?
            && var s := Execute(config, [Spawn(0, d)]);
            && s.core == p.core && s.tasks == map[0 := p.frame]
            && var q := Resume(p.core, p.frame);
            && q.Suspended?
            && var t := Execute(config, [Spawn(0, d), Wake(0)]);
            && t.core == q.core && t.tasks == map[0 := q.frame]
  {
    hide Execute, Start, Resume, Linked, Fresh;
    CreationSuspends(d);
    ExecuteSnoc(config, [], Spawn(0, d));
    ExecuteSnoc(config, [Spawn(0, d)], Wake(0));
    assert [] + [Spawn(0, d)] == [Spawn(0, d)] && [Spawn(0, d)] + [Wake(0)] == [Spawn(0, d), Wake(0)];
    StartExecutes(config);
  }

  lemma StartExecutes(config: Config)
    ensures Execute(config, []) == Interleaving.START
  {
  }

  /** Two fills of an acked order that pass the size check together: the step that applies the
      second damages the accounts. */
  lemma OverfillReached(config: Config, d: Call, ack: Call, a: Call, b: Call)
    requires Creation(d) && ack.VenueAck? && a.VenueFill? && b.VenueFill?
    requires ack.clientId == a.clientId == b.clientId == d.clientId
    requires FreshFor([CreatedBy(d), SubmittedBy(d)], ack.stamp)
    requires ValidFill(a.size, a.price, a.fee) && ValidFill(b.size, b.price, b.fee)
    requires a.size <= d.intent.size && b.size <= d.intent.size && a.size + b.size > d.intent.size
    ensures Damages(Execute(config, Sequentially([d, ack]) + [Spawn(1, a)] + [Spawn(2, b)] + [Wake(1)]), Wake(2))
  {
    hide Execute, Start, Resume, Run, Handle, CallSteps, Sequentially, FreshRun, Indexed;
    var o := SubmittedOrder(d).(state := Acked, venueId := Some(ack.venueId));
    CreatedRun(d);
    AckedRun([d], SubmittedOrder(d), [CreatedBy(d), SubmittedBy(d)], ack);
    assert [d] + [ack] == [d, ack];
    OneCreation(d, ack);
    RunIsInterleaving(config, [d, ack]);
    var steps := Sequentially([d, ack]);
    var c := Run(INITIAL, [d, ack]);
    EndsWithTarget([d, ack], o, [CreatedBy(d), SubmittedBy(d)] + [AckOf(SubmittedOrder(d), ack)], a);
    TwoFillsOverfill(c, o, a, b);
    ExecuteSnoc(config, steps, Spawn(1, a));
    ExecuteSnoc(config, steps + [Spawn(1, a)], Spawn(2, b));
    ExecuteSnoc(config, steps + [Spawn(1, a)] + [Spawn(2, b)], Wake(1));
  }

  lemma OneCreation(d: Call, ack: Call)
    requires Creation(d) && ack.VenueAck?
    ensures DrawsDistinct([d, ack])
  {
    assert [d, ack][..1] == [d] && [d][..0] == [];
  }
}
