/** What interleaving does to the accounts of fills: exactly which steps break them
    (polytrader/oms/core.py, polytrader/oms/store.py). */
module Races {
  import opened Prelude
  import opened OrderModel
  import opened OrderStore
  import opened OmsCore
  import opened OmsRuns
  import opened FillAccounting
  import opened Router
  import opened Interleaving

  /** create_order is about to install its own copy of the order, which knows of no fill, over a
      stored order that has some. */
  predicate Wipes(c: Core, f: Frame) {
    match f
    case CreatedPublished(_, order, _) =>
      && order.orderId in c.store.orders && c.store.orders[order.orderId].filled > 0.0
      && c.store.orders[order.orderId].state in {New, PendingSubmit}
      && (order.clientId in c.idem ==> c.idem[order.clientId] == order.orderId)
    case CommandPublished(order, _) =>
      && order.orderId in c.store.orders && c.store.orders[order.orderId].filled > 0.0
      && c.store.orders[order.orderId].state in {PendingSubmit, Submitted}
    case _ => false
  }

  /** A published fill is about to be applied to an open or filled order that it no longer fits. */
  predicate Overfills(c: Core, f: Frame) {
    && f.EventPublished? && f.event.FillEvent? && f.event.orderId in c.store.orders
    && var o := c.store.orders[f.event.orderId];
    && o.filled + f.event.size > o.Size() && o.state in {Acked, PartiallyFilled, Filled}
  }

  // ---- One segment of a handler --------------------------------------------------------

  /** Changing one order and its history leaves all accounts exact if and only if that one is. */
  lemma ChangedAccountedIff(s: Store, t: Store, o: Order, es: seq<Event>)
    requires AllAccounted(s)
    requires t.WF() && t.orders == s.orders[o.orderId := o] && t.history == s.history[o.orderId := es]
    ensures AllAccounted(t) <==> Accounted(o, es)
  {
    hide Accounted;
    assert t.orders[o.orderId] == o && t.history[o.orderId] == es;
  }

  lemma CopyAccountedIff(stored: Order, copy: Order, es: seq<Event>)
    requires Accounted(stored, es)
    requires copy.filled == 0.0 && copy.avgPrice.None? && copy.state in {PendingSubmit, Submitted}
    ensures Accounted(copy, es) <==> stored.filled == 0.0
  {
    hide Worth, Paid;
  }

  lemma InstalledAccountedIff(s: Store, copy: Order)
    requires AllAccounted(s) && s.Update(copy).Some?
    requires copy.filled == 0.0 && copy.avgPrice.None? && copy.state in {PendingSubmit, Submitted}
    ensures AllAccounted(s.Update(copy).value) <==> s.orders[copy.orderId].filled == 0.0
  {
    hide Accounted;
    assert Accounted(s.orders[copy.orderId], s.history[copy.orderId]);
    var es := s.history[copy.orderId];
    var t := s.Update(copy).value;
    assert t.history == s.history[copy.orderId := es];
    ChangedAccountedIff(s, t, copy, es);
    CopyAccountedIff(s.orders[copy.orderId], copy, es);
  }

  lemma OtherEventAccounted(o: Order, es: seq<Event>, e: Event)
    requires Accounted(o, es) && !e.FillEvent?
    ensures Accounted(o, es + [e])
  {
    hide Worth;
    assert (es + [e])[..|es|] == es;
  }

  lemma NewAccounted(orderId: Id, clientId: Id, intent: Intent, e: Event)
    requires !e.FillEvent?
    ensures Accounted(NewOrder(orderId, clientId, intent), []) && Accounted(NewOrder(orderId, clientId, intent), [e])
  {
    assert [e][..0] == [];
  }

  lemma CreatedAccounted(s: Store, e: Event)
    requires AllAccounted(s) && e.CreatedEvent?
    ensures AllAccounted(s.ApplyCreated(e))
    ensures e.orderId in s.ApplyCreated(e).orders
    ensures e.orderId in s.orders ==> s.ApplyCreated(e).orders == s.orders
    ensures e.orderId !in s.orders ==> s.ApplyCreated(e).orders[e.orderId] == NewOrder(e.orderId, e.clientId, e.intent)
  {
    hide Accounted;
    var t := s.ApplyCreated(e);
    if e.orderId in s.orders {
      assert Accounted(s.orders[e.orderId], s.history[e.orderId]);
      OtherEventAccounted(s.orders[e.orderId], s.history[e.orderId], e);
      assert t.orders == s.orders[e.orderId := s.orders[e.orderId]];
      ChangedAccountedIff(s, t, s.orders[e.orderId], s.history[e.orderId] + [e]);
    } else {
      NewAccounted(e.orderId, e.clientId, e.intent, e);
      assert [] + [e] == [e];
      ChangedAccountedIff(s, t, NewOrder(e.orderId, e.clientId, e.intent), [e]);
    }
  }

  lemma CreationStore(c: Core, f: Frame)
    requires c.store.WF() && f.WellFormed() && f.CreatedPublished?
    ensures var t := c.store.ApplyCreated(f.event).Update(f.order.(state := PendingSubmit));
            Resume(c, f).core.store ==
            if t.Some? && (f.order.clientId in c.idem ==> c.idem[f.order.clientId] == f.order.orderId) then t.value
            else c.store.ApplyCreated(f.event)
  {
    hide Store.Update;
  }

  lemma UpdateGoesThrough(s: Store, o: Order)
    requires s.WF() && o.orderId in s.orders
    ensures s.Update(o).Some? <==>
            s.orders[o.orderId].state == o.state || CanTransition(s.orders[o.orderId].state, o.state)
  {
    hide CanTransition;
  }

  lemma UpdatesToPending(s: Store, o: Order)
    requires s.WF() && o.orderId in s.orders && o.state == PendingSubmit
    ensures s.Update(o).Some? <==> s.orders[o.orderId].state in {New, PendingSubmit}
  {
    hide Store.Update;
    UpdateGoesThrough(s, o);
  }

  lemma CreationAccountedIff(c: Core, f: Frame)
    requires AllAccounted(c.store) && f.WellFormed() && f.CreatedPublished?
    ensures AllAccounted(Resume(c, f).core.store) <==> !Wipes(c, f)
  {
    assert c.store.WF();
    hide AllAccounted, Resume, Store.Update, Store.ApplyCreated;
    var t := c.store.ApplyCreated(f.event);
    CreatedAccounted(c.store, f.event);
    CreationStore(c, f);
    var pending := f.order.(state := PendingSubmit);
    UpdatesToPending(t, pending);
    if t.Update(pending).Some? {
      InstalledAccountedIff(t, pending);
    }
    NotNegative(t, f.order.orderId);
  }

  lemma NotNegative(s: Store, id: Id)
    requires AllAccounted(s) && id in s.orders
    ensures s.orders[id].filled >= 0.0
  {
    assert Accounted(s.orders[id], s.history[id]);
  }

  lemma SubmissionAccountedIff(c: Core, f: Frame)
    requires AllAccounted(c.store) && f.WellFormed() && f.CommandPublished?
    ensures AllAccounted(Resume(c, f).core.store) <==> !Wipes(c, f)
  {
    assert c.store.WF();
    hide AllAccounted;
    var submitted := f.order.(state := Submitted);
    if c.store.Update(submitted).Some? {
      InstalledAccountedIff(c.store, submitted);
      NotNegative(c.store, submitted.orderId);
    }
  }

  lemma OverfilledNotAccounted(o: Order, es: seq<Event>, e: Event)
    requires e.FillEvent? && o.filled + e.size > o.Size() && OrderAfter(o, e).Some?
    ensures !Accounted(OrderAfter(o, e).value, es + [e])
  {
    hide WeightedAverage, Worth, Bought, Paid;
  }

  lemma RefusedOverfill(o: Order, e: Event)
    requires e.FillEvent? && e.size > 0.0 && o.filled >= 0.0 && o.filled + e.size > o.Size()
    ensures OrderAfter(o, e).Some? <==> o.state in {Acked, PartiallyFilled, Filled}
  {
    hide WeightedAverage;
  }

  lemma AppliedAccountedIff(c: Core, e: Event)
    requires AllAccounted(c.store) && EventPublished(e).WellFormed() && c.store.Apply(e).Some?
    ensures AllAccounted(c.store.Apply(e).value) <==> !Overfills(c, EventPublished(e))
  {
    hide OrderAfter, Accounted;
    if e.orderId in c.store.orders {
      var o, es := c.store.orders[e.orderId], c.store.history[e.orderId];
      var t := c.store.Apply(e).value;
      assert Accounted(o, es);
      NotNegative(c.store, e.orderId);
      OrderAfterKeeps(o, e);
      ChangedAccountedIff(c.store, t, OrderAfter(o, e).value, es + [e]);
      if !e.FillEvent? {
        OtherAccounted(o, es, e);
      } else if o.filled + e.size <= o.Size() {
        FillAccounted(o, es, e);
      } else {
        OverfilledNotAccounted(o, es, e);
        RefusedOverfill(o, e);
      }
    }
  }

  /** From exact accounts, resuming a handler leaves them exact if and only if it neither wipes out
      fills nor overfills. */
  lemma ResumeAccountedIff(c: Core, f: Frame)
    requires AllAccounted(c.store) && f.WellFormed()
    ensures AllAccounted(Resume(c, f).core.store) <==> !Wipes(c, f) && !Overfills(c, f)
  {
    match f {
      case CreatedPublished(_, _, _) => CreationAccountedIff(c, f);
      case CommandPublished(_, _) => SubmissionAccountedIff(c, f);
      case EventPublished(e) =>
        if c.store.Apply(e).Some? {
          AppliedAccountedIff(c, e);
        } else {
          RefusedNotOverfilling(c, e);
        }
      case _ =>
    }
  }

  lemma RefusedNotOverfilling(c: Core, e: Event)
    requires AllAccounted(c.store) && EventPublished(e).WellFormed() && c.store.Apply(e).None?
    ensures !Overfills(c, EventPublished(e))
  {
    hide OrderAfter;
    if e.FillEvent? && e.orderId in c.store.orders {
      NotNegative(c.store, e.orderId);
      if c.store.orders[e.orderId].filled + e.size > c.store.orders[e.orderId].Size() {
        RefusedOverfill(c.store.orders[e.orderId], e);
      }
    }
  }

  lemma AckStartAccounted(c: Core, clientId: Id, venueId: Id, stamp: Stamp)
    requires AllAccounted(c.store)
    ensures AllAccounted(StartAck(c, clientId, venueId, stamp).core.store)
  {
    hide Accounted;
    var o := c.store.GetByClient(clientId);
    if o.Some? && Transition(o.value, Acked, None).Some? {
      var acked := Transition(o.value, Acked, None).value.(venueId := Some(venueId));
      if c.store.Update(acked).Some? {
        var es := c.store.history[o.value.orderId];
        assert Accounted(o.value, es);
        AckedAccounted(o.value, acked, es);
        assert c.store.history == c.store.history[acked.orderId := es];
        ChangedAccountedIff(c.store, c.store.Update(acked).value, acked, es);
      }
    }
  }

  lemma AckedAccounted(o: Order, acked: Order, es: seq<Event>)
    requires Accounted(o, es) && o.state in {Submitted, Acked} && acked == o.(state := Acked, venueId := acked.venueId)
    ensures Accounted(acked, es)
  {
  }

  /** The first segment of a handler keeps the accounts exact. */
  lemma StartAccounted(c: Core, call: Call)
    requires AllAccounted(c.store)
    ensures AllAccounted(Start(c, call).core.store)
  {
    hide Accounted;
    if call.CreateOrder? {
      var e := CreatedBy(call);
      NewAccounted(call.orderId, call.clientId, call.intent, e);
      ChangedAccountedIff(c.store, c.store.Insert(call.intent, call.clientId, call.orderId),
                          NewOrder(call.orderId, call.clientId, call.intent), []);
    } else {
      hide AllAccounted;
      assert c.store.WF();
      StartDirect(c, call);
      var d := Direct(c, call);
      if d.Some? {
        if d.value.VenueAck? {
          AckStartAccounted(c, d.value.clientId, d.value.venueId, d.value.stamp);
        } else {
          StartKeepsStore(c, d.value);
        }
      }
    }
  }

  // ---- Every interleaving ----------------------------------------------------------------

  /** The step resumes a handler that wipes out fills or overfills. */
  predicate Damages(s: Sys, step: Step) {
    step.Wake? && step.task in s.tasks && (Wipes(s.core, s.tasks[step.task]) || Overfills(s.core, s.tasks[step.task]))
  }

  lemma NextAccountedIff(s: Sys, config: Config, step: Step)
    requires FramesWellFormed(s) && AllAccounted(s.core.store)
    ensures AllAccounted(Next(s, config, step).core.store) <==> !Damages(s, step)
  {
    hide AllAccounted, Start, Resume, Wipes, Overfills;
    match step {
      case Spawn(task, call) => StartAccounted(s.core, call);
      case Wake(task) =>
        if task in s.tasks {
          ResumeAccountedIff(s.core, s.tasks[task]);
        }
      case _ =>
    }
  }

  /** The accounts are exact after the first `n` steps. */
  ghost predicate ExactAfter(config: Config, steps: seq<Step>, n: int)
    requires 0 <= n <= |steps|
  {
    AllAccounted(Execute(config, steps[..n]).core.store)
  }

  predicate Harmless(config: Config, steps: seq<Step>, n: int)
    requires 0 <= n < |steps|
  {
    !Damages(Execute(config, steps[..n]), steps[n])
  }

  lemma ExecuteNext(config: Config, steps: seq<Step>, n: nat)
    requires n < |steps|
    ensures Execute(config, steps[..n + 1]) == Next(Execute(config, steps[..n]), config, steps[n])
  {
    assert steps[..n + 1][..n] == steps[..n];
  }

  lemma {:induction false} ExactWhileHarmless(config: Config, steps: seq<Step>, n: nat)
    requires n <= |steps| && forall i :: 0 <= i < n ==> Harmless(config, steps, i)
    ensures ExactAfter(config, steps, n)
  {
    if n == 0 {
      assert steps[..0] == [];
    } else {
      hide Execute, Next, Damages, AllAccounted;
      ExactWhileHarmless(config, steps, n - 1);
      ExecuteNext(config, steps, n - 1);
      assert Harmless(config, steps, n - 1);
      NextAccountedIff(Execute(config, steps[..n - 1]), config, steps[n - 1]);
    }
  }

  /** In every interleaving the accounts of all orders are exact at every moment if and only if no
      step wipes out fills or overfills. */
  lemma AccountsExactIff(config: Config, steps: seq<Step>)
    ensures (forall n :: 0 <= n <= |steps| ==> ExactAfter(config, steps, n))
       <==> (forall n :: 0 <= n < |steps| ==> Harmless(config, steps, n))
  {
    hide Execute, Next, Damages, AllAccounted;
    if forall n :: 0 <= n <= |steps| ==> ExactAfter(config, steps, n) {
      forall n | 0 <= n < |steps| ensures Harmless(config, steps, n) {
        assert ExactAfter(config, steps, n) && ExactAfter(config, steps, n + 1);
        ExecuteNext(config, steps, n);
        NextAccountedIff(Execute(config, steps[..n]), config, steps[n]);
      }
    }
    if forall n :: 0 <= n < |steps| ==> Harmless(config, steps, n) {
      forall n | 0 <= n <= |steps| ensures ExactAfter(config, steps, n) {
        ExactWhileHarmless(config, steps, n);
      }
    }
  }

  // ---- The three ways to break them ------------------------------------------------------

  /** A partial fill of an order that is new or waiting to be submitted only adds to what is
      filled. */
  lemma FillOfUnsent(c: Core, o: Order, fill: Call)
    requires c.store.WF() && fill.VenueFill? && Target(c, fill) == Some(o) && o.state in {New, PendingSubmit}
    requires ValidFill(fill.size, fill.price, fill.fee) && o.filled == 0.0 && o.avgPrice.None? && fill.size < o.Size()
    ensures var r := Handle(c, fill);
            && r.Returned? && r.core.idem == c.idem
            && r.core.store.orders == c.store.orders[o.orderId := o.(filled := fill.size, avgPrice := Some(fill.price))]
            && o.orderId in r.core.store.history && o.orderId in c.store.history
            && Bought(r.core.store.history[o.orderId]) == Bought(c.store.history[o.orderId]) + fill.size
  {
    hide Handle, WeightedAverage, Bought;
    FillEffect(c, fill);
    BoughtAppend(c.store.history[o.orderId],
                 FillEvent(fill.stamp, o.orderId, fill.fillId, fill.size, fill.price, fill.fee, fill.venueFillId));
  }

  lemma BoughtAppend(es: seq<Event>, e: Event)
    ensures Bought(es + [e]) == Bought(es) + if e.FillEvent? then e.size else 0.0
    ensures Bought([]) == 0.0
  {
    assert (es + [e])[..|es|] == es;
  }

  /** create_order keeps a copy of the order across its awaits. A partial fill handled while the
      order's creation is being published is wiped out when the creation resumes. */
  lemma FillLostToCreation(c: Core, d: Call, fill: Call)
    requires Linked(c) && d.CreateOrder? && Fresh(c, d) && d.clientId !in c.idem
    requires fill.VenueFill? && fill.clientId == d.clientId
    requires ValidFill(fill.size, fill.price, fill.fee) && fill.size < d.intent.size
    ensures var p := Start(c, d);
            && p.Suspended?
            && var filled := Handle(p.core, fill);
            && filled.Returned? && Wipes(filled.core, p.frame)
            && d.orderId in filled.core.store.orders && filled.core.store.orders[d.orderId].filled == fill.size
            && var r := Resume(filled.core, p.frame);
            && d.orderId in r.core.store.orders && r.core.store.orders[d.orderId].filled == 0.0
            && d.orderId in r.core.store.history && Bought(r.core.store.history[d.orderId]) == fill.size
  {
    hide Bought;
    var p := Start(c, d);
    BoughtAppend([], CreatedBy(d));
    FillOfUnsent(p.core, NewOrder(d.orderId, d.clientId, d.intent), fill);
    WipedOut(Handle(p.core, fill).core, p.frame);
  }

  /** So is one handled while its submit command is being published. Either way the order's history
      keeps the fill: state-machine safety survives, fill accounting does not. */
  lemma FillLostToStaleCopy(c: Core, d: Call, fill: Call)
    requires Linked(c) && d.CreateOrder? && Fresh(c, d) && d.clientId !in c.idem
    requires fill.VenueFill? && fill.clientId == d.clientId
    requires ValidFill(fill.size, fill.price, fill.fee) && fill.size < d.intent.size
    ensures var p := Resume(Start(c, d).core, Start(c, d).frame);
            && p.Suspended?
            && var filled := Handle(p.core, fill);
            && filled.Returned? && Wipes(filled.core, p.frame)
            && d.orderId in filled.core.store.orders && filled.core.store.orders[d.orderId].filled == fill.size
            && var r := Resume(filled.core, p.frame);
            && d.orderId in r.core.store.orders && r.core.store.orders[d.orderId].filled == 0.0
            && d.orderId in r.core.store.history && Bought(r.core.store.history[d.orderId]) == fill.size
  {
    hide Handle, Bought;
    BoughtAppend([], CreatedBy(d));
    assert [] + [CreatedBy(d)] == [CreatedBy(d)];
    InsertNewOrder(c.store, d);
    UpdateNewOrder(c.store, d, New, PendingSubmit, [CreatedBy(d)]);
    var p := Resume(Start(c, d).core, Start(c, d).frame);
    FillOfUnsent(p.core, NewOrder(d.orderId, d.clientId, d.intent).(state := PendingSubmit), fill);
    WipedOut(Handle(p.core, fill).core, p.frame);
  }

  lemma WipedOut(c: Core, f: Frame)
    requires c.store.WF() && f.WellFormed() && Wipes(c, f)
    ensures var r, id := Resume(c, f), f.order.orderId;
            && id in r.core.store.orders && r.core.store.orders[id].filled == 0.0
            && id in r.core.store.history && Bought(r.core.store.history[id]) == Bought(c.store.history[id])
  {
    hide Bought;
    if f.CreatedPublished? {
      BoughtAppend(c.store.history[f.order.orderId], f.event);
    }
  }

  lemma FillStarts(c: Core, o: Order, fill: Call)
    requires c.store.WF() && fill.VenueFill? && Target(c, fill) == Some(o)
    requires ValidFill(fill.size, fill.price, fill.fee) && o.filled + fill.size <= o.Size()
    ensures var p := Start(c, fill);
            && p.Suspended? && p.core.store == c.store
            && p.frame ==
               EventPublished(FillEvent(fill.stamp, o.orderId, fill.fillId, fill.size, fill.price, fill.fee,
                                        fill.venueFillId))
  {
  }

  lemma OpenFillApplies(c: Core, o: Order, e: Event)
    requires c.store.WF() && o.orderId in c.store.orders && c.store.orders[o.orderId] == o
    requires EventPublished(e).WellFormed()
    requires e.FillEvent? && e.orderId == o.orderId && o.filled >= 0.0 && o.state in {Acked, PartiallyFilled, Filled}
    ensures var r := Resume(c, EventPublished(e));
            && r.Returned? && o.orderId in r.core.store.orders
            && r.core.store.orders[o.orderId].filled == o.filled + e.size
            && r.core.store.orders[o.orderId].intent == o.intent
            && r.core.store.orders[o.orderId].state in {PartiallyFilled, Filled}
  {
    hide WeightedAverage;
  }

  /** Two fills that both passed the size check before either was applied overfill the order. */
  lemma TwoFillsOverfill(c: Core, o: Order, a: Call, b: Call)
    requires c.store.WF() && a.VenueFill? && b.VenueFill? && a.clientId == b.clientId
    requires Target(c, a) == Some(o) && o.state in {Acked, PartiallyFilled} && o.filled >= 0.0
    requires ValidFill(a.size, a.price, a.fee) && o.filled + a.size <= o.Size()
    requires ValidFill(b.size, b.price, b.fee) && o.filled + b.size <= o.Size()
    requires o.filled + a.size + b.size > o.Size()
    ensures var p := Start(c, a);
            && p.Suspended?
            && var q := Start(p.core, b);
            && q.Suspended?
            && var r := Resume(q.core, p.frame);
            && r.Returned? && Overfills(r.core, q.frame)
            && var t := Resume(r.core, q.frame);
            && t.Returned? && o.orderId in t.core.store.orders
            && t.core.store.orders[o.orderId].filled > o.Size()
  {
    hide Start;
    FillStarts(c, o, a);
    var p := Start(c, a);
    FillStarts(p.core, o, b);
    var q := Start(p.core, b);
    hide Resume, OrderAfter;
    OpenFillApplies(q.core, o, p.frame.event);
    var r := Resume(q.core, p.frame);
    OpenFillApplies(r.core, r.core.store.orders[o.orderId], q.frame.event);
  }

  // ---- One call at a time is one of the interleavings --------------------------------------

  /** A call carried to its end before anything else happens. */
  function CallSteps(task: nat, call: Call): seq<Step> {
    [Spawn(task, call), Wake(task), Wake(task), Wake(task)]
  }

  /** The call has got as far as `p`; `tasks` are the others. */
  ghost predicate At(s: Sys, task: nat, tasks: map<nat, Frame>, p: Progress) {
    && FramesWellFormed(s) && p.WF() && s.core == p.core
    && s.tasks == if p.Suspended? then tasks[task := p.frame] else tasks
  }

  lemma SpawnAt(s: Sys, task: nat, call: Call)
    requires FramesWellFormed(s) && task !in s.tasks && (call.CreateOrder? ==> call.orderId !in s.drawn)
    ensures var t := SpawnStep(s, task, call);
            && At(t, task, s.tasks, Start(s.core, call))
            && t.drawn == s.drawn + if call.CreateOrder? then {call.orderId} else {}
  {
    hide Start;
    var p := Start(s.core, call);
    if !p.Suspended? {
      assert s.tasks - {task} == s.tasks;
    }
  }

  lemma WakeAt(s: Sys, task: nat, tasks: map<nat, Frame>, p: Progress) returns (q: Progress)
    requires At(s, task, tasks, p) && task !in tasks
    ensures At(WakeStep(s, task), task, tasks, q) && WakeStep(s, task).drawn == s.drawn
    ensures Finish(q) == Finish(p) && (q.Suspended? ==> p.Suspended? && q.frame.Stage() < p.frame.Stage())
  {
    hide Resume;
    q := p;
    if p.Suspended? {
      FinishStep(p);
      q := Resume(p.core, p.frame);
      var t := tasks[task := p.frame];
      assert t - {task} == tasks;
      assert q.Suspended? ==> t[task := q.frame] == tasks[task := q.frame];
    }
  }

  lemma ExecuteSnoc(config: Config, steps: seq<Step>, step: Step)
    ensures Execute(config, steps + [step]) == Next(Execute(config, steps), config, step)
  {
    assert (steps + [step])[..|steps|] == steps;
  }

  lemma CallIsHandled(config: Config, steps: seq<Step>, task: nat, call: Call)
    requires task !in Execute(config, steps).tasks
    requires call.CreateOrder? ==> call.orderId !in Execute(config, steps).drawn
    ensures var s, t := Execute(config, steps), Execute(config, steps + CallSteps(task, call));
            && t.core == Handle(s.core, call).core && t.tasks == s.tasks
            && t.drawn == s.drawn + if call.CreateOrder? then {call.orderId} else {}
  {
    hide Execute, SpawnStep, WakeStep, Start, Resume, At;
    var s := Execute(config, steps);
    var steps1 := steps + [Spawn(task, call)];
    var steps2 := steps1 + [Wake(task)];
    var steps3 := steps2 + [Wake(task)];
    var steps4 := steps3 + [Wake(task)];
    ExecuteSnoc(config, steps, Spawn(task, call));
    ExecuteSnoc(config, steps1, Wake(task));
    ExecuteSnoc(config, steps2, Wake(task));
    ExecuteSnoc(config, steps3, Wake(task));
    SpawnAt(s, task, call);
    var p := Start(s.core, call);
    var q := WakeAt(Execute(config, steps1), task, s.tasks, p);
    var r := WakeAt(Execute(config, steps2), task, s.tasks, q);
    var u := WakeAt(Execute(config, steps3), task, s.tasks, r);
    AtEnd(Execute(config, steps4), task, s.tasks, u);
    assert steps4 == steps + CallSteps(task, call);
  }

  lemma AtEnd(s: Sys, task: nat, tasks: map<nat, Frame>, p: Progress)
    requires At(s, task, tasks, p) && !p.Suspended?
    ensures s.tasks == tasks && s.core == Finish(p).core
  {
  }

  function OrderIds(calls: seq<Call>): set<Id> {
    if calls == [] then {}
    else
      var last := calls[|calls| - 1];
      OrderIds(calls[..|calls| - 1]) + if last.CreateOrder? then {last.orderId} else {}
  }

  /** No two creations draw the same order id. */
  predicate DrawsDistinct(calls: seq<Call>) {
    calls == [] ||
    var front, last := calls[..|calls| - 1], calls[|calls| - 1];
    DrawsDistinct(front) && (last.CreateOrder? ==> last.orderId !in OrderIds(front) && last.orderId != EMPTY)
  }

  function Sequentially(calls: seq<Call>): seq<Step> {
    if calls == [] then [] else Sequentially(calls[..|calls| - 1]) + CallSteps(0, calls[|calls| - 1])
  }

  /** A run of calls one at a time is one of the interleavings. */
  lemma {:induction false} RunIsInterleaving(config: Config, calls: seq<Call>)
    requires DrawsDistinct(calls)
    ensures var s := Execute(config, Sequentially(calls));
            s.core == Run(INITIAL, calls) && s.tasks == map[] && s.drawn == OrderIds(calls) + {EMPTY}
  {
    if calls != [] {
      hide Execute, Handle, CallSteps;
      RunIsInterleaving(config, calls[..|calls| - 1]);
      CallIsHandled(config, Sequentially(calls[..|calls| - 1]), 0, calls[|calls| - 1]);
    }
  }
}
