/** The client index and the idempotency map when creations of one client id overlap
    (polytrader/oms/core.py, polytrader/oms/store.py). */
module ClientIndex {
  import opened Prelude
  import opened OrderModel
  import opened OrderStore
  import opened OmsCore
  import opened OmsRuns
  import opened Router
  import opened Interleaving
  import opened Races

  /** Every key recorded for idempotency leads the client index to the same order. */
  ghost predicate Agrees(c: Core) {
    forall k :: k in c.idem ==> k in c.store.byClient && c.store.byClient[k] == c.idem[k]
  }

  /** A creation is about to be recorded under a key that a later creation has taken over in the
      client index. */
  predicate Overtaken(s: Sys, step: Step) {
    && step.Wake? && step.task in s.tasks && s.tasks[step.task].CreatedPublished?
    && var o := s.tasks[step.task].order;
    && o.clientId !in s.core.idem
    && (o.clientId in s.core.store.byClient ==> s.core.store.byClient[o.clientId] != o.orderId)
  }

  // ---- What one segment does to the indexes ----------------------------------------------

  ghost predicate KeepsClients(s: Store, t: Store) {
    forall id :: id in s.orders ==> id in t.orders && t.orders[id].clientId == s.orders[id].clientId
  }

  /** A suspended creation has its order in the store, under its own client id. */
  ghost predicate OwnsOrder(s: Store, f: Frame) {
    f.CreatedPublished? || f.CommandPublished? ==>
      f.order.orderId in s.orders && s.orders[f.order.orderId].clientId == f.order.clientId && f.order.orderId != EMPTY
  }

  ghost predicate Recorded(c: Core) {
    forall k :: k in c.idem ==> c.idem[k] != EMPTY && c.idem[k] in c.store.orders
  }

  lemma UpdateKeepsClients(s: Store, o: Order)
    requires s.WF() && s.Update(o).Some? && o.clientId == s.orders[o.orderId].clientId
    ensures KeepsClients(s, s.Update(o).value) && s.Update(o).value.byClient == s.byClient
    ensures s.Update(o).value.orders.Keys == s.orders.Keys
  {
  }

  lemma ApplyKeepsClients(s: Store, e: Event)
    requires s.WF() && s.Apply(e).Some? && (e.CreatedEvent? ==> e.orderId in s.orders)
    ensures KeepsClients(s, s.Apply(e).value) && s.Apply(e).value.byClient == s.byClient
  {
    hide OrderAfter;
    if e.IsOrderEvent() && !e.CreatedEvent? && e.orderId in s.orders {
      OrderAfterKeeps(s.orders[e.orderId], e);
    }
  }

  lemma AckStartClients(c: Core, d: Call)
    requires c.store.WF() && d.VenueAck?
    ensures var t := StartAck(c, d.clientId, d.venueId, d.stamp).core.store;
            KeepsClients(c.store, t) && t.byClient == c.store.byClient
  {
    var o := c.store.GetByClient(d.clientId);
    if o.Some? && Transition(o.value, Acked, None).Some? {
      var acked := Transition(o.value, Acked, None).value.(venueId := Some(d.venueId));
      if c.store.Update(acked).Some? {
        UpdateKeepsClients(c.store, acked);
      }
    }
  }

  /** Only a creation that begins touches the client index: it files its order under its key. */
  lemma StartClients(c: Core, call: Call)
    requires c.store.WF() && (call.CreateOrder? ==> call.orderId !in c.store.orders)
    ensures var p := Start(c, call);
            && KeepsClients(c.store, p.core.store) && p.core.idem == c.idem
            && (call.CreateOrder? && p.Suspended? ==>
                  && p.core.store.byClient == c.store.byClient[call.clientId := call.orderId]
                  && call.orderId in p.core.store.orders && p.core.store.orders[call.orderId].clientId == call.clientId)
            && (!(call.CreateOrder? && p.Suspended?) ==> p.core.store.byClient == c.store.byClient)
  {
    StartRegistered(c, call);
    if !call.CreateOrder? {
      hide Start, StartAck;
      StartDirect(c, call);
      var d := Direct(c, call);
      if d.Some? {
        if d.value.VenueAck? {
          AckStartClients(c, d.value);
          AckStarts(c, d.value);
        } else {
          StartKeepsStore(c, d.value);
        }
      }
    }
  }

  lemma AckStarts(c: Core, d: Call)
    requires c.store.WF() && d.VenueAck?
    ensures Start(c, d) == StartAck(c, d.clientId, d.venueId, d.stamp)
  {
  }

  lemma StartFrame(c: Core, call: Call)
    requires c.store.WF()
    ensures var p := Start(c, call);
            p.Suspended? && (p.frame.CreatedPublished? || p.frame.CommandPublished?) ==>
              call.CreateOrder? && p.frame.order.orderId == call.orderId && p.frame.order.clientId == call.clientId
    ensures call.CreateOrder? && Start(c, call).Suspended? && Recorded(c) ==> call.clientId !in c.idem
  {
  }

  /** Resuming a handler leaves the client index alone; it records at most its own key. */
  lemma ResumeClients(c: Core, f: Frame)
    requires c.store.WF() && f.WellFormed() && OwnsOrder(c.store, f)
    ensures var p := Resume(c, f);
            && KeepsClients(c.store, p.core.store) && p.core.store.byClient == c.store.byClient
            && (p.Suspended? ==> OwnsOrder(p.core.store, p.frame))
  {
    hide KeepsClients, Store.Update, Store.Apply;
    ClientsKept(c.store, c.store, c.store);
    match f {
      case CreatedPublished(e, order, _) =>
        var t := c.store.ApplyCreated(e);
        var pending := order.(state := PendingSubmit);
        CreatedOnceMore(c.store, e);
        if t.Update(pending).Some? {
          UpdateKeepsClients(t, pending);
          ClientsKept(c.store, t, t.Update(pending).value);
          OwnAfter(t, t.Update(pending).value, f.order);
        }
      case CommandPublished(order, _) =>
        if c.store.Update(order.(state := Submitted)).Some? {
          UpdateKeepsClients(c.store, order.(state := Submitted));
        }
      case EventPublished(e) =>
        if c.store.Apply(e).Some? {
          ApplyKeepsClients(c.store, e);
        }
      case _ =>
    }
  }

  lemma ClientsKept(s: Store, t: Store, u: Store)
    ensures KeepsClients(s, s)
    ensures KeepsClients(s, t) && KeepsClients(t, u) ==> KeepsClients(s, u)
  {
  }

  lemma OwnAfter(s: Store, t: Store, o: Order)
    requires KeepsClients(s, t) && o.orderId in s.orders && s.orders[o.orderId].clientId == o.clientId
    ensures o.orderId in t.orders && t.orders[o.orderId].clientId == o.clientId
  {
  }

  lemma CreatedOnceMore(s: Store, e: Event)
    requires s.WF() && e.CreatedEvent? && e.orderId in s.orders
    ensures var t := s.ApplyCreated(e); t.orders == s.orders && t.byClient == s.byClient && KeepsClients(s, t)
  {
  }

  // ---- Every interleaving ----------------------------------------------------------------

  /** What the argument carries from step to step. */
  ghost predicate Filed(s: Sys) {
    && FramesWellFormed(s) && IdsDrawn(s) && EMPTY in s.drawn && Recorded(s.core)
    && forall k :: k in s.tasks ==> OwnsOrder(s.core.store, s.tasks[k])
  }

  lemma OwnersKept(s: Sys, t: Store)
    requires Filed(s) && KeepsClients(s.core.store, t)
    ensures forall k :: k in s.tasks ==> OwnsOrder(t, s.tasks[k])
  {
    forall k | k in s.tasks ensures OwnsOrder(t, s.tasks[k]) {
      assert OwnsOrder(s.core.store, s.tasks[k]);
    }
  }

  lemma RecordedKept(c: Core, d: Core)
    requires Recorded(c) && KeepsClients(c.store, d.store)
    requires forall k :: k in d.idem ==>
                           || (k in c.idem && d.idem[k] == c.idem[k])
                           || (d.idem[k] != EMPTY && d.idem[k] in d.store.orders)
    ensures Recorded(d)
  {
  }

  lemma SpawnFiled(s: Sys, task: nat, call: Call)
    requires Filed(s)
    ensures Filed(SpawnStep(s, task, call))
    ensures Agrees(s.core) ==> Agrees(SpawnStep(s, task, call).core)
  {
    hide Start, KeepsClients, Recorded, IdsDrawn, OwnsOrder;
    var t := SpawnStep(s, task, call);
    if !(task in s.tasks || (call.CreateOrder? && call.orderId in s.drawn)) {
      NotYetDrawn(s, call);
      SpawnKeepsDrawn(s, task, call);
      StartClients(s.core, call);
      StartFrame(s.core, call);
      OwnersKept(s, t.core.store);
      RecordedKept(s.core, t.core);
      StartOwns(s.core, call);
    }
  }

  lemma StartOwns(c: Core, call: Call)
    requires c.store.WF() && (call.CreateOrder? ==> call.orderId !in c.store.orders && call.orderId != EMPTY)
    ensures Start(c, call).Suspended? ==> OwnsOrder(Start(c, call).core.store, Start(c, call).frame)
  {
    hide Start;
    StartClients(c, call);
    StartFrame(c, call);
  }

  lemma NotYetDrawn(s: Sys, call: Call)
    requires Filed(s) && (call.CreateOrder? ==> call.orderId !in s.drawn)
    ensures call.CreateOrder? ==> call.orderId !in s.core.store.orders && call.orderId != EMPTY
  {
  }

  lemma SpawnKeepsDrawn(s: Sys, task: nat, call: Call)
    requires Filed(s)
    ensures IdsDrawn(SpawnStep(s, task, call)) && FramesWellFormed(SpawnStep(s, task, call))
    ensures s.drawn <= SpawnStep(s, task, call).drawn
  {
    var config := Config(true, {});
    NextAdvances(s, config, Spawn(task, call));
    NextWellFormed(s, config, Spawn(task, call));
  }

  lemma WakeFiled(s: Sys, task: nat)
    requires Filed(s)
    ensures Filed(WakeStep(s, task))
    ensures Agrees(s.core) ==> (Agrees(WakeStep(s, task).core) <==> !Overtaken(s, Wake(task)))
  {
    hide Resume, KeepsClients, Recorded, IdsDrawn, OwnsOrder;
    if task in s.tasks {
      var f := s.tasks[task];
      var p := Resume(s.core, f);
      WakeKeepsDrawn(s, task);
      ResumeClients(s.core, f);
      ResumeRegistered(s.core, f);
      OwnersKept(s, p.core.store);
      RecordsOwn(s.core, f);
    }
  }

  lemma RecordsOwn(c: Core, f: Frame)
    requires c.store.WF() && f.WellFormed() && OwnsOrder(c.store, f) && Recorded(c)
    ensures Recorded(Resume(c, f).core)
    ensures f.CreatedPublished? && f.order.clientId !in c.idem ==>
              Resume(c, f).core.idem == c.idem[f.order.clientId := f.order.orderId]
    ensures !(f.CreatedPublished? && f.order.clientId !in c.idem) ==> Resume(c, f).core.idem == c.idem
  {
    ResumeRegistered(c, f);
    ResumeClients(c, f);
  }

  lemma WakeKeepsDrawn(s: Sys, task: nat)
    requires Filed(s)
    ensures IdsDrawn(WakeStep(s, task)) && FramesWellFormed(WakeStep(s, task)) && s.drawn == WakeStep(s, task).drawn
  {
    var config := Config(true, {});
    NextAdvances(s, config, Wake(task));
    NextWellFormed(s, config, Wake(task));
  }

  /** From agreement, a step keeps it if and only if it does not record an overtaken creation. */
  lemma NextAgreesIff(s: Sys, config: Config, step: Step)
    requires Filed(s)
    ensures Filed(Next(s, config, step))
    ensures Agrees(s.core) ==> (Agrees(Next(s, config, step).core) <==> !Overtaken(s, step))
  {
    match step {
      case Spawn(task, call) =>
        hide Filed, Agrees, SpawnStep, Start;
          SpawnFiled(s, task, call);
      case Wake(task) =>
        hide Filed, Agrees, WakeStep, Resume;
          WakeFiled(s, task);
      case Control(_) =>
      case _ =>
        hide RouterStep, Filed;
          RouterKeepsFiled(s, config, step);
    }
  }

  lemma RouterLeaves(s: Sys, config: Config, step: Step)
    ensures var t := RouterStep(s, config, step);
            t.core.store == s.core.store && t.core.idem == s.core.idem && t.tasks == s.tasks && t.drawn == s.drawn
  {
    hide Admit, Conclude, PublishError;
  }

  lemma RouterKeepsFiled(s: Sys, config: Config, step: Step)
    requires Filed(s)
    ensures var t := RouterStep(s, config, step);
            Filed(t) && t.core.store == s.core.store && t.core.idem == s.core.idem
  {
    hide RouterStep, OwnsOrder;
    RouterLeaves(s, config, step);
  }

  lemma {:induction false} ExecuteFiled(config: Config, steps: seq<Step>)
    ensures Filed(Execute(config, steps))
  {
    if steps != [] {
      hide Filed, Next;
      ExecuteFiled(config, steps[..|steps| - 1]);
      NextAgreesIff(Execute(config, steps[..|steps| - 1]), config, steps[|steps| - 1]);
    }
  }

  /** The idempotency map agrees with the client index after the first `n` steps. */
  ghost predicate AgreesAfter(config: Config, steps: seq<Step>, n: int)
    requires 0 <= n <= |steps|
  {
    Agrees(Execute(config, steps[..n]).core)
  }

  predicate NotOvertaken(config: Config, steps: seq<Step>, n: int)
    requires 0 <= n < |steps|
  {
    !Overtaken(Execute(config, steps[..n]), steps[n])
  }

  lemma AgreesStep(config: Config, steps: seq<Step>, n: nat)
    requires n < |steps| && AgreesAfter(config, steps, n)
    ensures AgreesAfter(config, steps, n + 1) <==> NotOvertaken(config, steps, n)
  {
    hide Execute, Next, Agrees, Overtaken, Filed;
    ExecuteNext(config, steps, n);
    ExecuteFiled(config, steps[..n]);
    NextAgreesIff(Execute(config, steps[..n]), config, steps[n]);
  }

  lemma {:induction false} AgreesWhileNotOvertaken(config: Config, steps: seq<Step>, n: nat)
    requires n <= |steps| && forall i :: 0 <= i < n ==> NotOvertaken(config, steps, i)
    ensures AgreesAfter(config, steps, n)
  {
    if n == 0 {
      assert steps[..0] == [];
    } else {
      hide AgreesAfter, NotOvertaken;
      AgreesWhileNotOvertaken(config, steps, n - 1);
      AgreesStep(config, steps, n - 1);
      assert NotOvertaken(config, steps, n - 1);
    }
  }

  /** In every interleaving the idempotency map agrees with the client index at every moment if and
      only if no creation is recorded after another one of its key has begun. */
  lemma AgreementIff(config: Config, steps: seq<Step>)
    ensures (forall n :: 0 <= n <= |steps| ==> AgreesAfter(config, steps, n))
       <==> (forall n :: 0 <= n < |steps| ==> NotOvertaken(config, steps, n))
  {
    hide AgreesAfter, NotOvertaken;
    if forall n :: 0 <= n <= |steps| ==> AgreesAfter(config, steps, n) {
      forall n | 0 <= n < |steps| ensures NotOvertaken(config, steps, n) {
        assert AgreesAfter(config, steps, n) && AgreesAfter(config, steps, n + 1);
        AgreesStep(config, steps, n);
      }
    }
    if forall n :: 0 <= n < |steps| ==> NotOvertaken(config, steps, n) {
      forall n | 0 <= n <= |steps| ensures AgreesAfter(config, steps, n) {
        AgreesWhileNotOvertaken(config, steps, n);
      }
    }
  }

  lemma BothStarted(config: Config, d: Call, e: Call)
    requires d.CreateOrder? && e.CreateOrder? && d.clientId == e.clientId
    requires d.orderId != EMPTY && e.orderId != EMPTY && d.orderId != e.orderId
    ensures var s := Execute(config, [Spawn(0, d), Spawn(1, e)]);
            && s.core.idem == map[] && s.core.store.byClient == map[e.clientId := e.orderId]
            && s.core.store.orders ==
               map[d.orderId := NewOrder(d.orderId, d.clientId, d.intent),
                   e.orderId := NewOrder(e.orderId, e.clientId, e.intent)]
            && s.tasks ==
               map[0 := CreatedPublished(CreatedBy(d), NewOrder(d.orderId, d.clientId, d.intent), d.submitted),
                   1 := CreatedPublished(CreatedBy(e), NewOrder(e.orderId, e.clientId, e.intent), e.submitted)]
  {
    hide Execute;
    ExecuteSnoc(config, [], Spawn(0, d));
    ExecuteSnoc(config, [Spawn(0, d)], Spawn(1, e));
    assert [] + [Spawn(0, d)] == [Spawn(0, d)] && [Spawn(0, d)] + [Spawn(1, e)] == [Spawn(0, d), Spawn(1, e)];
    NothingExecuted(config);
  }

  lemma NothingExecuted(config: Config)
    ensures Execute(config, []) == Interleaving.START
  {
  }

  /** It does happen: two creations of one key overlap. The first is recorded and goes on to be
      submitted, yet a lookup by their client id finds the second, which raises when it resumes. */
  lemma OvertakenReached(config: Config, d: Call, e: Call)
    requires d.CreateOrder? && e.CreateOrder? && d.clientId == e.clientId
    requires d.orderId != EMPTY && e.orderId != EMPTY && d.orderId != e.orderId
    ensures Overtaken(Execute(config, [Spawn(0, d), Spawn(1, e)]), Wake(0))
    ensures var s := Execute(config, [Spawn(0, d), Spawn(1, e), Wake(0)]);
            && d.clientId in s.core.idem && s.core.idem[d.clientId] == d.orderId
            && 0 in s.tasks && s.tasks[0].CommandPublished?
            && s.core.store.GetByClient(d.clientId) == Some(NewOrder(e.orderId, e.clientId, e.intent))
            && 1 in s.tasks && Resume(s.core, s.tasks[1]).Raised?
  {
    hide Execute;
    BothStarted(config, d, e);
    ExecuteSnoc(config, [Spawn(0, d), Spawn(1, e)], Wake(0));
    assert [Spawn(0, d), Spawn(1, e)] + [Wake(0)] == [Spawn(0, d), Spawn(1, e), Wake(0)];
  }
}
