/** The OMS, the bus, the router and the execution switch running concurrently: handlers may be
    suspended at every await and resumed in any order (polytrader/oms/core.py,
    polytrader/execution/router.py, polytrader/ops/control.py). */
module Interleaving {
  import opened Prelude
  import opened OrderModel
  import opened EventLog
  import opened OrderStore
  import opened OmsCore
  import opened OmsRuns
  import opened Ops
  import opened Router

  datatype RouterStage =
    | Idle
    | Announced(command: SubmitOrderCommand)
    | AtVenue(command: SubmitOrderCommand)
    | Concluding

  /** `tasks` are the suspended handlers. The last four fields are history: every submit command
      published, taken from the queue, let through the gates, and sent to the venue. */
  datatype Sys = Sys(
    core: Core,
    tasks: map<nat, Frame>,
    drawn: set<Id>,
    control: Control,
    listening: bool,
    stage: RouterStage,
    published: seq<SubmitOrderCommand>,
    taken: seq<SubmitOrderCommand>,
    admitted: seq<SubmitOrderCommand>,
    sent: seq<SubmitOrderCommand>)

  datatype Step =
    | Spawn(task: nat, call: Call)
    | Wake(task: nat)
    | Control(action: ControlAction)
    | Listen
    | Take(stamp: Stamp)
    | Tactics(throttled: bool, stamp: Stamp)
    | Answer(outcome: VenueOutcome, stamps: Stamps)
    | Concluded

  const START := Sys(INITIAL, map[], {EMPTY}, SAFE, false, Idle, [], [], [], [])

  /** The queue from which the router takes submit commands. */
  function SubmitQueue(b: Bus): seq<Message> {
    var qs := b.Queues(SubmitCommandsTopic);
    if qs == [] then [] else qs[0]
  }

  function Park(s: Sys, task: nat, p: Progress): Sys {
    s.(core := p.core, tasks := if p.Suspended? then s.tasks[task := p.frame] else s.tasks - {task})
  }

  function RequestOf(f: Frame): SubmitOrderCommand
    requires f.CreatedPublished?
  {
    SubmitOrderCommand(f.order.orderId, f.order.clientId, f.order.intent)
  }

  function SpawnStep(s: Sys, task: nat, call: Call): Sys
    requires s.core.store.WF()
  {
    if task in s.tasks || (call.CreateOrder? && call.orderId in s.drawn) then s
    else
      var started := Park(s, task, Start(s.core, call));
      if call.CreateOrder? then started.(drawn := s.drawn + {call.orderId}) else started
  }

  function WakeStep(s: Sys, task: nat): Sys
    requires s.core.store.WF() && (task in s.tasks ==> s.tasks[task].WellFormed())
  {
    if task !in s.tasks then s
    else
      var f := s.tasks[task];
      var p := Resume(s.core, f);
      Park(s, task, p).(published := s.published + if f.CreatedPublished? && p.Suspended? then [RequestOf(f)] else [])
  }

  /** One step of the router's submit loop; a step that is not its turn changes nothing. */
  function RouterStep(s: Sys, config: Config, step: Step): Sys {
    match step
    case Listen =>
      if s.listening then s
      else s.(listening := true, core := s.core.(bus := s.core.bus.Subscribe(SubmitCommandsTopic)))
    case Take(stamp) =>
      var q := SubmitQueue(s.core.bus);
      if !s.listening || !s.stage.Idle? || q == [] || !q[0].SubmitMessage? then s
      else
        var command := q[0].submit;
        var rest := s.core.bus.Queues(SubmitCommandsTopic)[0 := q[1..]];
        var b := s.core.bus.(queues := s.core.bus.queues[SubmitCommandsTopic := rest]);
        var (announced, open) := Admit(b, s.control.IsEnabled(), config, command, stamp);
        s.(
        core := s.core.(bus := announced),
        taken := s.taken + [command],
        admitted := s.admitted + if open then [command] else [],
        stage := if open then Announced(command) else Concluding)
    case Tactics(throttled, stamp) =>
      if !s.stage.Announced? then s
      else if throttled then s.(core := s.core.(bus := PublishError(s.core.bus, stamp)), stage := Concluding)
      else s.(sent := s.sent + [s.stage.command], stage := AtVenue(s.stage.command))
    case Answer(outcome, stamps) =>
      if !s.stage.AtVenue? then s
      else s.(core := s.core.(bus := Conclude(s.core.bus, s.stage.command, outcome, stamps)), stage := Concluding)
    case Concluded => if s.stage.Concluding? then s.(stage := Idle) else s
    case _ => s
  }

  function Next(s: Sys, config: Config, step: Step): Sys
    requires FramesWellFormed(s)
  {
    match step
    case Spawn(task, call) => SpawnStep(s, task, call)
    case Wake(task) => WakeStep(s, task)
    case Control(action) => s.(control := Switch(s.control, action))
    case _ => RouterStep(s, config, step)
  }

  ghost predicate FramesWellFormed(s: Sys) {
    s.core.store.WF() && forall k :: k in s.tasks ==> s.tasks[k].WellFormed()
  }

  lemma NextWellFormed(s: Sys, config: Config, step: Step)
    requires FramesWellFormed(s)
    ensures FramesWellFormed(Next(s, config, step))
  {
  }

  function Execute(config: Config, steps: seq<Step>): (s: Sys)
    ensures FramesWellFormed(s)
  {
    if steps == [] then START
    else
      var before := Execute(config, steps[..|steps| - 1]);
      NextWellFormed(before, config, steps[|steps| - 1]);
      Next(before, config, steps[|steps| - 1])
  }

  // ---- Safety of the order state machine ---------------------------------------------

  /** No order disappears and every order's state moves along the graph. */
  ghost predicate Advances(s: Store, t: Store) {
    forall id :: id in s.orders ==> id in t.orders && Reaches(s.orders[id].state, t.orders[id].state)
  }

  lemma AdvancesRefl(s: Store)
    ensures Advances(s, s)
  {
    forall id | id in s.orders ensures Reaches(s.orders[id].state, s.orders[id].state) {
      ReachesRefl(s.orders[id].state);
    }
  }

  lemma AdvancesTrans(s: Store, t: Store, u: Store)
    requires Advances(s, t) && Advances(t, u)
    ensures Advances(s, u)
  {
    forall id | id in s.orders ensures id in u.orders && Reaches(s.orders[id].state, u.orders[id].state) {
      ReachesTrans(s.orders[id].state, t.orders[id].state, u.orders[id].state);
    }
  }

  /** Replacing one order by one whose state is reachable is an advance. */
  lemma AdvancesAt(s: Store, t: Store, o: Order)
    requires t.orders == s.orders[o.orderId := o]
    requires o.orderId in s.orders ==> Reaches(s.orders[o.orderId].state, o.state)
    ensures Advances(s, t)
  {
    AdvancesRefl(s);
  }

  /** update_order only installs what the graph allows, however old the caller's copy is. */
  lemma UpdateAdvances(s: Store, o: Order)
    requires s.WF() && s.Update(o).Some?
    ensures Advances(s, s.Update(o).value)
  {
    if s.orders[o.orderId].state == o.state {
      ReachesRefl(o.state);
    } else {
      ReachesEdge(s.orders[o.orderId].state, o.state);
    }
    AdvancesAt(s, s.Update(o).value, o);
  }

  lemma ApplyAdvances(s: Store, e: Event)
    requires s.WF() && s.Apply(e).Some?
    ensures Advances(s, s.Apply(e).value)
  {
    AdvancesRefl(s);
    if e.CreatedEvent? {
      if e.orderId !in s.orders {
        AdvancesAt(s, s.ApplyCreated(e), NewOrder(e.orderId, e.clientId, e.intent));
      }
    } else if e.IsOrderEvent() && e.orderId in s.orders {
      OrderAfterReaches(s.orders[e.orderId], e);
      AdvancesAt(s, s.Apply(e).value, OrderAfter(s.orders[e.orderId], e).value);
    }
  }

  lemma StartKeepsStore(c: Core, d: Call)
    requires c.store.WF() && (d.VenueReject? || d.VenueFill? || d.Cancel?)
    ensures Start(c, d).core.store == c.store
  {
  }

  lemma StartDirect(c: Core, call: Call)
    requires c.store.WF()
    ensures if Direct(c, call).None? then Start(c, call) == Returned(c)
            else Start(c, call) == Start(c, Direct(c, call).value)
    ensures Direct(c, call).Some? && !call.CreateOrder? ==>
              var d := Direct(c, call).value; d.VenueAck? || d.VenueReject? || d.VenueFill? || d.Cancel?
  {
  }

  lemma StartAdvances(c: Core, call: Call)
    requires c.store.WF() && (call.CreateOrder? ==> call.orderId !in c.store.orders)
    ensures Advances(c.store, Start(c, call).core.store)
  {
    AdvancesRefl(c.store);
    if call.CreateOrder? {
      AdvancesAt(c.store, c.store.Insert(call.intent, call.clientId, call.orderId),
                 NewOrder(call.orderId, call.clientId, call.intent));
    } else {
      StartDirect(c, call);
      var d := Direct(c, call);
      if d.Some? {
        if d.value.VenueAck? {
          AckStartAdvances(c, d.value);
        } else {
          StartKeepsStore(c, d.value);
        }
      }
    }
  }

  lemma AckStartAdvances(c: Core, d: Call)
    requires c.store.WF() && d.VenueAck?
    ensures Advances(c.store, StartAck(c, d.clientId, d.venueId, d.stamp).core.store)
  {
    AdvancesRefl(c.store);
    var o := c.store.GetByClient(d.clientId);
    if o.Some? {
      var acked := Transition(o.value, Acked, None);
      if acked.Some? {
        UpdateAdvances(c.store, acked.value.(venueId := Some(d.venueId)));
      }
    }
  }

  lemma ResumeAdvances(c: Core, f: Frame)
    requires c.store.WF() && f.WellFormed()
    ensures Advances(c.store, Resume(c, f).core.store)
  {
    hide Advances;
    AdvancesRefl(c.store);
    match f {
      case CreatedPublished(e, order, _) =>
        ApplyAdvances(c.store, e);
        var t := c.store.ApplyCreated(e);
        var pending := order.(state := PendingSubmit);
        if t.Update(pending).Some? {
          UpdateAdvances(t, pending);
          AdvancesTrans(c.store, t, t.Update(pending).value);
        }
      case CommandPublished(order, _) =>
        if c.store.Update(order.(state := Submitted)).Some? {
          UpdateAdvances(c.store, order.(state := Submitted));
        }
      case EventPublished(e) =>
        if c.store.Apply(e).Some? {
          ApplyAdvances(c.store, e);
        }
      case _ =>
    }
  }

  /** Order ids in the store and in suspended creations have been drawn. */
  ghost predicate IdsDrawn(s: Sys) {
    && s.core.store.orders.Keys <= s.drawn
    && (forall k :: k in s.tasks && s.tasks[k].CreatedPublished? ==> s.tasks[k].order.orderId in s.drawn)
  }

  lemma StartKeys(c: Core, call: Call)
    requires c.store.WF()
    ensures Start(c, call).core.store.orders.Keys <= c.store.orders.Keys +
                                                     (if call.CreateOrder? then {call.orderId} else {})
    ensures Start(c, call).Suspended? && Start(c, call).frame.CreatedPublished? ==>
              call.CreateOrder? && Start(c, call).frame.order.orderId == call.orderId
  {
  }

  lemma ResumeKeys(c: Core, f: Frame)
    requires c.store.WF() && f.WellFormed()
    ensures Resume(c, f).core.store.orders.Keys <= c.store.orders.Keys +
                                                   (if f.CreatedPublished? then {f.order.orderId} else {})
    ensures Resume(c, f).Suspended? ==> !Resume(c, f).frame.CreatedPublished?
  {
  }

  lemma NextAdvances(s: Sys, config: Config, step: Step)
    requires FramesWellFormed(s) && IdsDrawn(s)
    ensures IdsDrawn(Next(s, config, step))
    ensures Advances(s.core.store, Next(s, config, step).core.store)
  {
    hide Start, Resume, Advances;
    AdvancesRefl(s.core.store);
    match step {
      case Spawn(task, call) =>
        if !(task in s.tasks || (call.CreateOrder? && call.orderId in s.drawn)) {
          StartKeys(s.core, call);
          StartAdvances(s.core, call);
        }
      case Wake(task) =>
        if task in s.tasks {
          ResumeKeys(s.core, s.tasks[task]);
          ResumeAdvances(s.core, s.tasks[task]);
        }
      case _ =>
    }
  }

  lemma {:induction false} ExecuteIdsDrawn(config: Config, steps: seq<Step>)
    ensures IdsDrawn(Execute(config, steps))
  {
    if steps != [] {
      ExecuteIdsDrawn(config, steps[..|steps| - 1]);
      NextAdvances(Execute(config, steps[..|steps| - 1]), config, steps[|steps| - 1]);
    }
  }

  /** In every interleaving, between any two moments every order's stored state has moved along
      a path of the transition graph; in particular it never leaves a terminal state. */
  lemma {:induction false} StatesFollowGraph(config: Config, steps: seq<Step>, i: nat, id: Id)
    requires i <= |steps|
    ensures var early := Execute(config, steps[..i]).core.store.orders;
            var late := Execute(config, steps).core.store.orders;
            id in early ==>
              && id in late
              && Reaches(early[id].state, late[id].state)
              && (IsTerminal(early[id].state) ==> late[id].state == early[id].state)
    decreases |steps|
  {
    hide Next;
    if i == |steps| {
      assert steps[..i] == steps;
      AdvancesRefl(Execute(config, steps).core.store);
    } else {
      var front := steps[..|steps| - 1];
      assert front[..i] == steps[..i];
      StatesFollowGraph(config, front, i, id);
      ExecuteIdsDrawn(config, front);
      NextAdvances(Execute(config, front), config, steps[|steps| - 1]);
      var early := Execute(config, steps[..i]).core.store;
      var middle := Execute(config, front).core.store;
      var late := Execute(config, steps).core.store;
      if id in early.orders {
        ReachesTrans(early.orders[id].state, middle.orders[id].state, late.orders[id].state);
        ReachesRanks(early.orders[id].state, late.orders[id].state);
      }
    }
  }

  /** How often the stored state of an order has changed. */
  function StateChanges(config: Config, steps: seq<Step>, id: Id): nat {
    if steps == [] then 0
    else
      var front := steps[..|steps| - 1];
      var s, t := Execute(config, front).core.store.orders, Execute(config, steps).core.store.orders;
      StateChanges(config, front, id) +
      if id in s && id in t && s[id].state != t[id].state then 1 else 0
  }

  /** In every interleaving an order changes state at most five times. */
  lemma {:induction false} AtMostFiveChanges(config: Config, steps: seq<Step>, id: Id)
    ensures StateChanges(config, steps, id) <= 5
    ensures var t := Execute(config, steps).core.store.orders;
            if id in t then StateChanges(config, steps, id) <= Rank(t[id].state)
            else StateChanges(config, steps, id) == 0
  {
    hide Next;
    if steps != [] {
      var front := steps[..|steps| - 1];
      AtMostFiveChanges(config, front, id);
      ExecuteIdsDrawn(config, front);
      NextAdvances(Execute(config, front), config, steps[|steps| - 1]);
      var s, t := Execute(config, front).core.store.orders, Execute(config, steps).core.store.orders;
      if id in s {
        ReachesRanks(s[id].state, t[id].state);
      }
    }
  }

  // ---- Once-only, gated submission ---------------------------------------------------

  ghost predicate DistinctKeys(cs: seq<SubmitOrderCommand>) {
    forall i, j :: 0 <= i < j < |cs| ==> cs[i].orderId != cs[j].orderId && cs[i].clientId != cs[j].clientId
  }

  function Waiting(s: Sys): seq<SubmitOrderCommand> {
    Commands(SubmitQueue(s.core.bus))
  }

  function Commands(q: seq<Message>): seq<SubmitOrderCommand> {
    if q == [] then []
    else Commands(q[..|q| - 1]) + if q[|q| - 1].SubmitMessage? then [q[|q| - 1].submit] else []
  }

  /** The command on its way from the gate to the adapter. */
  function Underway(s: Sys): seq<SubmitOrderCommand> {
    if s.stage.Announced? then [s.stage.command] else []
  }

  /** Every published command is the one registered for its client id, and its creation is no
      longer suspended before the publication. */
  ghost predicate Registered(s: Sys) {
    && (forall i :: 0 <= i < |s.published| ==>
                      && s.published[i].clientId in s.core.idem
                      && s.core.idem[s.published[i].clientId] == s.published[i].orderId
                      && s.published[i].orderId in s.drawn)
    && (forall k, i :: k in s.tasks && s.tasks[k].CreatedPublished? && 0 <= i < |s.published| ==>
                         s.tasks[k].order.orderId != s.published[i].orderId)
    && (forall k, l :: k in s.tasks && l in s.tasks && k != l && s.tasks[k].CreatedPublished?
                       && s.tasks[l].CreatedPublished? ==>
                         s.tasks[k].order.orderId != s.tasks[l].order.orderId)
  }

  /** Commands only move forward: published, queued and taken, admitted, sent. */
  ghost predicate Flows(s: Sys) {
    && (s.listening <==> s.core.bus.Queues(SubmitCommandsTopic) != [])
    && |s.core.bus.Queues(SubmitCommandsTopic)| <= 1
    && Subsequence(s.taken + Waiting(s), s.published)
    && Subsequence(s.admitted, s.taken)
    && Subsequence(s.sent + Underway(s), s.admitted)
  }

  lemma StartRegistered(c: Core, call: Call)
    requires c.store.WF()
    ensures Start(c, call).core.idem == c.idem
  {
  }

  lemma ResumeRegistered(c: Core, f: Frame)
    requires c.store.WF() && f.WellFormed()
    ensures var p := Resume(c, f);
            if !f.CreatedPublished? then p.core.idem == c.idem
            else if p.core.idem == c.idem then
              p.Suspended? ==> f.order.clientId in c.idem && c.idem[f.order.clientId] == f.order.orderId
            else f.order.clientId !in c.idem && p.core.idem == c.idem[f.order.clientId := f.order.orderId]
  {
    if f.CreatedPublished? && f.order.clientId in c.idem && c.idem[f.order.clientId] == f.order.orderId {
      assert c.idem[f.order.clientId := f.order.orderId] == c.idem;
    }
  }

  lemma SpawnKeepsRegistered(s: Sys, task: nat, call: Call)
    requires FramesWellFormed(s) && IdsDrawn(s) && Registered(s) && DistinctKeys(s.published)
    ensures Registered(SpawnStep(s, task, call)) && SpawnStep(s, task, call).published == s.published
  {
    hide Start;
    if !(task in s.tasks || (call.CreateOrder? && call.orderId in s.drawn)) {
      StartKeys(s.core, call);
      StartRegistered(s.core, call);
    }
  }

  lemma WakeKeepsRegistered(s: Sys, task: nat)
    requires FramesWellFormed(s) && IdsDrawn(s) && Registered(s) && DistinctKeys(s.published)
    ensures Registered(WakeStep(s, task)) && DistinctKeys(WakeStep(s, task).published)
  {
    hide Resume;
    if task in s.tasks {
      var f := s.tasks[task];
      var t := WakeStep(s, task);
      ResumeKeys(s.core, f);
      ResumeRegistered(s.core, f);
      if t.published != s.published {
        var r := RequestOf(f);
        assert t.published == s.published + [r];
        forall i | 0 <= i < |s.published|
          ensures s.published[i].orderId != r.orderId && s.published[i].clientId != r.clientId
        {
          assert s.tasks[task].order.orderId != s.published[i].orderId;
        }
      }
    }
  }

  ghost predicate SameQueue(c: Core, p: Progress) {
    p.core.bus.Queues(SubmitCommandsTopic) == c.bus.Queues(SubmitCommandsTopic)
  }

  lemma StartAckQueue(c: Core, clientId: Id, venueId: Id, stamp: Stamp)
    requires c.store.WF()
    ensures SameQueue(c, StartAck(c, clientId, venueId, stamp))
  {
    hide Transition;
  }

  lemma StartFillQueue(c: Core, clientId: Id, size: real, price: real, fee: real, fillId: Id, venueFillId: Option<Id>,
                       stamp: Stamp)
    requires c.store.WF()
    ensures SameQueue(c, StartFill(c, clientId, size, price, fee, fillId, venueFillId, stamp))
  {
  }

  /** Nothing but the creation of an order submits a command, and that only when it resumes. */
  lemma StartQueue(c: Core, call: Call)
    requires c.store.WF()
    ensures SameQueue(c, Start(c, call))
  {
    hide StartAck, StartFill, Locate, Transition;
    match call {
      case VenueAck(clientId, venueId, stamp) =>
        StartAckQueue(c, clientId, venueId, stamp);
      case VenueFill(clientId, size, price, fee, fillId, venueFillId, stamp) =>
        StartFillQueue(c, clientId, size, price, fee, fillId, venueFillId, stamp);
      case CanonicalAck(clientRef, venueId, stamp) =>
        var order := Locate(c.store, clientRef, Some(venueId));
        if order.Some? {
          StartAckQueue(c, order.value.clientId, venueId, stamp);
        }
      case CanonicalFill(clientRef, venueRef, size, price, fee, fillId, venueFillId, stamp) =>
        var order := Locate(c.store, clientRef, venueRef);
        if order.Some? {
          StartFillQueue(c, order.value.clientId, size, price, fee, fillId, venueFillId, stamp);
        }
      case _ =>
    }
  }

  lemma ResumeQueue(c: Core, f: Frame)
    requires c.store.WF() && f.WellFormed()
    ensures Resume(c, f).core.bus.Queues(SubmitCommandsTopic) ==
            if f.CreatedPublished? && Resume(c, f).Suspended?
            then AppendEach(c.bus.Queues(SubmitCommandsTopic), SubmitMessage(RequestOf(f)))
            else c.bus.Queues(SubmitCommandsTopic)
  {
  }

  lemma ConcludeQueue(b: Bus, command: SubmitOrderCommand, outcome: VenueOutcome, stamps: Stamps)
    ensures Conclude(b, command, outcome, stamps).Queues(SubmitCommandsTopic) == b.Queues(SubmitCommandsTopic)
  {
  }

  lemma {:induction false} CommandsHead(q: seq<Message>)
    requires q != [] && q[0].SubmitMessage?
    ensures Commands(q) == [q[0].submit] + Commands(q[1..])
  {
    if |q| > 1 {
      CommandsHead(q[..|q| - 1]);
      assert q[1..][..|q| - 2] == q[..|q| - 1][1..];
    } else {
      assert q[..0] == [] && q[1..] == [];
    }
  }

  lemma CommandsSnoc(q: seq<Message>, r: SubmitOrderCommand)
    ensures Commands(q + [SubmitMessage(r)]) == Commands(q) + [r]
  {
    assert (q + [SubmitMessage(r)])[..|q|] == q;
  }

  lemma AppendToSubmitQueue(b: Bus, b': Bus, r: SubmitOrderCommand)
    requires |b.Queues(SubmitCommandsTopic)| <= 1
    requires b'.Queues(SubmitCommandsTopic) == AppendEach(b.Queues(SubmitCommandsTopic), SubmitMessage(r))
    ensures Commands(SubmitQueue(b')) ==
            Commands(SubmitQueue(b)) + if b.Queues(SubmitCommandsTopic) == [] then [] else [r]
  {
    var qs := b.Queues(SubmitCommandsTopic);
    if qs != [] {
      AppendEachAt(qs, SubmitMessage(r), 0);
      CommandsSnoc(qs[0], r);
    }
  }

  lemma FlowsPublished(s: Sys, t: Sys, r: SubmitOrderCommand)
    requires Flows(s)
    requires t == s.(core := t.core, tasks := t.tasks, published := s.published + [r])
    requires t.core.bus.Queues(SubmitCommandsTopic) ==
             AppendEach(s.core.bus.Queues(SubmitCommandsTopic), SubmitMessage(r))
    ensures Flows(t)
  {
    AppendToSubmitQueue(s.core.bus, t.core.bus, r);
    SubsequenceSnoc(s.taken + Waiting(s), s.published, r);
    assert t.taken + Waiting(t) == s.taken + Waiting(s) || t.taken + Waiting(t) == s.taken + Waiting(s) + [r];
  }

  lemma WakeFlows(s: Sys, task: nat)
    requires FramesWellFormed(s) && Flows(s)
    ensures Flows(WakeStep(s, task))
  {
    if task in s.tasks {
      var f := s.tasks[task];
      var t := WakeStep(s, task);
      ResumeQueue(s.core, f);
      if f.CreatedPublished? && Resume(s.core, f).Suspended? {
        FlowsPublished(s, t, RequestOf(f));
      } else {
        assert t.published == s.published;
      }
    }
  }

  lemma TakeFlows(s: Sys, config: Config, stamp: Stamp)
    requires Flows(s)
    ensures Flows(RouterStep(s, config, Take(stamp)))
  {
    var t := RouterStep(s, config, Take(stamp));
    if t != s {
      var q := SubmitQueue(s.core.bus);
      var command := q[0].submit;
      CommandsHead(q);
      assert t.core.bus.Queues(SubmitCommandsTopic) == [q[1..]];
      assert t.taken + Waiting(t) == s.taken + Waiting(s);
      SubsequenceSnoc(s.admitted, s.taken, command);
      assert s.sent + Underway(s) == s.sent;
      SubsequenceSnoc(s.sent, s.admitted, command);
      assert t.admitted == s.admitted || t.admitted == s.admitted + [command];
      assert t.sent + Underway(t) == if t.stage.Announced? then s.sent + [command] else s.sent;
    }
  }

  lemma RouterFlows(s: Sys, config: Config, step: Step)
    requires Flows(s)
    ensures Flows(RouterStep(s, config, step))
  {
    hide Subsequence;
    match step {
      case Listen =>
        if !s.listening {
          assert SubmitQueue(RouterStep(s, config, step).core.bus) == [];
        }
      case Take(stamp) =>
        TakeFlows(s, config, stamp);
      case Tactics(throttled, _) =>
        if s.stage.Announced? {
          var k := |s.sent|;
          SubsequenceDrop(s.sent + Underway(s), k, s.admitted);
          assert (s.sent + Underway(s))[..k] + (s.sent + Underway(s))[k + 1..] == s.sent;
          assert s.sent + [] == s.sent && s.sent + [s.stage.command] + [] == s.sent + [s.stage.command];
        }
      case Answer(outcome, stamps) =>
        if s.stage.AtVenue? {
          ConcludeQueue(s.core.bus, s.stage.command, outcome, stamps);
        }
      case _ =>
    }
  }

  /** Everything the argument carries from step to step. */
  ghost predicate Sound(s: Sys) {
    FramesWellFormed(s) && IdsDrawn(s) && Registered(s) && DistinctKeys(s.published) && Flows(s)
  }

  lemma RouterKeepsRegistered(s: Sys, config: Config, step: Step)
    requires Registered(s)
    ensures var t := RouterStep(s, config, step);
            Registered(t) && t.published == s.published && t.core.store == s.core.store && t.tasks == s.tasks
            && t.drawn == s.drawn
  {
  }

  lemma NextSound(s: Sys, config: Config, step: Step)
    requires Sound(s)
    ensures Sound(Next(s, config, step))
  {
    assert s.core.store.WF();
    hide Start, Resume, Advances, FramesWellFormed, IdsDrawn, DistinctKeys;
    NextAdvances(s, config, step);
    NextWellFormed(s, config, step);
    match step {
      case Spawn(task, call) =>
        SpawnKeepsRegistered(s, task, call);
        StartQueue(s.core, call);
      case Wake(task) =>
        WakeKeepsRegistered(s, task);
        WakeFlows(s, task);
      case Control(_) =>
      case _ =>
        RouterKeepsRegistered(s, config, step);
        RouterFlows(s, config, step);
    }
  }

  lemma {:induction false} ExecuteSound(config: Config, steps: seq<Step>)
    ensures Sound(Execute(config, steps))
  {
    if steps != [] {
      ExecuteSound(config, steps[..|steps| - 1]);
      NextSound(Execute(config, steps[..|steps| - 1]), config, steps[|steps| - 1]);
    }
  }

  lemma SubsequenceDistinct(xs: seq<SubmitOrderCommand>, ys: seq<SubmitOrderCommand>)
    requires Subsequence(xs, ys) && DistinctKeys(ys)
    ensures DistinctKeys(xs)
    decreases |ys|
  {
    if xs != [] {
      var yf := ys[..|ys| - 1];
      if Subsequence(xs, yf) {
        SubsequenceDistinct(xs, yf);
      } else {
        var xf := xs[..|xs| - 1];
        SubsequenceDistinct(xf, yf);
        forall i | 0 <= i < |xf|
          ensures xs[i].orderId != xs[|xs| - 1].orderId && xs[i].clientId != xs[|xs| - 1].clientId
        {
          assert xf[i] in xf;
          SubsequenceMember(xf, yf, xf[i]);
        }
      }
    }
  }

  /** In every interleaving, creations of one client id running at the same time included, the
      venue is asked at most once per order id and per client id, and only for commands that
      passed the gates, in the order they were published. */
  lemma SubmittedOnce(config: Config, steps: seq<Step>)
    ensures var s := Execute(config, steps);
            DistinctKeys(s.sent) && Subsequence(s.sent, s.admitted) && Subsequence(s.sent, s.published)
  {
    ExecuteSound(config, steps);
    var s := Execute(config, steps);
    SubsequencePrefix(s.sent, Underway(s));
    SubsequenceTrans(s.sent, s.sent + Underway(s), s.admitted);
    SubsequenceTrans(s.sent, s.admitted, s.taken);
    SubsequencePrefix(s.taken, Waiting(s));
    SubsequenceTrans(s.sent, s.taken, s.taken + Waiting(s));
    SubsequenceTrans(s.sent, s.taken + Waiting(s), s.published);
    SubsequenceDistinct(s.sent, s.published);
  }

  /** The router, when idle, takes the oldest command and lets it through exactly when execution is
      enabled, the kill switch is off, and its strategy is active or the mode is paper. */
  lemma TakeAdmitsIff(s: Sys, config: Config, stamp: Stamp, command: SubmitOrderCommand, rest: seq<Message>)
    requires s.listening && s.stage.Idle? && SubmitQueue(s.core.bus) == [SubmitMessage(command)] + rest
    ensures var t := RouterStep(s, config, Take(stamp));
            var open := && s.control.executionEnabled && !s.control.killSwitchActive
                        && (config.paperMode || command.intent.strategyId in config.activeStrategies);
            && t.taken == s.taken + [command] && SubmitQueue(t.core.bus) == rest && t.sent == s.sent
            && t.admitted == s.admitted + (if open then [command] else [])
            && t.stage == (if open then Announced(command) else Concluding)
  {
    assert ([SubmitMessage(command)] + rest)[1..] == rest;
  }

  /** What was let through is sent exactly when the tactics do not hold it back. */
  lemma TacticsSendIff(s: Sys, config: Config, throttled: bool, stamp: Stamp)
    requires s.stage.Announced?
    ensures var t := RouterStep(s, config, Tactics(throttled, stamp));
            && t.sent == s.sent + (if throttled then [] else [s.stage.command])
            && t.stage == (if throttled then Concluding else AtVenue(s.stage.command))
            && t.core.store == s.core.store
  {
  }

  /** No other step sends anything. */
  lemma OthersSendNothing(s: Sys, config: Config, step: Step)
    requires FramesWellFormed(s) && !step.Tactics?
    ensures Next(s, config, step).sent == s.sent
  {
    hide Start, Resume, Conclude, Admit;
  }

  /** One turn of the router: whatever comes of the oldest command, afterwards the router is idle again
      and the next one is the oldest; the command was sent exactly when the gates were open and the
      tactics did not hold it back. */
  lemma RouterTurn(s: Sys, config: Config, command: SubmitOrderCommand, rest: seq<Message>, throttled: bool,
                   outcome: VenueOutcome, stamps: Stamps)
    requires s.listening && s.stage.Idle? && s.core.bus.Queues(SubmitCommandsTopic) == [[SubmitMessage(command)] + rest]
    ensures var t1 := RouterStep(s, config, Take(stamps.first));
            var t2 := RouterStep(t1, config, Tactics(throttled, stamps.error));
            var t3 := RouterStep(t2, config, Answer(outcome, stamps));
            var t := RouterStep(t3, config, Concluded);
            var open := && s.control.executionEnabled && !s.control.killSwitchActive
                        && (config.paperMode || command.intent.strategyId in config.activeStrategies);
            && t.stage.Idle? && t.listening && SubmitQueue(t.core.bus) == rest
            && t.taken == s.taken + [command]
            && t.sent == s.sent + (if open && !throttled then [command] else [])
            && t.core.bus == Routed(s.core.bus.(queues := s.core.bus.queues[SubmitCommandsTopic := [rest]]),
                                    s.control.IsEnabled(), config, command, throttled, outcome, stamps)
  {
    hide Conclude, Bus.Publish;
    TakeAdmitsIff(s, config, stamps.first, command, rest);
    var t1 := RouterStep(s, config, Take(stamps.first));
    assert [[SubmitMessage(command)] + rest][0 := ([SubmitMessage(command)] + rest)[1..]] == [rest];
    if t1.stage.Announced? {
      TacticsSendIff(t1, config, throttled, stamps.error);
      var t2 := RouterStep(t1, config, Tactics(throttled, stamps.error));
      ErrorQueue(t1.core.bus, stamps.error);
      if t2.stage.AtVenue? {
        ConcludeQueue(t2.core.bus, command, outcome, stamps);
      }
    }
  }

  lemma ErrorQueue(b: Bus, stamp: Stamp)
    ensures PublishError(b, stamp).Queues(SubmitCommandsTopic) == b.Queues(SubmitCommandsTopic)
  {
  }

  /** Step `i` takes the command from the queue while execution is enabled, the kill switch is off,
      and its strategy is active or the mode is paper. */
  ghost predicate GateOpenAt(config: Config, steps: seq<Step>, i: int, command: SubmitOrderCommand) {
    && 0 <= i < |steps| && steps[i].Take?
    && var s := Execute(config, steps[..i]);
    && s.control.executionEnabled && !s.control.killSwitchActive
    && (config.paperMode || command.intent.strategyId in config.activeStrategies)
    && SubmitQueue(s.core.bus) != [] && SubmitQueue(s.core.bus)[0] == SubmitMessage(command)
  }

  lemma {:induction false} AdmittedThroughGate(config: Config, steps: seq<Step>, command: SubmitOrderCommand)
    requires command in Execute(config, steps).admitted
    ensures exists i :: GateOpenAt(config, steps, i, command)
  {
    hide Start, Resume, Conclude;
    if steps != [] {
      var front := steps[..|steps| - 1];
      if command in Execute(config, front).admitted {
        AdmittedThroughGate(config, front, command);
        var i :| GateOpenAt(config, front, i, command);
        assert steps[..i] == front[..i];
        assert GateOpenAt(config, steps, i, command);
      } else {
        assert GateOpenAt(config, steps, |steps| - 1, command);
      }
    }
  }

  /** Whatever is sent to the venue was taken from the queue while execution was enabled. */
  lemma SentOnlyThroughGate(config: Config, steps: seq<Step>, command: SubmitOrderCommand)
    requires command in Execute(config, steps).sent
    ensures exists i :: GateOpenAt(config, steps, i, command)
  {
    SubmittedOnce(config, steps);
    SubsequenceMember(Execute(config, steps).sent, Execute(config, steps).admitted, command);
    AdmittedThroughGate(config, steps, command);
  }
}
