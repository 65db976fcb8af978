/** Runs of the whole system from its start in which a venue answer makes the log impossible to
    replay (polytrader/execution/router.py, polytrader/oms/core.py). */
module RouterRuns {
  import opened Prelude
  import opened OrderModel
  import opened EventLog
  import opened OrderStore
  import opened OmsCore
  import opened OmsRuns
  import opened ReplayEqualsLive
  import opened Ops
  import opened Router
  import opened RouterLog
  import opened Interleaving
  import opened Races
  import opened Messages
  import opened ShortRuns

  /** The log rebuilds the live store. */
  ghost predicate InStep(c: Core) {
    Linked(c) && Rebuilt(c) == Some(c.store)
  }

  lemma HandledInStep(c: Core, call: Call)
    requires InStep(c) && Fresh(c, call) && !PublishesThenRaises(c, call) && !ReAcksUnderNewId(c, call)
    ensures InStep(Handle(c, call).core)
  {
    hide Handle, Replay, Linked, Fresh, PublishesThenRaises, ReAcksUnderNewId;
    HandleMirrors(c, call);
    HandleKeepsLinked(c, call);
  }

  lemma OtherInStep(c: Core, t: Topic, stamp: Stamp)
    requires InStep(c) && stamp.id !in c.bus.log.ids
    ensures var c' := c.Publish(t, EventMessage(OtherEvent(stamp)));
            InStep(c') && c'.bus.log.ids == c.bus.log.ids + {stamp.id}
  {
    hide Replay, Indexed;
    AppendKeepsLog(c.bus.log, OtherEvent(stamp));
    RebuiltAppend(c.Publish(t, EventMessage(OtherEvent(stamp))), c.bus.log, OtherEvent(stamp));
  }

  function CommandOf(d: Call): SubmitOrderCommand
    requires d.CreateOrder?
  {
    SubmitOrderCommand(d.orderId, d.clientId, d.intent)
  }

  // ---- An order on its way to the venue ----------------------------------------------------

  lemma CallKeepsRouter(config: Config, steps: seq<Step>, task: nat, call: Call)
    ensures var s, t := Execute(config, steps), Execute(config, steps + CallSteps(task, call));
            t.stage == s.stage && t.listening == s.listening && t.control == s.control
  {
    hide Execute, Start, Resume;
    var steps1 := steps + [Spawn(task, call)];
    var steps2 := steps1 + [Wake(task)];
    var steps3 := steps2 + [Wake(task)];
    ExecuteSnoc(config, steps, Spawn(task, call));
    ExecuteSnoc(config, steps1, Wake(task));
    ExecuteSnoc(config, steps2, Wake(task));
    ExecuteSnoc(config, steps3, Wake(task));
    assert steps3 + [Wake(task)] == steps + CallSteps(task, call);
  }

  const LISTENING := Core(EMPTY_STORE, map[], {}, Bus(EMPTY_LOG, map[SubmitCommandsTopic := [[]]]))

  lemma ListeningReached(config: Config)
    ensures var s := Execute(config, [Listen, Step.Control(Enable)]);
            && s.core == LISTENING && s.tasks == map[] && s.drawn == {EMPTY} && s.listening && s.stage == Idle
            && s.control.IsEnabled() && InStep(LISTENING)
  {
    hide Execute;
    StartExecutes(config);
    assert [] + [Listen] == [Listen] && [Listen] + [Step.Control(Enable)] == [Listen, Step.Control(Enable)];
    ExecuteSnoc(config, [], Listen);
    ExecuteSnoc(config, [Listen], Step.Control(Enable));
    var one: seq<seq<Message>> := [[]];
    assert [] + one == one;
  }

  function Submitting(d: Call): seq<Step> {
    [Listen, Step.Control(Enable)] + CallSteps(0, d)
  }

  /** The router has taken the command of the new order and called the venue. */
  function AtVenueSteps(d: Call, taken: Stamp): seq<Step> {
    Submitting(d) + [Take(taken)] + [Tactics(false, taken)]
  }

  lemma QueueEmptied(m: Message)
    ensures [[m]][0 := [m][1..]] == [[]]
  {
    assert [m][1..] == [];
    assert [[m]][0 := [m][1..]] == [[]] by {
      assert [[m]][0 := [m][1..]] == [[m][1..]];
    }
  }

  lemma ListeningFresh(d: Call)
    requires Creation(d)
    ensures Linked(LISTENING) && InStep(LISTENING) && Fresh(LISTENING, d) && d.clientId !in LISTENING.idem
    ensures Direct(LISTENING, d) == Some(d)
  {
  }

  lemma CreatedListening(d: Call)
    requires Creation(d)
    ensures var c := Handle(LISTENING, d).core;
            && InStep(c)
            && c.store == WithNewOrder(EMPTY_STORE, d, Submitted, [CreatedBy(d), SubmittedBy(d)])
            && c.bus.log.ids == {d.created.id, d.submitted.id}
  {
    hide Handle, WithNewOrder, Replay, Indexed;
    ListeningFresh(d);
    CreateEffect(LISTENING, d);
    HandledInStep(LISTENING, d);
  }

  lemma CommandQueued(d: Call)
    requires Creation(d)
    ensures Handle(LISTENING, d).core.bus.Queues(SubmitCommandsTopic) == [[SubmitMessage(CommandOf(d))]]
  {
    hide Handle, Linked;
    ListeningFresh(d);
    var before := LISTENING.bus.Queues(SubmitCommandsTopic);
    assert |before| == 1 && before[0] == [];
    HandleSends(LISTENING, d, SubmitCommandsTopic);
    var queues := Handle(LISTENING, d).core.bus.Queues(SubmitCommandsTopic);
    assert Messages.Messages(LISTENING, d, SubmitCommandsTopic) == [SubmitMessage(CommandOf(d))];
    assert |queues| == 1;
    assert queues[0] == before[0] + [SubmitMessage(CommandOf(d))] == [SubmitMessage(CommandOf(d))];
    assert queues == [queues[0]];
  }

  lemma SubmittingReached(config: Config, d: Call)
    requires Creation(d)
    ensures var s := Execute(config, Submitting(d));
            && s.tasks == map[] && s.listening && s.stage == Idle && s.control.IsEnabled() && InStep(s.core)
            && s.core.store == WithNewOrder(EMPTY_STORE, d, Submitted, [CreatedBy(d), SubmittedBy(d)])
            && s.core.bus.log.ids == {d.created.id, d.submitted.id}
            && s.core.bus.Queues(SubmitCommandsTopic) == [[SubmitMessage(CommandOf(d))]]
  {
    hide Execute, Handle, CallSteps, WithNewOrder, InStep;
    ListeningReached(config);
    CallIsHandled(config, [Listen, Step.Control(Enable)], 0, d);
    CallKeepsRouter(config, [Listen, Step.Control(Enable)], 0, d);
    CreatedListening(d);
    CommandQueued(d);
  }

  lemma AtVenueReached(config: Config, d: Call, taken: Stamp)
    requires Creation(d) && config.StrategyActive(CommandOf(d)) && taken.id !in {d.created.id, d.submitted.id}
    ensures var s := Execute(config, AtVenueSteps(d, taken));
            && s.tasks == map[] && s.stage == AtVenue(CommandOf(d)) && InStep(s.core)
            && s.core.store == WithNewOrder(EMPTY_STORE, d, Submitted, [CreatedBy(d), SubmittedBy(d)])
            && s.core.bus.log.ids == {d.created.id, d.submitted.id, taken.id}
  {
    hide Execute, Submitting, WithNewOrder, InStep;
    SubmittingReached(config, d);
    ExecuteSnoc(config, Submitting(d), Take(taken));
    ExecuteSnoc(config, Submitting(d) + [Take(taken)], Tactics(false, taken));
    var s := Execute(config, Submitting(d));
    var queues := s.core.bus.queues[SubmitCommandsTopic := [[]]];
    QueueEmptied(SubmitMessage(CommandOf(d)));
    var c := s.core.(bus := s.core.bus.(queues := queues));
    SameLogInStep(s.core, c);
    OtherInStep(c, ExecutionRequestsTopic, taken);
  }

  lemma SameLogInStep(c: Core, c': Core)
    requires InStep(c) && c' == c.(bus := c'.bus) && c'.bus.log == c.bus.log
    ensures InStep(c')
  {
  }

  lemma SubmittedAtVenue(s: Store, d: Call)
    requires Creation(d) && s == WithNewOrder(EMPTY_STORE, d, Submitted, [CreatedBy(d), SubmittedBy(d)])
    ensures s.GetByClient(d.clientId) == Some(SubmittedOrder(d)) && Logged(s, CommandOf(d))
    ensures d.orderId in s.orders && s.orders[d.orderId] == SubmittedOrder(d)
  {
  }

  // ---- Answers part the log from the live store --------------------------------------------

  /** The OMS does not listen to what the router publishes: while the log rebuilds the live store,
      an answer keeps it so if and only if it is a passing error. */
  lemma AnswerPartsIff(s: Sys, config: Config, outcome: VenueOutcome, stamps: Stamps)
    requires FramesWellFormed(s) && s.stage.AtVenue? && InStep(s.core)
    requires Logged(s.core.store, s.stage.command) && FreshAnswer(s.core.bus.log, stamps)
    ensures var t := Next(s, config, Answer(outcome, stamps));
            t.core.store == s.core.store && (Rebuilt(t.core) == Some(t.core.store) <==> Silent(outcome))
  {
    hide Conclude, Replay, Linked;
    AnswerReplayableIff(s.core.bus, s.core.store, s.stage.command, outcome, stamps);
  }

  /** So after a plain placement the order is SUBMITTED live and ACKED in the log. */
  lemma PlacedReached(config: Config, d: Call, taken: Stamp, venueId: Id, stamps: Stamps)
    requires Creation(d) && config.StrategyActive(CommandOf(d)) && taken.id !in {d.created.id, d.submitted.id}
    requires FreshAnswer(Log([], {d.created.id, d.submitted.id, taken.id}), stamps)
    ensures var c := Execute(config, AtVenueSteps(d, taken) + [Answer(Placed(venueId), stamps)]).core;
            && d.orderId in c.store.orders && c.store.orders[d.orderId].state == Submitted
            && Rebuilt(c).Some? && d.orderId in Rebuilt(c).value.orders
            && Rebuilt(c).value.orders[d.orderId].state == Acked
  {
    hide Execute, AtVenueSteps, WithNewOrder, Conclude, Replay, Linked;
    AtVenueReached(config, d, taken);
    ExecuteSnoc(config, AtVenueSteps(d, taken), Answer(Placed(venueId), stamps));
    var s := Execute(config, AtVenueSteps(d, taken));
    SubmittedAtVenue(s.core.store, d);
    AnswerReplayableIff(s.core.bus, s.core.store, CommandOf(d), Placed(venueId), stamps);
  }

  // ---- Answers that break the log ----------------------------------------------------------

  /** An order filled at once: the log rebuilds the live store until the venue answers, and cannot
      be replayed from then on. */
  lemma ImmediateFillReached(config: Config, d: Call, taken: Stamp, venueId: Id, price: real, stamps: Stamps)
    requires Creation(d) && config.StrategyActive(CommandOf(d)) && taken.id !in {d.created.id, d.submitted.id}
    requires 0.0 < price <= 1.0
    requires FreshAnswer(Log([], {d.created.id, d.submitted.id, taken.id}), stamps)
    ensures var before := Execute(config, AtVenueSteps(d, taken));
            Rebuilt(before.core) == Some(before.core.store)
    ensures Rebuilt(Execute(config, AtVenueSteps(d, taken) + [Answer(FilledAt(venueId, price), stamps)]).core) == None
  {
    hide Execute, AtVenueSteps, WithNewOrder, Conclude, Replay, Linked;
    AtVenueReached(config, d, taken);
    ExecuteSnoc(config, AtVenueSteps(d, taken), Answer(FilledAt(venueId, price), stamps));
    var s := Execute(config, AtVenueSteps(d, taken));
    SubmittedAtVenue(s.core.store, d);
    AnswerReplayableIff(s.core.bus, s.core.store, CommandOf(d), FilledAt(venueId, price), stamps);
  }

  /** The user stream acks the order and reports a partial fill while the router still waits for the
      answer of the venue. */
  predicate FilledMeanwhile(d: Call, taken: Stamp, ack: Call, fill: Call) {
    && Creation(d) && ack.VenueAck? && fill.VenueFill? && ack.clientId == fill.clientId == d.clientId
    && ValidFill(fill.size, fill.price, fill.fee) && fill.size < d.intent.size
    && taken.id !in {d.created.id, d.submitted.id}
    && ack.stamp.id !in {d.created.id, d.submitted.id, taken.id}
    && fill.stamp.id !in {d.created.id, d.submitted.id, taken.id, ack.stamp.id}
  }

  lemma AckedMeanwhile(c: Core, o: Order, ack: Call)
    requires InStep(c) && ack.VenueAck? && Fresh(c, ack) && Target(c, ack) == Some(o)
    requires o.state == Submitted && o.venueId == None
    ensures var c' := Handle(c, ack).core;
            && InStep(c') && c'.bus.log.ids == c.bus.log.ids + {ack.stamp.id}
            && c'.store.GetByClient(ack.clientId) == Some(o.(state := Acked, venueId := Some(ack.venueId)))
  {
    hide Handle, Replay;
    AckEffect(c, ack);
    HandledInStep(c, ack);
  }

  lemma PartlyFilledMeanwhile(c: Core, o: Order, fill: Call)
    requires InStep(c) && fill.VenueFill? && Fresh(c, fill) && Target(c, fill) == Some(o)
    requires o.state == Acked && ValidFill(fill.size, fill.price, fill.fee) && o.filled + fill.size < o.Size()
    requires o.filled == 0.0 && o.avgPrice == None
    ensures var c' := Handle(c, fill).core;
            && InStep(c') && c'.bus.log.ids == c.bus.log.ids + {fill.stamp.id}
            && o.orderId in c'.store.orders
            && c'.store.orders[o.orderId] ==
               o.(state := PartiallyFilled, filled := fill.size, avgPrice := Some(fill.price))
  {
    hide Handle, Replay;
    FillEffect(c, fill);
    HandledInStep(c, fill);
  }

  /** Then even a plain placement is answered by an ack that the order refuses. */
  lemma PlacedAfterFillReached(config: Config, d: Call, taken: Stamp, ack: Call, fill: Call, venueId: Id,
                               stamps: Stamps)
    requires FilledMeanwhile(d, taken, ack, fill) && config.StrategyActive(CommandOf(d))
    requires FreshAnswer(Log([], {d.created.id, d.submitted.id, taken.id, ack.stamp.id, fill.stamp.id}), stamps)
    ensures var steps := AtVenueSteps(d, taken) + CallSteps(1, ack) + CallSteps(2, fill);
            var before := Execute(config, steps);
            && Rebuilt(before.core) == Some(before.core.store)
            && Rebuilt(Execute(config, steps + [Answer(Placed(venueId), stamps)]).core) == None
  {
    hide Execute, AtVenueSteps, CallSteps, WithNewOrder, Conclude, Replay, Linked, Handle;
    var o := SubmittedOrder(d);
    var steps0 := AtVenueSteps(d, taken);
    AtVenueReached(config, d, taken);
    SubmittedAtVenue(Execute(config, steps0).core.store, d);
    CallIsHandled(config, steps0, 1, ack);
    CallKeepsRouter(config, steps0, 1, ack);
    AckedMeanwhile(Execute(config, steps0).core, o, ack);
    var steps1 := steps0 + CallSteps(1, ack);
    CallIsHandled(config, steps1, 2, fill);
    CallKeepsRouter(config, steps1, 2, fill);
    PartlyFilledMeanwhile(Execute(config, steps1).core, o.(state := Acked, venueId := Some(ack.venueId)), fill);
    var steps2 := steps1 + CallSteps(2, fill);
    ExecuteSnoc(config, steps2, Answer(Placed(venueId), stamps));
    var s := Execute(config, steps2);
    AnswerReplayableIff(s.core.bus, s.core.store, CommandOf(d), Placed(venueId), stamps);
  }
}
