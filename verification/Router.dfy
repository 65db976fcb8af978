/** From submit commands to the venue (polytrader/execution/router.py). */
module Router {
  import opened Prelude
  import opened OrderModel
  import opened EventLog
  import opened Ops

  /** What the venue adapter answers, or how it raises. */
  datatype VenueOutcome =
    | Placed(venueId: Id)
    | FilledAt(venueId: Id, price: real)
    | Failed(fatal: bool, reason: Id)

  datatype Stamps = Stamps(first: Stamp, response: Stamp, fill: Stamp, ack: Stamp, error: Stamp, reject: Stamp)

  datatype Config = Config(paperMode: bool, activeStrategies: set<Id>)
  {
    predicate StrategyActive(command: SubmitOrderCommand) {
      paperMode || command.intent.strategyId in activeStrategies
    }
  }

  const EXECUTION_DISABLED: Id := 1
  const STRATEGY_NOT_ACTIVE: Id := 2
  const INVALID_FILL: Id := 3

  function PublishReject(b: Bus, command: SubmitOrderCommand, reason: Id, stamp: Stamp): Bus {
    b.Publish(OrderRejectsTopic, EventMessage(RejectedEvent(stamp, command.orderId, reason)))
  }

  /** The gates, in order; a command that passes is announced. */
  function Admit(b: Bus, enabled: bool, config: Config, command: SubmitOrderCommand, stamp: Stamp): (Bus, bool) {
    if !enabled then (PublishReject(b, command, EXECUTION_DISABLED, stamp), false)
    else if !config.StrategyActive(command) then (PublishReject(b, command, STRATEGY_NOT_ACTIVE, stamp), false)
    else (b.Publish(ExecutionRequestsTopic, EventMessage(OtherEvent(stamp))), true)
  }

  function PublishError(b: Bus, stamp: Stamp): Bus {
    b.Publish(ExecutionErrorsTopic, EventMessage(OtherEvent(stamp)))
  }

  /** The events that follow the adapter call. */
  function Conclude(b: Bus, command: SubmitOrderCommand, outcome: VenueOutcome, stamps: Stamps): Bus {
    match outcome
    case Placed(venueId) =>
      b.Publish(ExecutionResponsesTopic, EventMessage(OtherEvent(stamps.response)))
      .Publish(OrderAcksTopic, EventMessage(AckEvent(stamps.ack, command.orderId, venueId)))
    case FilledAt(venueId, price) =>
      var responded := b.Publish(ExecutionResponsesTopic, EventMessage(OtherEvent(stamps.response)));
      var size := command.intent.size;
      if !ValidFill(size, price, 0.0) then
        PublishReject(PublishError(responded, stamps.error), command, INVALID_FILL, stamps.reject)
      else
        responded
        .Publish(FillsTopic,
                 EventMessage(FillEvent(stamps.fill, command.orderId, stamps.fill.id, size, price, 0.0, Some(venueId))))
        .Publish(OrderAcksTopic, EventMessage(AckEvent(stamps.ack, command.orderId, venueId)))
    case Failed(fatal, reason) =>
      var reported := PublishError(b, stamps.error);
      if fatal then PublishReject(reported, command, reason, stamps.reject) else reported
  }

  /** A submit command handled without interleaving. */
  function Routed(b: Bus, enabled: bool, config: Config, command: SubmitOrderCommand, throttled: bool,
                  outcome: VenueOutcome, stamps: Stamps): Bus {
    var (admitted, open) := Admit(b, enabled, config, command, stamps.first);
    if !open then admitted
    else if throttled then PublishError(admitted, stamps.error)
    else Conclude(admitted, command, outcome, stamps)
  }

  datatype Submission = Submission(clientId: Id, intent: IntentRecord)

  /** The venue client; it remembers what it was asked to submit. */
  class VenueAdapter {
    var submitted: seq<Submission>

    constructor ()
      ensures submitted == []
    {
      submitted := [];
    }

    method SubmitOrder(clientId: Id, intent: IntentRecord)
      modifies this
      ensures submitted == old(submitted) + [Submission(clientId, intent)]
    {
      submitted := submitted + [Submission(clientId, intent)];
    }
  }

  class ExecutionRouter {
    const bus: EventBus
    const adapter: VenueAdapter
    const control: ExecutionControl?
    const config: Config

    predicate Enabled()
      reads control
    {
      control == null || control.View().IsEnabled()
    }

    constructor (bus: EventBus, adapter: VenueAdapter, control: ExecutionControl?, config: Config)
      ensures this.bus == bus && this.adapter == adapter && this.control == control && this.config == config
    {
      this.bus := bus;
      this.adapter := adapter;
      this.control := control;
      this.config := config;
    }

    /** `throttled` and the adjusted `limitPrice` are what the tactics decide, `outcome` what the
        venue does. The adapter is called once, or not at all: when execution is disabled, when the
        kill switch is active, when the strategy is neither active nor on paper, or when throttled. */
    method HandleSubmitCommand(command: SubmitOrderCommand, throttled: bool, limitPrice: real, outcome: VenueOutcome,
                               stamps: Stamps)
      modifies bus, bus.store, adapter
      ensures adapter.submitted == old(adapter.submitted) +
                                   if (control == null || (control.executionEnabled && !control.killSwitchActive))
                                      && (config.paperMode || command.intent.strategyId in config.activeStrategies)
                                      && !throttled
                                   then [Submission(command.clientId, command.intent.(limitPrice := limitPrice))]
                                   else []
      ensures bus.View() == Routed(old(bus.View()), Enabled(), config, command, throttled, outcome, stamps)
    {
      if control != null && !(control.executionEnabled && !control.killSwitchActive) {
        bus.Publish(OrderRejectsTopic, EventMessage(RejectedEvent(stamps.first, command.orderId, EXECUTION_DISABLED)));
        return;
      }
      if !config.paperMode && command.intent.strategyId !in config.activeStrategies {
        bus.Publish(OrderRejectsTopic, EventMessage(RejectedEvent(stamps.first, command.orderId, STRATEGY_NOT_ACTIVE)));
        return;
      }
      bus.Publish(ExecutionRequestsTopic, EventMessage(OtherEvent(stamps.first)));
      if throttled {
        bus.Publish(ExecutionErrorsTopic, EventMessage(OtherEvent(stamps.error)));
        return;
      }
      adapter.SubmitOrder(command.clientId, command.intent.(limitPrice := limitPrice));
      ConcludeSubmission(command, outcome, stamps);
    }

    /** The part of the handler after the adapter call. */
    method ConcludeSubmission(command: SubmitOrderCommand, outcome: VenueOutcome, stamps: Stamps)
      modifies bus, bus.store
      ensures bus.View() == Conclude(old(bus.View()), command, outcome, stamps)
    {
      match outcome {
        case Placed(venueId) =>
          bus.Publish(ExecutionResponsesTopic, EventMessage(OtherEvent(stamps.response)));
          bus.Publish(OrderAcksTopic, EventMessage(AckEvent(stamps.ack, command.orderId, venueId)));
        case FilledAt(venueId, price) =>
          bus.Publish(ExecutionResponsesTopic, EventMessage(OtherEvent(stamps.response)));
          if !ValidFill(command.intent.size, price, 0.0) {
            bus.Publish(ExecutionErrorsTopic, EventMessage(OtherEvent(stamps.error)));
            bus.Publish(OrderRejectsTopic, EventMessage(RejectedEvent(stamps.reject, command.orderId, INVALID_FILL)));
            return;
          }
          var size := command.intent.size;
          var fill := FillEvent(stamps.fill, command.orderId, stamps.fill.id, size, price, 0.0, Some(venueId));
          bus.Publish(FillsTopic, EventMessage(fill));
          bus.Publish(OrderAcksTopic, EventMessage(AckEvent(stamps.ack, command.orderId, venueId)));
        case Failed(fatal, reason) =>
          bus.Publish(ExecutionErrorsTopic, EventMessage(OtherEvent(stamps.error)));
          if fatal {
            bus.Publish(OrderRejectsTopic, EventMessage(RejectedEvent(stamps.reject, command.orderId, reason)));
          }
      }
    }
  }
}
