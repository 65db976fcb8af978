/** Execution switch and reconciliation breaker (polytrader/ops/control.py). */
module Ops {
  import opened Prelude
  import opened OrderModel
  import opened EventLog

  /** The execution switch. */
  datatype Control = Control(executionEnabled: bool, killSwitchActive: bool)
  {
    predicate IsEnabled() {
      executionEnabled && !killSwitchActive
    }
  }

  /** Default safe state: no trading. */
  const SAFE := Control(false, false)

  datatype ControlAction = Enable | Disable | SetKillSwitch(active: bool)

  /** Activating the kill switch also disables execution; deactivating it does not enable it. */
  function Switch(c: Control, a: ControlAction): Control {
    match a
    case Enable => c.(executionEnabled := true)
    case Disable => c.(executionEnabled := false)
    case SetKillSwitch(active) =>
      Control(if active then false else c.executionEnabled, active)
  }

  function SwitchAll(c: Control, actions: seq<ControlAction>): Control {
    if actions == [] then c
    else Switch(SwitchAll(c, actions[..|actions| - 1]), actions[|actions| - 1])
  }

  /** Execution is enabled exactly when someone enabled it after the last disabling action and
      the last kill switch action, if any, was a deactivation. */
  ghost predicate EnabledSince(actions: seq<ControlAction>, i: int) {
    && 0 <= i < |actions| && actions[i] == Enable
    && (forall j :: i < j < |actions| ==> actions[j] != Disable && actions[j] != SetKillSwitch(true))
  }

  ghost predicate Killed(actions: seq<ControlAction>, i: int) {
    && 0 <= i < |actions| && actions[i] == SetKillSwitch(true)
    && (forall j :: i < j < |actions| ==> !actions[j].SetKillSwitch?)
  }

  lemma {:induction false} EnabledWhen(actions: seq<ControlAction>)
    ensures SwitchAll(SAFE, actions).executionEnabled <==> exists i :: EnabledSince(actions, i)
    ensures SwitchAll(SAFE, actions).killSwitchActive <==> exists i :: Killed(actions, i)
  {
    if actions != [] {
      var front, last := actions[..|actions| - 1], actions[|actions| - 1];
      EnabledWhen(front);
      if i :| EnabledSince(front, i) {
        assert last != Disable && last != SetKillSwitch(true) ==> EnabledSince(actions, i);
      }
      if i :| Killed(front, i) {
        assert !last.SetKillSwitch? ==> Killed(actions, i);
      }
      if last == Enable {
        assert EnabledSince(actions, |actions| - 1);
      }
      if last == SetKillSwitch(true) {
        assert Killed(actions, |actions| - 1);
      }
      if i :| EnabledSince(actions, i) {
        assert i < |front| ==> EnabledSince(front, i);
        assert i < |front| ==> actions[|actions| - 1] != Disable && actions[|actions| - 1] != SetKillSwitch(true);
      }
      if i :| Killed(actions, i) {
        assert i < |front| ==> Killed(front, i);
        assert i < |front| ==> !actions[|actions| - 1].SetKillSwitch?;
      }
    }
  }

  /** After any actions from the safe state, execution is enabled exactly when someone enabled it
      after the last disabling action, and the last kill switch action, if any, was a deactivation:
      enabling execution does not lift an active kill switch. */
  lemma EnabledIff(actions: seq<ControlAction>)
    ensures SwitchAll(SAFE, actions).IsEnabled() <==>
            (exists i :: EnabledSince(actions, i)) && !(exists i :: Killed(actions, i))
  {
    EnabledWhen(actions);
  }

  class ExecutionControl {
    const bus: EventBus?
    var executionEnabled: bool
    var killSwitchActive: bool

    function View(): Control
      reads this
    {
      Control(executionEnabled, killSwitchActive)
    }

    constructor (bus: EventBus?)
      ensures View() == SAFE && this.bus == bus
    {
      this.bus := bus;
      executionEnabled, killSwitchActive := false, false;
    }

    method Enable()
      modifies this
      ensures View() == Switch(old(View()), ControlAction.Enable)
    {
      executionEnabled := true;
    }

    /** Announces the permit on the bus, if there is one. */
    method EnableWithPermit(stamp: Stamp)
      modifies this, bus, if bus == null then {} else {bus.store}
      ensures View() == Switch(old(View()), ControlAction.Enable)
      ensures bus != null ==>
                bus.View() == old(bus.View()).Publish(SystemLifecycleTopic, EventMessage(OtherEvent(stamp)))
    {
      executionEnabled := true;
      if bus != null {
        bus.Publish(SystemLifecycleTopic, EventMessage(OtherEvent(stamp)));
      }
    }

    method Disable()
      modifies this
      ensures View() == Switch(old(View()), ControlAction.Disable)
    {
      executionEnabled := false;
    }

    /** Announces the change on the bus, if there is one. */
    method SetKillSwitch(active: bool, stamp: Stamp)
      modifies this, bus, if bus == null then {} else {bus.store}
      ensures View() == Switch(old(View()), ControlAction.SetKillSwitch(active))
      ensures bus != null ==>
                bus.View() == old(bus.View()).Publish(SystemLifecycleTopic, EventMessage(OtherEvent(stamp)))
    {
      killSwitchActive := active;
      if active {
        executionEnabled := false;
      }
      if bus != null {
        bus.Publish(SystemLifecycleTopic, EventMessage(OtherEvent(stamp)));
      }
    }
  }

  // ---- The reconciliation breaker ----------------------------------------------------

  datatype Divergence = PhantomOrder | OrphanOrder | FillMismatch | NoDivergence

  datatype Severity = Warning | Error

  datatype ReconcileEvent = ReconcileEvent(
    divergence: Divergence,
    orderId: Option<Id>,
    venueId: Option<Id>,
    severity: Severity)

  datatype Thresholds = Thresholds(
    maxPhantomOrders: nat,
    maxOrphanOrders: nat,
    maxFillMismatches: nat,
    requireErrorSeverity: bool)

  const DEFAULT_THRESHOLDS := Thresholds(3, 3, 1, true)

  datatype BreakerTrip = BreakerTrip(phantoms: nat, orphans: nat, mismatches: nat, errors: nat, total: nat)

  /** The event a breaker publishes when it trips, with its counts, or is reset. */
  datatype BreakerEvent = BreakerEvent(stamp: Stamp, triggered: bool, details: Option<BreakerTrip>)

  function Diverging(d: Divergence): ReconcileEvent -> bool {
    (e: ReconcileEvent) => e.divergence == d
  }

  predicate Severe(e: ReconcileEvent) {
    e.severity == Error
  }

  function Tally(es: seq<ReconcileEvent>): BreakerTrip {
    BreakerTrip(
      |Filter(es, Diverging(PhantomOrder))|,
      |Filter(es, Diverging(OrphanOrder))|,
      |Filter(es, Diverging(FillMismatch))|,
      |Filter(es, Severe)|,
      |es|)
  }

  /** Some kind of divergence has reached its threshold, and if severity is required at least
      one event is an error. */
  predicate ShouldTrigger(t: Thresholds, es: seq<ReconcileEvent>) {
    var n := Tally(es);
    && es != []
    && (n.phantoms >= t.maxPhantomOrders || n.orphans >= t.maxOrphanOrders || n.mismatches >= t.maxFillMismatches)
    && (t.requireErrorSeverity ==> n.errors > 0)
  }

  class CircuitBreaker {
    const thresholds: Thresholds
    const control: ExecutionControl
    const bus: EventBus
    var triggered: bool

    constructor (thresholds: Thresholds, control: ExecutionControl, bus: EventBus)
      ensures this.thresholds == thresholds && this.control == control && this.bus == bus && !triggered
    {
      this.bus := bus;
      this.thresholds := thresholds;
      this.control := control;
      triggered := false;
    }

    /** Trips at most once until reset; when it does, it disables execution and then publishes the
        event it returns. */
    method Check(es: seq<ReconcileEvent>, stamp: Stamp) returns (event: Option<BreakerEvent>)
      modifies this, control, bus, bus.store
      ensures event ==
              if !old(triggered) && ShouldTrigger(thresholds, es) then Some(BreakerEvent(stamp, true, Some(Tally(es))))
              else None
      ensures triggered == (old(triggered) || event.Some?)
      ensures control.View() == if event.Some? then Switch(old(control.View()), Disable) else old(control.View())
      ensures bus.View() ==
              if event.Some? then old(bus.View()).Publish(CircuitBreakerTopic, EventMessage(OtherEvent(stamp)))
              else old(bus.View())
    {
      if triggered {
        return None;
      }
      if es == [] {
        return None;
      }
      var phantoms, orphans, mismatches, errors := 0, 0, 0, 0;
      for i := 0 to |es|
        modifies {}
        invariant BreakerTrip(phantoms, orphans, mismatches, errors, i) == Tally(es[..i])
      {
        assert es[..i + 1][..i] == es[..i];
        var e := es[i];
        if e.divergence == PhantomOrder {
          phantoms := phantoms + 1;
        } else if e.divergence == OrphanOrder {
          orphans := orphans + 1;
        } else if e.divergence == FillMismatch {
          mismatches := mismatches + 1;
        }
        if e.severity == Error {
          errors := errors + 1;
        }
      }
      assert es[..|es|] == es;
      var shouldTrigger := false;
      if phantoms >= thresholds.maxPhantomOrders {
        shouldTrigger := true;
      }
      if orphans >= thresholds.maxOrphanOrders {
        shouldTrigger := true;
      }
      if mismatches >= thresholds.maxFillMismatches {
        shouldTrigger := true;
      }
      if thresholds.requireErrorSeverity && errors == 0 {
        shouldTrigger := false;
      }
      if !shouldTrigger {
        return None;
      }
      control.Disable();
      triggered := true;
      event := Some(BreakerEvent(stamp, true, Some(BreakerTrip(phantoms, orphans, mismatches, errors, |es|))));
      bus.Publish(CircuitBreakerTopic, EventMessage(OtherEvent(stamp)));
    }

    /** Re-arms the breaker and says so; execution stays as it is. */
    method Reset(stamp: Stamp) returns (event: BreakerEvent)
      modifies this, bus, bus.store
      ensures !triggered && event == BreakerEvent(stamp, false, None)
      ensures bus.View() == old(bus.View()).Publish(CircuitBreakerTopic, EventMessage(OtherEvent(stamp)))
    {
      triggered := false;
      event := BreakerEvent(stamp, false, None);
      bus.Publish(CircuitBreakerTopic, EventMessage(OtherEvent(stamp)));
    }
  }
}
