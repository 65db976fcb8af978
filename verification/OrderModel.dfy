/** Orders, their state machine and the events of their lifecycle
    (polytrader/oms/models.py, polytrader/oms/fsm.py, polytrader/events/types.py). */
module OrderModel {
  import opened Prelude

  datatype OrderState =
    | New
    | PendingSubmit
    | Submitted
    | Acked
    | PartiallyFilled
    | Filled
    | Cancelled
    | Rejected

  datatype Outcome = Up | Down

  datatype Side = Buy | Sell

  datatype IntentRecord = IntentRecord(
    strategyId: Id,
    marketSlug: Id,
    outcome: Outcome,
    side: Side,
    targetPrice: real,
    limitPrice: real,
    size: real,
    correlationId: Id)

  /** An order intent as its schema admits it. */
  type Intent = i: IntentRecord |
      i.size > 0.0 && 0.0 < i.limitPrice <= 1.0 && 0.0 < i.targetPrice <= 1.0
    witness IntentRecord(1, 1, Up, Buy, 1.0, 1.0, 1.0, 1)

  /** Market, outcome, side, size, limit price and correlation id of an order are copies of
      the intent's, so they are read from `intent`. */
  datatype Order = Order(
    orderId: Id,
    clientId: Id,
    venueId: Option<Id>,
    state: OrderState,
    intent: Intent,
    filled: real,
    avgPrice: Option<real>,
    rejectReason: Option<Id>)
  {
    function Size(): real {
      intent.size
    }

    predicate Terminal() {
      IsTerminal(state)
    }
  }

  function NewOrder(orderId: Id, clientId: Id, intent: Intent): Order {
    Order(orderId, clientId, None, New, intent, 0.0, None, None)
  }

  const TRANSITIONS: set<(OrderState, OrderState)> := {
    (New, PendingSubmit),
    (PendingSubmit, Submitted),
    (PendingSubmit, Cancelled),
    (Submitted, Acked),
    (Submitted, Rejected),
    (Acked, PartiallyFilled),
    (Acked, Filled),
    (PartiallyFilled, Filled),
    (Acked, Cancelled),
    (PartiallyFilled, Cancelled)
  }

  predicate CanTransition(from: OrderState, to: OrderState) {
    (from, to) in TRANSITIONS
  }

  predicate IsTerminal(s: OrderState) {
    s in {Filled, Cancelled, Rejected}
  }

  /** The order in its new state, or None where the program raises InvalidTransitionError. */
  function Transition(o: Order, to: OrderState, reason: Option<Id>): Option<Order> {
    if o.state == to then Some(o)
    else if !CanTransition(o.state, to) then None
    else
      var moved := o.(state := to);
      Some(if to == Rejected && Truthy(reason) then moved.(rejectReason := reason) else moved)
  }

  // ---- Paths of the transition graph -------------------------------------------------

  ghost predicate IsPath(p: seq<OrderState>) {
    |p| > 0 && forall i :: 0 <= i < |p| - 1 ==> CanTransition(p[i], p[i + 1])
  }

  ghost predicate PathFromTo(p: seq<OrderState>, a: OrderState, b: OrderState) {
    IsPath(p) && p[0] == a && p[|p| - 1] == b
  }

  /** `b` can be reached from `a` along edges of the graph. */
  ghost predicate Reaches(a: OrderState, b: OrderState) {
    exists p: seq<OrderState> :: PathFromTo(p, a, b)
  }

  function Rank(s: OrderState): nat {
    match s
    case New => 0
    case PendingSubmit => 1
    case Submitted => 2
    case Acked => 3
    case PartiallyFilled => 4
    case _ => 5
  }

  /** A state is terminal exactly when no edge leaves it. */
  lemma TerminalIffNoExit(s: OrderState)
    ensures IsTerminal(s) <==> forall t :: !CanTransition(s, t)
  {
    match s
    case New => assert CanTransition(s, PendingSubmit);
    case PendingSubmit => assert CanTransition(s, Submitted);
    case Submitted => assert CanTransition(s, Acked);
    case Acked => assert CanTransition(s, Filled);
    case PartiallyFilled => assert CanTransition(s, Filled);
    case _ =>
  }

  /** No path of the graph has more than five edges: each edge raises the rank. */
  lemma {:induction false} PathIsShort(p: seq<OrderState>)
    requires IsPath(p)
    ensures Rank(p[|p| - 1]) >= Rank(p[0]) + |p| - 1
    ensures |p| <= 6
  {
    if |p| > 1 {
      var front := p[..|p| - 1];
      PathIsShort(front);
      assert CanTransition(p[|p| - 2], p[|p| - 1]);
    }
  }

  lemma ReachesRefl(a: OrderState)
    ensures Reaches(a, a)
  {
    assert PathFromTo([a], a, a);
  }

  lemma ReachesEdge(a: OrderState, b: OrderState)
    requires CanTransition(a, b)
    ensures Reaches(a, b)
  {
    assert PathFromTo([a, b], a, b);
  }

  lemma ReachesTrans(a: OrderState, b: OrderState, c: OrderState)
    requires Reaches(a, b) && Reaches(b, c)
    ensures Reaches(a, c)
  {
    var p :| PathFromTo(p, a, b);
    var q :| PathFromTo(q, b, c);
    assert PathFromTo(p + q[1..], a, c);
  }

  /** Reachable means equal or of strictly higher rank; nothing is reachable from a terminal
      state but itself. */
  lemma ReachesRanks(a: OrderState, b: OrderState)
    requires Reaches(a, b)
    ensures a == b || Rank(a) < Rank(b)
    ensures IsTerminal(a) ==> a == b
  {
    var p :| PathFromTo(p, a, b);
    PathIsShort(p);
    if |p| > 1 {
      assert CanTransition(p[0], p[1]);
      TerminalIffNoExit(a);
    }
  }

  // ---- Events ------------------------------------------------------------------------

  /** Event id, monotonic timestamp and correlation id that an event is constructed with. */
  datatype Stamp = Stamp(id: Id, ts: real, correlation: Id)

  datatype Event =
    | CreatedEvent(stamp: Stamp, orderId: Id, clientId: Id, intent: Intent)
    | SubmittedEvent(stamp: Stamp, orderId: Id, clientId: Id)
    | AckEvent(stamp: Stamp, orderId: Id, venueId: Id)
    | RejectedEvent(stamp: Stamp, orderId: Id, reason: Id)
    | FillEvent(stamp: Stamp, orderId: Id, fillId: Id, size: real, price: real, fee: real, venueFillId: Option<Id>)
    | CanceledEvent(stamp: Stamp, orderId: Id, cancelReason: Option<Id>)
    | CancelRequestedEvent(stamp: Stamp, orderId: Id, clientId: Id, cancelReason: Option<Id>)
    | OtherEvent(stamp: Stamp)
  {
    /** The six event types from which orders are rebuilt. */
    predicate IsOrderEvent() {
      !CancelRequestedEvent? && !OtherEvent?
    }
  }

  predicate OrderEvent(e: Event) {
    e.IsOrderEvent()
  }

  /** What the schema of a fill event demands. */
  predicate ValidFill(size: real, price: real, fee: real) {
    size > 0.0 && 0.0 < price <= 1.0 && fee >= 0.0
  }
}
