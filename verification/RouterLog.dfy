/** What the events published after a venue answer do to a rebuild from the log
    (polytrader/execution/router.py, polytrader/oms/store.py). */
module RouterLog {
  import opened Prelude
  import opened OrderModel
  import opened EventLog
  import opened OrderStore
  import opened Router

  function Rebuild(b: Bus): (r: Option<Store>)
    ensures r.Some? ==> r.value.WF()
  {
    Replay(EMPTY_STORE, b.log.events)
  }

  /** The ids the answer's events draw have not been drawn before. */
  predicate FreshAnswer(l: Log, stamps: Stamps) {
    && stamps.response.id !in l.ids + {stamps.fill.id, stamps.ack.id, stamps.error.id, stamps.reject.id}
    && stamps.fill.id !in l.ids + {stamps.ack.id, stamps.error.id, stamps.reject.id}
    && stamps.ack.id !in l.ids + {stamps.error.id, stamps.reject.id}
    && stamps.error.id !in l.ids + {stamps.reject.id}
    && stamps.reject.id !in l.ids
  }

  lemma PublishReplayed(b: Bus, t: Topic, e: Event)
    requires e.stamp.id !in b.log.ids
    ensures Rebuild(b.Publish(t, EventMessage(e))) == if Rebuild(b).None? then None else Rebuild(b).value.Apply(e)
    ensures b.Publish(t, EventMessage(e)).log.ids == b.log.ids + {e.stamp.id}
  {
    ReplaySnoc(EMPTY_STORE, b.log.events, e);
  }

  /** The log has the order that the command submits. */
  predicate Logged(s: Store, command: SubmitOrderCommand) {
    && command.orderId in s.orders
    && s.orders[command.orderId].filled >= 0.0
    && s.orders[command.orderId].Size() == command.intent.size
  }

  /** States in which a reject is refused. */
  predicate PastReject(state: OrderState) {
    state in {Acked, PartiallyFilled, Filled, Cancelled}
  }

  /** The store will refuse what is published after this answer: an ack of an order that is not
      just submitted or acked, a reject that comes too late, and any immediate fill, since either
      the fill or the ack that follows it comes at the wrong time. */
  predicate AnswerRefused(state: OrderState, size: real, outcome: VenueOutcome) {
    match outcome
    case Placed(_) => state !in {Submitted, Acked}
    case FilledAt(_, price) => ValidFill(size, price, 0.0) || PastReject(state)
    case Failed(fatal, _) => fatal && PastReject(state)
  }

  /** Only a passing error is not reported on the order. */
  predicate Silent(outcome: VenueOutcome) {
    outcome.Failed? && !outcome.fatal
  }

  /** The state in which an answer that is not refused leaves the order. */
  function AnsweredState(state: OrderState, outcome: VenueOutcome): OrderState {
    match outcome
    case Placed(_) => Acked
    case FilledAt(_, _) => Rejected
    case Failed(fatal, _) => if fatal then Rejected else state
  }

  ghost predicate OnlyChanges(s: Store, t: Store, id: Id) {
    s.orders.Keys == t.orders.Keys && forall k :: k in s.orders && k != id ==> t.orders[k] == s.orders[k]
  }

  /** The order has come into the state, and no other has changed; or the log cannot be replayed.
      The rebuilt store is the same as before only if nothing was published about the order. */
  ghost predicate ComesOut(s: Store, t: Option<Store>, id: Id, refused: bool, silent: bool, state: OrderState) {
    && (t.None? <==> refused)
    && (t.Some? ==> OnlyChanges(s, t.value, id) && id in t.value.orders && t.value.orders[id].state == state)
    && (t == Some(s) <==> silent)
  }

  lemma AppliedIsRecorded(s: Store, e: Event)
    requires s.WF() && e.IsOrderEvent() && !e.CreatedEvent? && e.orderId in s.orders
    ensures s.Apply(e) != Some(s)
    ensures s.Apply(e).None? <==> OrderAfter(s.orders[e.orderId], e).None?
    ensures s.Apply(e).Some? ==>
              && OnlyChanges(s, s.Apply(e).value, e.orderId)
              && s.Apply(e).value.orders[e.orderId] == OrderAfter(s.orders[e.orderId], e).value
  {
    hide OrderAfter;
    if s.Apply(e).Some? {
      assert |s.Apply(e).value.history[e.orderId]| == |s.history[e.orderId]| + 1;
    }
  }

  lemma AckRefused(o: Order, e: Event)
    requires e.AckEvent?
    ensures OrderAfter(o, e).None? <==> o.state !in {Submitted, Acked}
    ensures OrderAfter(o, e).Some? ==> OrderAfter(o, e).value.state == Acked
  {
  }

  lemma AckReplayed(s: Store, command: SubmitOrderCommand, venueId: Id, stamp: Stamp)
    requires s.WF() && Logged(s, command)
    ensures ComesOut(s, s.Apply(AckEvent(stamp, command.orderId, venueId)), command.orderId,
                     s.orders[command.orderId].state !in {Submitted, Acked}, false, Acked)
  {
    hide OrderAfter;
    AckRefused(s.orders[command.orderId], AckEvent(stamp, command.orderId, venueId));
    AppliedIsRecorded(s, AckEvent(stamp, command.orderId, venueId));
  }

  lemma RejectRefused(o: Order, e: Event)
    requires e.RejectedEvent?
    ensures OrderAfter(o, e).None? <==> PastReject(o.state)
    ensures OrderAfter(o, e).Some? ==> OrderAfter(o, e).value.state == Rejected
  {
  }

  lemma RejectReplayed(s: Store, command: SubmitOrderCommand, reason: Id, stamp: Stamp)
    requires s.WF() && Logged(s, command)
    ensures ComesOut(s, s.Apply(RejectedEvent(stamp, command.orderId, reason)), command.orderId,
                     PastReject(s.orders[command.orderId].state), false, Rejected)
  {
    hide OrderAfter, PastReject;
    RejectRefused(s.orders[command.orderId], RejectedEvent(stamp, command.orderId, reason));
    AppliedIsRecorded(s, RejectedEvent(stamp, command.orderId, reason));
  }

  lemma RejectPublished(b: Bus, s: Store, command: SubmitOrderCommand, reason: Id, stamp: Stamp)
    requires Rebuild(b) == Some(s) && Logged(s, command) && stamp.id !in b.log.ids
    ensures ComesOut(s, Rebuild(PublishReject(b, command, reason, stamp)), command.orderId,
                     PastReject(s.orders[command.orderId].state), false, Rejected)
  {
    hide Rebuild, OrderAfter;
    PublishReplayed(b, OrderRejectsTopic, RejectedEvent(stamp, command.orderId, reason));
    RejectReplayed(s, command, reason, stamp);
  }

  lemma OtherPublished(b: Bus, t: Topic, stamp: Stamp)
    requires stamp.id !in b.log.ids
    ensures Rebuild(b.Publish(t, EventMessage(OtherEvent(stamp)))) == Rebuild(b)
    ensures b.Publish(t, EventMessage(OtherEvent(stamp))).log.ids == b.log.ids + {stamp.id}
  {
    hide Rebuild;
    PublishReplayed(b, t, OtherEvent(stamp));
  }

  lemma FillPublished(b: Bus, s: Store, command: SubmitOrderCommand, fill: Event, ack: Event)
    requires Rebuild(b) == Some(s) && Logged(s, command) && fill.FillEvent? && ack.AckEvent?
    requires fill.orderId == ack.orderId == command.orderId && fill.size == command.intent.size
    requires fill.stamp.id !in b.log.ids && ack.stamp.id !in b.log.ids + {fill.stamp.id}
    ensures Rebuild(b.Publish(FillsTopic, EventMessage(fill)).Publish(OrderAcksTopic, EventMessage(ack))) == None
  {
    hide Rebuild, OrderAfter;
    FullFillBarsAck(s, fill, ack);
    PublishReplayed(b, FillsTopic, fill);
    PublishReplayed(b.Publish(FillsTopic, EventMessage(fill)), OrderAcksTopic, ack);
  }

  /** Whatever has happened to the order in the log meanwhile: after an answer the log can no longer
      be replayed if and only if the store refuses what was published. Otherwise the order comes
      out as answered and all other orders are as before; and the log rebuilds the same store as
      before if and only if the answer was a passing error. */
  lemma AnswerReplayableIff(b: Bus, s: Store, command: SubmitOrderCommand, outcome: VenueOutcome, stamps: Stamps)
    requires Rebuild(b) == Some(s) && Logged(s, command) && FreshAnswer(b.log, stamps)
    ensures var state := s.orders[command.orderId].state;
            ComesOut(s, Rebuild(Conclude(b, command, outcome, stamps)), command.orderId,
                     AnswerRefused(state, command.intent.size, outcome), Silent(outcome), AnsweredState(state, outcome))
  {
    hide Rebuild, OrderAfter;
    match outcome {
      case Placed(venueId) =>
        OtherPublished(b, ExecutionResponsesTopic, stamps.response);
        var responded := b.Publish(ExecutionResponsesTopic, EventMessage(OtherEvent(stamps.response)));
        PublishReplayed(responded, OrderAcksTopic, AckEvent(stamps.ack, command.orderId, venueId));
        AckReplayed(s, command, venueId, stamps.ack);
      case FilledAt(venueId, price) =>
        OtherPublished(b, ExecutionResponsesTopic, stamps.response);
        var responded := b.Publish(ExecutionResponsesTopic, EventMessage(OtherEvent(stamps.response)));
        if ValidFill(command.intent.size, price, 0.0) {
          var size := command.intent.size;
          var fill := FillEvent(stamps.fill, command.orderId, stamps.fill.id, size, price, 0.0, Some(venueId));
          FillPublished(responded, s, command, fill, AckEvent(stamps.ack, command.orderId, venueId));
        } else {
          OtherPublished(responded, ExecutionErrorsTopic, stamps.error);
          RejectPublished(PublishError(responded, stamps.error), s, command, INVALID_FILL, stamps.reject);
        }
      case Failed(fatal, reason) =>
        OtherPublished(b, ExecutionErrorsTopic, stamps.error);
        if fatal {
          RejectPublished(PublishError(b, stamps.error), s, command, reason, stamps.reject);
        }
    }
  }

  /** A command stopped at a gate is rejected; one that is throttled is not reported on the order. */
  predicate RouteRefused(state: OrderState, open: bool, throttled: bool, size: real, outcome: VenueOutcome) {
    if !open then PastReject(state) else !throttled && AnswerRefused(state, size, outcome)
  }

  function RoutedState(state: OrderState, open: bool, throttled: bool, outcome: VenueOutcome): OrderState {
    if !open then Rejected else if throttled then state else AnsweredState(state, outcome)
  }

  /** The same for a whole submit command, its gates and tactics included. */
  lemma RoutedReplayableIff(b: Bus, s: Store, enabled: bool, config: Config, command: SubmitOrderCommand,
                            throttled: bool, outcome: VenueOutcome, stamps: Stamps)
    requires Rebuild(b) == Some(s) && Logged(s, command)
    requires stamps.first.id !in b.log.ids && FreshAnswer(b.log.Append(OtherEvent(stamps.first)), stamps)
    ensures var state := s.orders[command.orderId].state;
            var open := enabled && (config.paperMode || command.intent.strategyId in config.activeStrategies);
            ComesOut(s, Rebuild(Routed(b, enabled, config, command, throttled, outcome, stamps)), command.orderId,
                     RouteRefused(state, open, throttled, command.intent.size, outcome),
                     open && (throttled || Silent(outcome)),
                     RoutedState(state, open, throttled, outcome))
  {
    hide Rebuild, OrderAfter, Conclude;
    if !enabled {
      RejectPublished(b, s, command, EXECUTION_DISABLED, stamps.first);
    } else if !config.StrategyActive(command) {
      RejectPublished(b, s, command, STRATEGY_NOT_ACTIVE, stamps.first);
    } else {
      OtherPublished(b, ExecutionRequestsTopic, stamps.first);
      var admitted := b.Publish(ExecutionRequestsTopic, EventMessage(OtherEvent(stamps.first)));
      if throttled {
        OtherPublished(admitted, ExecutionErrorsTopic, stamps.error);
      } else {
        AnswerReplayableIff(admitted, s, command, outcome, stamps);
      }
    }
  }

  // ---- What a submit command publishes -------------------------------------------------

  /** Everything the router publishes for a submit command, in order. */
  function PostsOf(enabled: bool, config: Config, command: SubmitOrderCommand, throttled: bool,
                   outcome: VenueOutcome, stamps: Stamps): seq<Post> {
    var id, size := command.orderId, command.intent.size;
    var request := Post(ExecutionRequestsTopic, EventMessage(OtherEvent(stamps.first)));
    var response := Post(ExecutionResponsesTopic, EventMessage(OtherEvent(stamps.response)));
    var error := Post(ExecutionErrorsTopic, EventMessage(OtherEvent(stamps.error)));
    if !enabled then
      [Post(OrderRejectsTopic, EventMessage(RejectedEvent(stamps.first, id, EXECUTION_DISABLED)))]
    else if !config.paperMode && command.intent.strategyId !in config.activeStrategies then
      [Post(OrderRejectsTopic, EventMessage(RejectedEvent(stamps.first, id, STRATEGY_NOT_ACTIVE)))]
    else if throttled then [request, error]
    else
      match outcome
      case Placed(v) => [request, response, Post(OrderAcksTopic, EventMessage(AckEvent(stamps.ack, id, v)))]
      case FilledAt(v, price) =>
        if 0.0 < price <= 1.0 then
          [request, response,
           Post(FillsTopic, EventMessage(FillEvent(stamps.fill, id, stamps.fill.id, size, price, 0.0, Some(v)))),
           Post(OrderAcksTopic, EventMessage(AckEvent(stamps.ack, id, v)))]
        else
          [request, response, error,
           Post(OrderRejectsTopic, EventMessage(RejectedEvent(stamps.reject, id, INVALID_FILL)))]
      case Failed(fatal, reason) =>
        if fatal then
          [request, error, Post(OrderRejectsTopic, EventMessage(RejectedEvent(stamps.reject, id, reason)))]
        else [request, error]
  }

  lemma UpToFour(b: Bus, posts: seq<Post>)
    requires 1 <= |posts| <= 4
    ensures var b1 := b.Publish(posts[0].topic, posts[0].message);
            && (|posts| == 1 ==> PublishAll(b, posts) == b1)
            && (|posts| >= 2 ==>
                  var b2 := b1.Publish(posts[1].topic, posts[1].message);
                  && (|posts| == 2 ==> PublishAll(b, posts) == b2)
                  && (|posts| >= 3 ==>
                        var b3 := b2.Publish(posts[2].topic, posts[2].message);
                        && (|posts| == 3 ==> PublishAll(b, posts) == b3)
                        && (|posts| == 4 ==>
                              PublishAll(b, posts) == b3.Publish(posts[3].topic, posts[3].message))))
  {
    hide Bus.Publish;
    assert posts[..1][..0] == [];
    assert |posts| >= 2 ==> posts[..2][..1] == posts[..1];
    assert |posts| >= 3 ==> posts[..3][..2] == posts[..2];
    assert |posts| == 4 ==> posts[..4][..3] == posts[..3];
    assert posts[..|posts|] == posts;
    assert PublishAll(b, posts[..1]) == b.Publish(posts[0].topic, posts[0].message);
  }

  lemma RoutedIsPosted(b: Bus, enabled: bool, config: Config, command: SubmitOrderCommand, throttled: bool,
                       outcome: VenueOutcome, stamps: Stamps)
    ensures Routed(b, enabled, config, command, throttled, outcome, stamps) ==
            PublishAll(b, PostsOf(enabled, config, command, throttled, outcome, stamps))
  {
    hide Bus.Publish, PublishAll;
    UpToFour(b, PostsOf(enabled, config, command, throttled, outcome, stamps));
  }

  /** For every submit command each topic gains exactly what is posted on it, in order, and the log
      exactly the events posted. */
  lemma RoutedPosts(b: Bus, enabled: bool, config: Config, command: SubmitOrderCommand, throttled: bool,
                    outcome: VenueOutcome, stamps: Stamps, t: Topic)
    ensures var posts := PostsOf(enabled, config, command, throttled, outcome, stamps);
            var b' := Routed(b, enabled, config, command, throttled, outcome, stamps);
            && Sent(b, b', t, OnTopic(posts, t))
            && (FreshIds(EventsIn(posts), b.log.ids) ==> b'.log.events == b.log.events + EventsIn(posts))
  {
    hide Routed, PostsOf, Sent;
    var posts := PostsOf(enabled, config, command, throttled, outcome, stamps);
    RoutedIsPosted(b, enabled, config, command, throttled, outcome, stamps);
    PublishAllSends(b, posts, t);
    if FreshIds(EventsIn(posts), b.log.ids) {
      PublishAllLogs(b, posts);
    }
  }
}
