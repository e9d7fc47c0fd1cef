/** Worked requests through the whole pipeline under the default policy,
    with the health gate reporting the upstream as available. */
module Scenarios {
  import opened Wrappers
  import opened Contract
  import opened Validation
  import Service
  import Rules
  import Scoring
  import opened Consumer

  const CustomerId := "CUST-123456"
  const OrderId := "ORD-12345678"

  /** A tracking request by a non-VIP customer, with high AI confidence. */
  function TrackRequest(customerId: string, authenticated: bool, channel: Channel, country: string,
                        attempts: int, orders: seq<Order>): CustomerContext {
    CustomerContext(
      action := Recognized(TrackOrder),
      customerId := customerId,
      country := country,
      isVip := false,
      authenticated := authenticated,
      channel := channel,
      orders := Some(orders),
      recentFailedAiAttempts := attempts,
      aiConfidence := 0.9)
  }

  lemma IdsValid()
    ensures ValidId(CustomerId, 6, 36) && ValidId(OrderId, 8, 32)
    ensures ValidCountryFormat("US", DefaultPolicy()) && ValidCountryFormat("DE", DefaultPolicy())
  {
    assert forall i :: 0 <= i < |CustomerId| ==> IsIdChar(CustomerId[i]);
    assert forall i :: 0 <= i < |OrderId| ==> IsIdChar(OrderId[i]);
    assert forall i :: 0 <= i < 2 ==> IsAsciiUpper("US"[i]) && IsAsciiUpper("DE"[i]);
  }

  /** The requests below pass validation. */
  lemma TrackRequestValid(customerId: string, authenticated: bool, channel: Channel, country: string,
                          attempts: int, orders: seq<Order>)
    requires ValidId(customerId, 6, 36)
    requires country == "US" || country == "DE"
    requires 0 <= attempts <= 5
    requires forall j :: 0 <= j < |orders| ==>
               ValidId(orders[j].orderId, 8, 32) && 0.0 <= orders[j].totalAmount <= 1000000.0
               && 0 <= orders[j].itemCount <= 999
    ensures Validate(TrackRequest(customerId, authenticated, channel, country, attempts, orders),
                     DefaultPolicy()).Pass?
  {
    var ctx := TrackRequest(customerId, authenticated, channel, country, attempts, orders);
    assert FieldsOk(ctx, DefaultPolicy());
    assert forall j :: 0 <= j < |orders| ==> CheckOrder(orders[j], DefaultPolicy()).Pass?;
  }

  /** The decision for a valid request about the single order `o`. */
  lemma SingleOrderDecision(ctx: CustomerContext, o: Order)
    requires Validate(ctx, DefaultPolicy()).Pass? && ctx.orders == Some([o])
    ensures var d := Rules.DecisionTable(ctx, o, DefaultPolicy());
            Service.DecideStrategy(Service.Available, ctx, DefaultPolicy()) == Ok((d.0.Name(), d.1))
  {
    Service.DecideStrategyFollowsTable(ctx, DefaultPolicy());
    assert Scoring.IsEarliestMax([o], 0, DefaultPolicy());
  }

  /** An order that passes validation and carries no risk factor. */
  predicate PlainOrder(o: Order) {
    ValidId(o.orderId, 8, 32) && 0.0 <= o.totalAmount < 1000.0 && 0 <= o.itemCount <= 999
    && !o.isFlaggedFraudRisk && !o.hasOpenDispute
  }

  /** The caller outcomes and wire forms of the answers the scenarios
      reach. */
  lemma WireForms(orderId: Option<string>)
    ensures OutcomeOf(Strategy.AuthRequired) == CallerOutcome.AuthRequired
    ensures OutcomeOf(Strategy.AiSimple) == CallerOutcome.AiSimple
    ensures OutcomeOf(Strategy.MandatoryHuman) == CallerOutcome.MandatoryHuman
    ensures Serialize(SideEffect(RequireAuthStepUp, orderId))
            == SerializedSideEffect(RequireAuthStepUp.Name(), orderId)
    ensures Serialize(SideEffect(EscalateToAgentQueue, orderId))
            == SerializedSideEffect(EscalateToAgentQueue.Name(), orderId)
  {
  }

  /** A request whose provider call succeeds with a strategy and a single
      side effect is answered with the outcome of that strategy and the
      effect serialized. */
  lemma AnsweredWithOne(ctx: CustomerContext, cfg: PolicyConfig, s: Strategy, e: SideEffect)
    requires Service.DecideStrategy(Service.Available, ctx, cfg) == Ok((s.Name(), [e]))
    ensures var r := DecideRequest(Service.Available, ctx, cfg);
            r.outcome == OutcomeOf(s) && r.sideEffects == Some([Serialize(e)])
  {
    assert SerializeAll([e]) == [Serialize(e)];
  }

  /** The same with no side effect. */
  lemma AnsweredWithNone(ctx: CustomerContext, cfg: PolicyConfig, s: Strategy)
    requires Service.DecideStrategy(Service.Available, ctx, cfg) == Ok((s.Name(), []))
    ensures var r := DecideRequest(Service.Available, ctx, cfg);
            r.outcome == OutcomeOf(s) && r.sideEffects == Some([])
  {
  }

  /** The provider's answer to the request of `ScenarioAuthRequired`. */
  lemma AuthRequiredStrategy(customerId: string, o: Order, channel: Channel, country: string)
    requires ValidId(customerId, 6, 36) && PlainOrder(o) && (country == "US" || country == "DE")
    ensures Service.DecideStrategy(Service.Available, TrackRequest(customerId, false, channel, country, 0, [o]), DefaultPolicy())
            == Ok((Strategy.AuthRequired.Name(), [SideEffect(RequireAuthStepUp, Some(o.orderId))]))
  {
    var ctx := TrackRequest(customerId, false, channel, country, 0, [o]);
    TrackRequestValid(customerId, false, channel, country, 0, [o]);
    SingleOrderDecision(ctx, o);
    assert Rules.AuthGateHolds(ctx, DefaultPolicy());
  }

  /** An unauthenticated request from a strict-authentication country (the
      US or Germany) is challenged for authentication on either channel,
      the step-up tied to its order, for any order with no risk factor. */
  lemma ScenarioAuthRequired(customerId: string, o: Order, channel: Channel, country: string)
    requires ValidId(customerId, 6, 36) && PlainOrder(o) && (country == "US" || country == "DE")
    ensures DecideRequest(Service.Available, TrackRequest(customerId, false, channel, country, 0, [o]),
                          DefaultPolicy()).outcome
            == CallerOutcome.AuthRequired
    ensures DecideRequest(Service.Available, TrackRequest(customerId, false, channel, country, 0, [o]),
                          DefaultPolicy()).sideEffects
            == Some([SerializedSideEffect(RequireAuthStepUp.Name(), Some(o.orderId))])
  {
    AuthRequiredStrategy(customerId, o, channel, country);
    WireForms(Some(o.orderId));
    AnsweredWithOne(TrackRequest(customerId, false, channel, country, 0, [o]), DefaultPolicy(),
                    Strategy.AuthRequired, SideEffect(RequireAuthStepUp, Some(o.orderId)));
  }

  /** The provider's answer to the request of `ScenarioSimple`. */
  lemma SimpleStrategy(customerId: string, o: Order)
    requires ValidId(customerId, 6, 36) && PlainOrder(o) && o.status == Delivered
    ensures Service.DecideStrategy(Service.Available, TrackRequest(customerId, true, Webchat, "DE", 0, [o]), DefaultPolicy())
            == Ok((Strategy.AiSimple.Name(), []))
  {
    var ctx := TrackRequest(customerId, true, Webchat, "DE", 0, [o]);
    TrackRequestValid(customerId, true, Webchat, "DE", 0, [o]);
    SingleOrderDecision(ctx, o);
    assert !Rules.MandatoryHumanHolds(ctx, o, DefaultPolicy());
  }

  /** An authenticated, non-VIP webchat request about a delivered order with
      no risk factor is answered by the simple automated tier. */
  lemma ScenarioSimple(customerId: string, o: Order)
    requires ValidId(customerId, 6, 36) && PlainOrder(o) && o.status == Delivered
    ensures var r := DecideRequest(Service.Available, TrackRequest(customerId, true, Webchat, "DE", 0, [o]), DefaultPolicy());
            r.outcome == CallerOutcome.AiSimple && r.sideEffects == Some([])
  {
    SimpleStrategy(customerId, o);
    WireForms(Some(o.orderId));
    AnsweredWithNone(TrackRequest(customerId, true, Webchat, "DE", 0, [o]), DefaultPolicy(), Strategy.AiSimple);
  }

  /** The provider's answer to the request of `ScenarioManyFailures`. */
  lemma ManyFailuresStrategy(customerId: string, o: Order, channel: Channel, country: string, attempts: int)
    requires ValidId(customerId, 6, 36) && PlainOrder(o) && (country == "US" || country == "DE") && 2 <= attempts <= 5
    ensures Service.DecideStrategy(Service.Available, TrackRequest(customerId, true, channel, country, attempts, [o]),
                                   DefaultPolicy())
            == Ok((Strategy.MandatoryHuman.Name(), [SideEffect(EscalateToAgentQueue, Some(o.orderId))]))
  {
    var ctx := TrackRequest(customerId, true, channel, country, attempts, [o]);
    TrackRequestValid(customerId, true, channel, country, attempts, [o]);
    SingleOrderDecision(ctx, o);
    assert Rules.MandatoryHumanHolds(ctx, o, DefaultPolicy());
  }

  /** An authenticated request with at least two failed AI attempts, the
      threshold, and at most five, the most validation allows, goes to a
      human, for any order with no risk factor. */
  lemma ScenarioManyFailures(customerId: string, o: Order, channel: Channel, country: string, attempts: int)
    requires ValidId(customerId, 6, 36) && PlainOrder(o) && (country == "US" || country == "DE") && 2 <= attempts <= 5
    ensures DecideRequest(Service.Available, TrackRequest(customerId, true, channel, country, attempts, [o]),
                          DefaultPolicy()).outcome
            == CallerOutcome.MandatoryHuman
    ensures DecideRequest(Service.Available, TrackRequest(customerId, true, channel, country, attempts, [o]),
                          DefaultPolicy()).sideEffects
            == Some([SerializedSideEffect(EscalateToAgentQueue.Name(), Some(o.orderId))])
  {
    ManyFailuresStrategy(customerId, o, channel, country, attempts);
    WireForms(Some(o.orderId));
    AnsweredWithOne(TrackRequest(customerId, true, channel, country, attempts, [o]), DefaultPolicy(),
                    Strategy.MandatoryHuman, SideEffect(EscalateToAgentQueue, Some(o.orderId)));
  }

  const DeliveredOrder := Order(OrderId, 50.0, 1, Delivered, false, false)

  /** With no orders the answer is NO_ORDERS_FOUND. */
  lemma ScenarioNoOrders()
    ensures DecideRequest(Service.Available, TrackRequest(CustomerId, true, Webchat, "DE", 0, []), DefaultPolicy()).outcome
            == CallerOutcome.NoOrdersFound
  {
    IdsValid();
    TrackRequestValid(CustomerId, true, Webchat, "DE", 0, []);
  }

  /** A two-character customer id is a bad request named after the
      customer-id validation class, and no strategy is computed. */
  lemma ScenarioShortCustomerId()
    ensures var ctx := TrackRequest("ab", true, Webchat, "DE", 0, [DeliveredOrder]);
            var r := DecideRequest(Service.Available, ctx, DefaultPolicy());
            && r.outcome == BadRequest
            && r.errorCode == Some("InvalidCustomerIdException")
            && r.strategy == None
  {
  }

  /** When the upstream is down, even an invalid request is answered
      UPSTREAM_UNAVAILABLE: the health gate runs before validation. */
  lemma ScenarioUpstreamDown()
    ensures var ctx := TrackRequest("ab", true, Webchat, "DE", 0, [DeliveredOrder]);
            var r := DecideRequest(Service.Unavailable, ctx, DefaultPolicy());
            r.outcome == UpstreamUnavailable && r.errorCode == Some("UPSTREAM_UNAVAILABLE") && r.strategy == None
  {
  }
}
