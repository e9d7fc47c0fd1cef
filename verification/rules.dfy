/** The default rules engine: an ordered table of (condition, outcome) rows
    evaluated top to bottom, the first row whose condition holds deciding
    the strategy and the side effects. */
module Rules {
  import opened Wrappers
  import opened Contract
  import opened Scoring

  /** `_high_risk_order`: high value, fraud-flagged, or disputed. These are
      exactly the factors the scorer weights, so an order is high risk
      exactly when its score is positive. */
  predicate HighRiskOrder(o: Order, cfg: PolicyConfig): (b: bool)
    ensures b <==> Score(o, cfg) > 0
  {
    o.totalAmount >= cfg.highValueAmountThreshold || o.isFlaggedFraudRisk || o.hasOpenDispute
  }

  /** Rule 1: an unauthenticated caller on the voice channel or from a
      strict-authentication country. */
  predicate AuthGateHolds(ctx: CustomerContext, cfg: PolicyConfig) {
    !ctx.authenticated && (ctx.channel == Voice || ctx.country in cfg.strictAuthCountries)
  }

  /** Rule 2: a high-risk order in a regulated country, many recent AI
      failures, or low AI confidence. */
  predicate MandatoryHumanHolds(ctx: CustomerContext, o: Order, cfg: PolicyConfig) {
    || (ctx.country in cfg.regulatedCountries && HighRiskOrder(o, cfg))
    || ctx.recentFailedAiAttempts >= cfg.manyRecentAiFailuresThreshold
    || ctx.aiConfidence < cfg.minAiConfidence
  }

  predicate IsTrackOrder(ctx: CustomerContext) {
    ctx.action == Recognized(TrackOrder)
  }

  predicate InTransit(o: Order) {
    o.status == Shipped || o.status == Unknown
  }

  /** The conditions of the table's rows. */
  datatype Condition =
    | AuthGate
    | MandatoryHumanGate
    | ActionIs(action: CustomerAction)
    | TrackDeliveredVipVoice
    | TrackDeliveredVipWebchat
    | TrackDeliveredNonVip
    | TrackInTransitWebchat
    | TrackInTransitVoice
    | TrackCancelledUsVoice
    | Always

  predicate Holds(c: Condition, ctx: CustomerContext, o: Order, cfg: PolicyConfig) {
    match c
    case AuthGate => AuthGateHolds(ctx, cfg)
    case MandatoryHumanGate => MandatoryHumanHolds(ctx, o, cfg)
    case ActionIs(a) => ctx.action == Recognized(a)
    case TrackDeliveredVipVoice =>
      IsTrackOrder(ctx) && o.status == Delivered && ctx.isVip && ctx.channel == Voice
    case TrackDeliveredVipWebchat =>
      IsTrackOrder(ctx) && o.status == Delivered && ctx.isVip && ctx.channel == Webchat
    case TrackDeliveredNonVip =>
      IsTrackOrder(ctx) && o.status == Delivered && !ctx.isVip
    case TrackInTransitWebchat =>
      IsTrackOrder(ctx) && InTransit(o) && ctx.channel == Webchat
    case TrackInTransitVoice =>
      IsTrackOrder(ctx) && InTransit(o) && ctx.channel == Voice
    case TrackCancelledUsVoice =>
      IsTrackOrder(ctx) && o.status == Cancelled && ctx.country == "US" && ctx.channel == Voice
    case Always => true
  }

  /** One row: a condition, the strategy it yields and the side effect, if
      any, it attaches to the selected order. */
  datatype Rule = Rule(condition: Condition, strategy: Strategy, effect: Option<SideEffectType>)

  /** The table, in precedence order. */
  const Table: seq<Rule> := [
    Rule(AuthGate, AuthRequired, Some(RequireAuthStepUp)),
    Rule(MandatoryHumanGate, MandatoryHuman, Some(EscalateToAgentQueue)),
    Rule(ActionIs(OpenDispute), AiWithHumanFallback, Some(CreateDisputeCase)),
    Rule(ActionIs(RequestRefund), AiWithHumanFallback, Some(CreateRefundCase)),
    Rule(ActionIs(CancelOrder), AiWithHumanFallback, None),
    Rule(TrackDeliveredVipVoice, AiWithHumanFallback, None),
    Rule(TrackDeliveredVipWebchat, AiDetailed, None),
    Rule(TrackDeliveredNonVip, AiSimple, None),
    Rule(TrackInTransitWebchat, AiDetailed, None),
    Rule(TrackInTransitVoice, AiSimple, None),
    Rule(TrackCancelledUsVoice, AiWithHumanFallback, None),
    Rule(Always, AiSimple, None)
  ]

  /** A decision: the strategy and the implied side effects. */
  type Decision = (Strategy, seq<SideEffect>)

  /** The outcome of a row for the selected order `o`. */
  function Fire(rule: Rule, o: Order): (d: Decision)
    ensures d.0 == rule.strategy
    ensures |d.1| <= 1
    ensures forall e :: e in d.1 ==> e.orderId == Some(o.orderId)
    ensures d.1 == [] <==> rule.effect.None?
  {
    match rule.effect
    case Some(t) => (rule.strategy, [SideEffect(t, Some(o.orderId))])
    case None => (rule.strategy, [])
  }

  /** The index of the first row, at or after `from`, whose condition holds;
      `|rules|` when there is none. */
  function FirstMatch(rules: seq<Rule>, ctx: CustomerContext, o: Order, cfg: PolicyConfig, from: nat): (i: nat)
    requires from <= |rules|
    decreases |rules| - from
    ensures from <= i <= |rules|
    ensures i < |rules| ==> Holds(rules[i].condition, ctx, o, cfg)
    ensures forall j :: from <= j < i ==> !Holds(rules[j].condition, ctx, o, cfg)
  {
    if from == |rules| then |rules|
    else if Holds(rules[from].condition, ctx, o, cfg) then from
    else FirstMatch(rules, ctx, o, cfg, from + 1)
  }

  /** The last row always holds, so the scan always stops on a row. */
  lemma TableIsTotal(ctx: CustomerContext, o: Order, cfg: PolicyConfig)
    ensures FirstMatch(Table, ctx, o, cfg, 0) < |Table|
  {
    assert Holds(Table[|Table| - 1].condition, ctx, o, cfg);
  }

  /** `evaluate`: the outcome of the first matching row; the scan's own
      fallback after the table, AI_SIMPLE with no side effects, is kept
      although the last row makes it unreachable. */
  function Evaluate(ctx: CustomerContext, o: Order, cfg: PolicyConfig): (d: Decision)
    ensures d.0 != NoOrdersFound
    ensures |d.1| <= 1
    ensures forall e :: e in d.1 ==> e.orderId == Some(o.orderId)
  {
    var i := FirstMatch(Table, ctx, o, cfg, 0);
    if i < |Table| then
      assert Table[i] in Table;
      Fire(Table[i], o)
    else (AiSimple, [])
  }

  /** The decision table written out as nested cases, rule group by rule
      group: auth gate, mandatory human, action-specific rows, track-order
      routing, fallback. */
  function DecisionTable(ctx: CustomerContext, o: Order, cfg: PolicyConfig): (d: Decision)
  {
    if AuthGateHolds(ctx, cfg) then
      (AuthRequired, [SideEffect(RequireAuthStepUp, Some(o.orderId))])
    else if MandatoryHumanHolds(ctx, o, cfg) then
      (MandatoryHuman, [SideEffect(EscalateToAgentQueue, Some(o.orderId))])
    else match ctx.action
      case Unrecognized => (AiSimple, [])
      case Recognized(a) =>
        match a
        case OpenDispute =>
          (AiWithHumanFallback, [SideEffect(CreateDisputeCase, Some(o.orderId))])
        case RequestRefund =>
          (AiWithHumanFallback, [SideEffect(CreateRefundCase, Some(o.orderId))])
        case CancelOrder => (AiWithHumanFallback, [])
        case TrackOrder =>
          match o.status
          case Delivered =>
            if !ctx.isVip then (AiSimple, [])
            else if ctx.channel == Voice then (AiWithHumanFallback, [])
            else (AiDetailed, [])
          case Shipped | Unknown =>
            if ctx.channel == Webchat then (AiDetailed, []) else (AiSimple, [])
          case Cancelled =>
            if ctx.country == "US" && ctx.channel == Voice then (AiWithHumanFallback, [])
            else (AiSimple, [])
  }

  /** The table and the nested cases agree when one of the first five rows,
      the gates and the action-specific rows, decides. */
  lemma {:induction false} AgreesOnGateRows(ctx: CustomerContext, o: Order, cfg: PolicyConfig)
    requires FirstMatch(Table, ctx, o, cfg, 0) < 5
    ensures Evaluate(ctx, o, cfg) == DecisionTable(ctx, o, cfg)
  {
    var i := FirstMatch(Table, ctx, o, cfg, 0);
    if i == 0 {
    } else if i == 1 {
    } else if i == 2 {
    } else if i == 3 {
    } else {
    }
  }

  /** The table and the nested cases agree when a delivered-order row
      decides. */
  lemma {:induction false} AgreesOnDeliveredRows(ctx: CustomerContext, o: Order, cfg: PolicyConfig)
    requires 5 <= FirstMatch(Table, ctx, o, cfg, 0) < 8
    ensures Evaluate(ctx, o, cfg) == DecisionTable(ctx, o, cfg)
  {
    var i := FirstMatch(Table, ctx, o, cfg, 0);
    assert !AuthGateHolds(ctx, cfg) && !MandatoryHumanHolds(ctx, o, cfg);
    if i == 5 {
    } else if i == 6 {
    } else {
    }
  }

  /** The table and the nested cases agree when an in-transit row decides. */
  lemma {:induction false} AgreesOnInTransitRows(ctx: CustomerContext, o: Order, cfg: PolicyConfig)
    requires 8 <= FirstMatch(Table, ctx, o, cfg, 0) < 10
    ensures Evaluate(ctx, o, cfg) == DecisionTable(ctx, o, cfg)
  {
    var i := FirstMatch(Table, ctx, o, cfg, 0);
    assert !AuthGateHolds(ctx, cfg) && !MandatoryHumanHolds(ctx, o, cfg);
    if i == 8 {
    } else {
    }
  }

  /** The table and the nested cases agree when the cancelled-order row or
      the fallback decides. */
  lemma {:induction false} AgreesOnLastRows(ctx: CustomerContext, o: Order, cfg: PolicyConfig)
    requires 10 <= FirstMatch(Table, ctx, o, cfg, 0)
    ensures Evaluate(ctx, o, cfg) == DecisionTable(ctx, o, cfg)
  {
    TableIsTotal(ctx, o, cfg);
    var i := FirstMatch(Table, ctx, o, cfg, 0);
    assert !AuthGateHolds(ctx, cfg) && !MandatoryHumanHolds(ctx, o, cfg);
    assert !(IsTrackOrder(ctx) && (o.status == Delivered || InTransit(o)));
    if i == 10 {
    } else {
    }
  }

  /** The ordered table decides exactly as the nested case analysis: the
      precedence of the groups is the table's row order. */
  lemma {:induction false} EvaluateIsDecisionTable(ctx: CustomerContext, o: Order, cfg: PolicyConfig)
    ensures Evaluate(ctx, o, cfg) == DecisionTable(ctx, o, cfg)
  {
    var i := FirstMatch(Table, ctx, o, cfg, 0);
    if i < 5 {
      AgreesOnGateRows(ctx, o, cfg);
    } else if i < 8 {
      AgreesOnDeliveredRows(ctx, o, cfg);
    } else if i < 10 {
      AgreesOnInTransitRows(ctx, o, cfg);
    } else {
      AgreesOnLastRows(ctx, o, cfg);
    }
  }

  /** The auth gate wins over mandatory human handoff: an unauthenticated
      voice or strict-auth-country request is challenged for authentication
      whatever its risk, failure count or confidence. */
  lemma AuthGateBeatsMandatoryHuman(ctx: CustomerContext, o: Order, cfg: PolicyConfig)
    requires AuthGateHolds(ctx, cfg) && MandatoryHumanHolds(ctx, o, cfg)
    ensures Evaluate(ctx, o, cfg) == (AuthRequired, [SideEffect(RequireAuthStepUp, Some(o.orderId))])
  {
    EvaluateIsDecisionTable(ctx, o, cfg);
  }

  /** Which rows attach a side effect: only the auth gate, mandatory human,
      dispute and refund rows; cancellation, track-order routing and the
      fallback attach none. */
  lemma SideEffectsByStrategy(ctx: CustomerContext, o: Order, cfg: PolicyConfig)
    ensures var d := Evaluate(ctx, o, cfg);
            && (d.0 == AuthRequired <==> d.1 == [SideEffect(RequireAuthStepUp, Some(o.orderId))])
            && (d.0 == MandatoryHuman <==> d.1 == [SideEffect(EscalateToAgentQueue, Some(o.orderId))])
            && (d.0 in {AiSimple, AiDetailed} ==> d.1 == [])
            && (d.1 != [] <==> AuthGateHolds(ctx, cfg) || MandatoryHumanHolds(ctx, o, cfg)
                               || ctx.action in {Recognized(OpenDispute), Recognized(RequestRefund)})
  {
    EvaluateIsDecisionTable(ctx, o, cfg);
  }

  /** If any order is high risk then so is the selected one, since the
      selected order has the greatest score. */
  lemma {:induction false} SelectedIsHighRiskIfAny(orders: seq<Order>, cfg: PolicyConfig)
    requires |orders| > 0
    ensures HighRiskOrder(Select(orders, cfg), cfg) <==>
              exists j :: 0 <= j < |orders| && HighRiskOrder(orders[j], cfg)
  {
    var o := Select(orders, cfg);
    if j :| 0 <= j < |orders| && HighRiskOrder(orders[j], cfg) {
      assert orders[j] in orders;
    }
    var k :| IsEarliestMax(orders, k, cfg) && o == orders[k];
    assert 0 <= k < |orders| && orders[k] == o;
  }
}
