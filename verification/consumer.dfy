/** The consumer-facing adapter: turns whatever the provider returns, or
    any `Exception` it raises, into a `DecisionResponse`, catching, from the
    most specific down, upstream unavailability, validation failures, other
    domain failures and any other `Exception`. */
module Consumer {
  import opened Wrappers
  import opened Contract
  import opened Validation
  import Service

  /** The strategies plus the three failure buckets. */
  datatype CallerOutcome =
    | AiSimple
    | AiDetailed
    | AiWithHumanFallback
    | MandatoryHuman
    | NoOrdersFound
    | AuthRequired
    | BadRequest
    | UpstreamUnavailable
    | InternalError
  {
    function Name(): string {
      match this
      case AiSimple => "AI_SIMPLE"
      case AiDetailed => "AI_DETAILED"
      case AiWithHumanFallback => "AI_WITH_HUMAN_FALLBACK"
      case MandatoryHuman => "MANDATORY_HUMAN"
      case NoOrdersFound => "NO_ORDERS_FOUND"
      case AuthRequired => "AUTH_REQUIRED"
      case BadRequest => "BAD_REQUEST"
      case UpstreamUnavailable => "UPSTREAM_UNAVAILABLE"
      case InternalError => "INTERNAL_ERROR"
    }

    /** One of the six outcomes that report a strategy. */
    predicate IsStrategyOutcome() {
      !(BadRequest? || UpstreamUnavailable? || InternalError?)
    }
  }

  /** A side effect as the caller receives it: the effect type's name and
      the order id. */
  datatype SerializedSideEffect = SerializedSideEffect(effectType: string, orderId: Option<string>)

  /** The adapter's answer. The source's human-readable `error_message` is
      not modelled. */
  datatype DecisionResponse = DecisionResponse(
    outcome: CallerOutcome,
    strategy: Option<string>,
    selectedOrderId: Option<string>,
    reasons: Option<seq<string>>,
    sideEffects: Option<seq<SerializedSideEffect>>,
    errorCode: Option<string>
  )

  const UpstreamUnavailableCode := "UPSTREAM_UNAVAILABLE"
  const TrackingStrategyErrorCode := "TRACKING_STRATEGY_ERROR"
  const UnexpectedErrorCode := "UNEXPECTED_ERROR"

  /** `_STRATEGY_TO_OUTCOME`: each strategy's name to the outcome of the
      same name. */
  const StrategyToOutcome: map<string, CallerOutcome> := map[
    Strategy.AiSimple.Name() := CallerOutcome.AiSimple,
    Strategy.AiDetailed.Name() := CallerOutcome.AiDetailed,
    Strategy.AiWithHumanFallback.Name() := CallerOutcome.AiWithHumanFallback,
    Strategy.MandatoryHuman.Name() := CallerOutcome.MandatoryHuman,
    Strategy.NoOrdersFound.Name() := CallerOutcome.NoOrdersFound,
    Strategy.AuthRequired.Name() := CallerOutcome.AuthRequired
  ]

  /** The outcome of the same name as a strategy. */
  function OutcomeOf(s: Strategy): (o: CallerOutcome)
    ensures o.Name() == s.Name() && o.IsStrategyOutcome()
  {
    match s
    case AiSimple => CallerOutcome.AiSimple
    case AiDetailed => CallerOutcome.AiDetailed
    case AiWithHumanFallback => CallerOutcome.AiWithHumanFallback
    case MandatoryHuman => CallerOutcome.MandatoryHuman
    case NoOrdersFound => CallerOutcome.NoOrdersFound
    case AuthRequired => CallerOutcome.AuthRequired
  }

  /** `_STRATEGY_TO_OUTCOME.get(name, INTERNAL_ERROR)`: a strategy's name
      maps to the outcome of the same name, and any other name, defensively,
      to INTERNAL_ERROR. */
  function OutcomeForName(name: string): (o: CallerOutcome)
    ensures o.IsStrategyOutcome() || o == InternalError
    ensures forall s: Strategy :: s.Name() == name ==> o == OutcomeOf(s)
    ensures (forall s: Strategy :: s.Name() != name) ==> o == InternalError
  {
    if name in StrategyToOutcome then StrategyToOutcome[name] else InternalError
  }

  /** `_serialize_side_effect`. */
  function Serialize(se: SideEffect): (r: SerializedSideEffect)
    ensures Deserialize(r) == Some(se)
  {
    SerializedSideEffect(se.effectType.Name(), se.orderId)
  }

  /** Every side effect serialized, in order. */
  function SerializeAll(effects: seq<SideEffect>): (r: seq<SerializedSideEffect>)
    ensures |r| == |effects|
    ensures forall i :: 0 <= i < |effects| ==> r[i] == Serialize(effects[i])
  {
    if effects == [] then [] else [Serialize(effects[0])] + SerializeAll(effects[1..])
  }

  /** Reads a serialized side effect back, by effect type name. */
  function Deserialize(s: SerializedSideEffect): Option<SideEffect> {
    var t :=
      if s.effectType == CreateRefundCase.Name() then Some(CreateRefundCase)
      else if s.effectType == CreateDisputeCase.Name() then Some(CreateDisputeCase)
      else if s.effectType == EscalateToAgentQueue.Name() then Some(EscalateToAgentQueue)
      else if s.effectType == RequireAuthStepUp.Name() then Some(RequireAuthStepUp)
      else None;
    if t.Some? then Some(SideEffect(t.value, s.orderId)) else None
  }

  /** Reading back and serializing again restores any wire form that
      reads back at all. */
  lemma DeserializeRoundTrip(s: SerializedSideEffect)
    ensures Deserialize(s).Some? ==> Serialize(Deserialize(s).value) == s
  {
  }

  /** The translation of a provider call's result: `strategy_name,
      side_effects` on success, or the failure it raised. */
  function Decide(provided: Result<Service.StrategyResult, Failure>): (r: DecisionResponse)
    ensures r.selectedOrderId == None && r.reasons == None
    ensures r.strategy.Some? <==> r.errorCode.None?
    ensures r.strategy.Some? <==> r.sideEffects.Some?
    ensures provided.Ok? ==>
              && r.strategy == Some(provided.value.0)
              && r.outcome == OutcomeForName(provided.value.0)
              && r.errorCode == None
              && r.sideEffects.Some?
              && |r.sideEffects.value| == |provided.value.1|
              && forall i :: 0 <= i < |provided.value.1| ==>
                   && r.sideEffects.value[i].effectType == provided.value.1[i].effectType.Name()
                   && r.sideEffects.value[i].orderId == provided.value.1[i].orderId
    ensures provided.Err? ==> r.strategy == None && r.sideEffects == None
    ensures provided.Err? && provided.error.IsInstance(UpstreamOrderPlatformUnavailableException) ==>
              r.outcome == UpstreamUnavailable && r.errorCode == Some(UpstreamUnavailableCode)
    ensures provided.Err? && !provided.error.IsInstance(UpstreamOrderPlatformUnavailableException)
            && provided.error.IsInstance(ContextValidationException) ==>
              r.outcome == BadRequest && r.errorCode == Some(provided.error.ClassName())
    ensures provided.Err? && !provided.error.IsInstance(ContextValidationException)
            && !provided.error.IsInstance(UpstreamOrderPlatformUnavailableException)
            && provided.error.IsInstance(TrackingStrategyException) ==>
              r.outcome == InternalError && r.errorCode == Some(TrackingStrategyErrorCode)
    ensures provided.Err? && !provided.error.IsInstance(TrackingStrategyException) ==>
              r.outcome == InternalError && r.errorCode == Some(UnexpectedErrorCode)
  {
    match provided
    case Ok((name, effects)) =>
      DecisionResponse(
        outcome := OutcomeForName(name),
        strategy := Some(name),
        selectedOrderId := None,
        reasons := None,
        sideEffects := Some(SerializeAll(effects)),
        errorCode := None)
    case Err(ex) =>
      if ex.IsInstance(UpstreamOrderPlatformUnavailableException) then
        Failed(UpstreamUnavailable, UpstreamUnavailableCode)
      else if ex.IsInstance(ContextValidationException) then
        Failed(BadRequest, ex.ClassName())
      else if ex.IsInstance(TrackingStrategyException) then
        Failed(InternalError, TrackingStrategyErrorCode)
      else
        Failed(InternalError, UnexpectedErrorCode)
  }

  /** A failure response. */
  function Failed(outcome: CallerOutcome, code: string): DecisionResponse {
    DecisionResponse(outcome, None, None, None, None, Some(code))
  }

  /** The mapping for the declared exception classes, by class rather than by
      catch clause: the upstream class is a domain exception yet reaches the
      caller as UPSTREAM_UNAVAILABLE, every validation class as BAD_REQUEST
      under its own name, and the bare domain base as a strategy error. */
  lemma {:induction false} DeclaredClassMapping(c: ExceptionClass)
    ensures var r := Decide(Err(Raised(c)));
            && (c == UpstreamOrderPlatformUnavailableException ==>
                  r.outcome == UpstreamUnavailable && r.errorCode == Some("UPSTREAM_UNAVAILABLE"))
            && (c in SpecificValidationClasses || c == ContextValidationException ==>
                  r.outcome == BadRequest && r.errorCode == Some(c.Name()))
            && (c == TrackingStrategyException ==>
                  r.outcome == InternalError && r.errorCode == Some("TRACKING_STRATEGY_ERROR"))
  {
    HierarchyShape(c);
    HierarchyShape(TrackingStrategyException);
  }

  /** Classes declared elsewhere: a domain subclass that is not a validation
      or upstream class becomes TRACKING_STRATEGY_ERROR, one below
      ContextValidationException is a bad request under its own name, and a
      non-domain exception becomes UNEXPECTED_ERROR. */
  lemma ForeignClassMapping(name: string)
    ensures Decide(Err(Subclassed(name, TrackingStrategyException)))
            == DecisionResponse(InternalError, None, None, None, None, Some("TRACKING_STRATEGY_ERROR"))
    ensures Decide(Err(Subclassed(name, ContextValidationException)))
            == DecisionResponse(BadRequest, None, None, None, None, Some(name))
    ensures Decide(Err(Foreign(name)))
            == DecisionResponse(InternalError, None, None, None, None, Some("UNEXPECTED_ERROR"))
  {
    HierarchyShape(TrackingStrategyException);
  }

  /** A strategy's own name comes back as the outcome of the same name, with
      the name echoed and no error code. */
  lemma StrategyPassThrough(s: Strategy, effects: seq<SideEffect>)
    ensures var r := Decide(Ok((s.Name(), effects)));
            r.outcome.Name() == s.Name() && r.strategy == Some(s.Name()) && r.errorCode == None
  {
  }

  /** `OrderTrackingCaller.decide` over the default service. */
  function DecideRequest(health: Service.UpstreamHealth, ctx: CustomerContext, cfg: PolicyConfig)
    : (r: DecisionResponse)
    ensures r.errorCode.None? <==> r.outcome.IsStrategyOutcome()
    ensures health == Service.Unavailable ==>
              r.outcome == UpstreamUnavailable && r.errorCode == Some("UPSTREAM_UNAVAILABLE")
    ensures health == Service.Available && Validate(ctx, cfg).Fail? ==>
              r.outcome == BadRequest && r.errorCode == Some(Validate(ctx, cfg).error.Name())
    ensures health == Service.Available && FieldsOk(ctx, cfg) && ctx.orders == Some([]) ==>
              r.outcome == CallerOutcome.NoOrdersFound
  {
    var provided := Service.DecideStrategy(health, ctx, cfg);
    if provided.Ok? then
      Decide(provided)
    else
      HierarchyShape(provided.error.cls);
      HierarchyShape(UpstreamOrderPlatformUnavailableException);
      Decide(provided)
  }
}
