/** The shared vocabulary of the order-tracking policy engine: the value
    sets, the immutable policy configuration, the request and order
    records, side effects, and the exception taxonomy as a closed class
    hierarchy. */
module Contract {
  import opened Wrappers

  // ------------------------------------------------------------------
  // Exception taxonomy
  // ------------------------------------------------------------------

  /** The exception classes the engine declares. `Base` is the direct
      superclass as declared; TrackingStrategyException is the root of
      the domain hierarchy. */
  datatype ExceptionClass =
    | TrackingStrategyException
    | ContextValidationException
    | InvalidCustomerActionException
    | InvalidCustomerIdException
    | InvalidCountryFormatException
    | UnsupportedCountryException
    | InvalidRecentFailedAIAttemptsException
    | InvalidAIConfidenceException
    | InvalidOrderIdException
    | InvalidOrderAmountException
    | InvalidOrderItemCountException
    | UpstreamOrderPlatformUnavailableException
  {
    function Base(): Option<ExceptionClass> {
      match this
      case TrackingStrategyException => None
      case ContextValidationException => Some(TrackingStrategyException)
      case UpstreamOrderPlatformUnavailableException => Some(TrackingStrategyException)
      case _ => Some(ContextValidationException)
    }

    /** Distance to the root along `Base`. */
    function Depth(): nat {
      match this
      case TrackingStrategyException => 0
      case ContextValidationException => 1
      case UpstreamOrderPlatformUnavailableException => 1
      case _ => 2
    }

    /** The class's `__name__`. */
    function Name(): string {
      match this
      case TrackingStrategyException => "TrackingStrategyException"
      case ContextValidationException => "ContextValidationException"
      case InvalidCustomerActionException => "InvalidCustomerActionException"
      case InvalidCustomerIdException => "InvalidCustomerIdException"
      case InvalidCountryFormatException => "InvalidCountryFormatException"
      case UnsupportedCountryException => "UnsupportedCountryException"
      case InvalidRecentFailedAIAttemptsException => "InvalidRecentFailedAIAttemptsException"
      case InvalidAIConfidenceException => "InvalidAIConfidenceException"
      case InvalidOrderIdException => "InvalidOrderIdException"
      case InvalidOrderAmountException => "InvalidOrderAmountException"
      case InvalidOrderItemCountException => "InvalidOrderItemCountException"
      case UpstreamOrderPlatformUnavailableException => "UpstreamOrderPlatformUnavailableException"
    }
  }

  /** `IsA(c, k)`: class `c` is `k` or inherits from it. */
  predicate IsA(c: ExceptionClass, k: ExceptionClass)
    decreases c.Depth()
  {
    c == k || (c.Base().Some? && IsA(c.Base().value, k))
  }

  /** The nine specific validation failures, one per violated rule. */
  const SpecificValidationClasses: set<ExceptionClass> := {
    InvalidCustomerActionException, InvalidCustomerIdException,
    InvalidCountryFormatException, UnsupportedCountryException,
    InvalidRecentFailedAIAttemptsException, InvalidAIConfidenceException,
    InvalidOrderIdException, InvalidOrderAmountException,
    InvalidOrderItemCountException
  }

  /** Every specific validation class is a ContextValidationException and
      therefore a TrackingStrategyException; the upstream-unavailable class
      is a domain exception but not a validation one; every declared class
      lies inside the domain hierarchy. */
  lemma {:induction false} HierarchyShape(c: ExceptionClass)
    ensures c in SpecificValidationClasses ==>
              IsA(c, ContextValidationException) && IsA(c, TrackingStrategyException)
    ensures IsA(c, ContextValidationException) <==>
              c in SpecificValidationClasses || c == ContextValidationException
    ensures IsA(c, TrackingStrategyException)
    ensures IsA(UpstreamOrderPlatformUnavailableException, TrackingStrategyException)
    ensures !IsA(UpstreamOrderPlatformUnavailableException, ContextValidationException)
  {
    assert IsA(ContextValidationException, TrackingStrategyException);
    assert !IsA(TrackingStrategyException, ContextValidationException);
    assert IsA(UpstreamOrderPlatformUnavailableException, TrackingStrategyException);
    assert !IsA(UpstreamOrderPlatformUnavailableException, ContextValidationException);
    if c.Depth() == 2 {
      assert c.Base() == Some(ContextValidationException);
      assert IsA(c, ContextValidationException);
      assert IsA(c, TrackingStrategyException);
    }
  }

  /** A raised failure, as the caller-side adapter sees it. */
  datatype Failure =
      /** An instance of one of the declared classes. */
    | Raised(cls: ExceptionClass)
      /** An instance of a class declared elsewhere that derives from `base`
          (a test's own domain error, say). */
    | Subclassed(className: string, base: ExceptionClass)
      /** An `Exception` subclass outside the domain hierarchy (a TypeError, ...). */
    | Foreign(className: string)
  {
    /** Python's `isinstance(ex, k)`. */
    predicate IsInstance(k: ExceptionClass) {
      match this
      case Raised(c) => IsA(c, k)
      case Subclassed(_, b) => IsA(b, k)
      case Foreign(_) => false
    }

    /** `ex.__class__.__name__`. */
    function ClassName(): string {
      match this
      case Raised(c) => c.Name()
      case Subclassed(n, _) => n
      case Foreign(n) => n
    }
  }

  // ------------------------------------------------------------------
  // Discrete values
  // ------------------------------------------------------------------

  datatype Channel = Voice | Webchat

  /** Customer-initiated intent. */
  datatype CustomerAction = TrackOrder | RequestRefund | CancelOrder | OpenDispute

  /** The action field of a request: one of the four actions, or a value the
      caller sent that is none of them (the source is dynamically typed). */
  datatype ActionValue = Recognized(action: CustomerAction) | Unrecognized

  datatype OrderStatus = Shipped | Delivered | Cancelled | Unknown

  datatype Strategy =
    | AiSimple
    | AiDetailed
    | AiWithHumanFallback
    | MandatoryHuman
    | NoOrdersFound
    | AuthRequired
  {
    /** The enum member's `.name`. */
    function Name(): string {
      match this
      case AiSimple => "AI_SIMPLE"
      case AiDetailed => "AI_DETAILED"
      case AiWithHumanFallback => "AI_WITH_HUMAN_FALLBACK"
      case MandatoryHuman => "MANDATORY_HUMAN"
      case NoOrdersFound => "NO_ORDERS_FOUND"
      case AuthRequired => "AUTH_REQUIRED"
    }
  }

  /** Implied downstream actions. */
  datatype SideEffectType =
    | CreateRefundCase
    | CreateDisputeCase
    | EscalateToAgentQueue
    | RequireAuthStepUp
  {
    function Name(): string {
      match this
      case CreateRefundCase => "CREATE_REFUND_CASE"
      case CreateDisputeCase => "CREATE_DISPUTE_CASE"
      case EscalateToAgentQueue => "ESCALATE_TO_AGENT_QUEUE"
      case RequireAuthStepUp => "REQUIRE_AUTH_STEP_UP"
    }
  }

  const AllChannels: set<Channel> := {Voice, Webchat}
  const AllActions: set<CustomerAction> := {TrackOrder, RequestRefund, CancelOrder, OpenDispute}
  const AllOrderStatuses: set<OrderStatus> := {Shipped, Delivered, Cancelled, Unknown}
  const AllStrategies: set<Strategy> :=
    {AiSimple, AiDetailed, AiWithHumanFallback, MandatoryHuman, NoOrdersFound, AuthRequired}
  const AllSideEffectTypes: set<SideEffectType> :=
    {CreateRefundCase, CreateDisputeCase, EscalateToAgentQueue, RequireAuthStepUp}

  /** The value sets are closed and of the declared sizes. */
  lemma ValueSetsClosed()
    ensures |AllChannels| == 2 && |AllActions| == 4 && |AllOrderStatuses| == 4
    ensures |AllStrategies| == 6 && |AllSideEffectTypes| == 4
    ensures forall c: Channel :: c in AllChannels
    ensures forall a: CustomerAction :: a in AllActions
    ensures forall s: OrderStatus :: s in AllOrderStatuses
    ensures forall s: Strategy :: s in AllStrategies
    ensures forall t: SideEffectType :: t in AllSideEffectTypes
  {
    forall c: Channel ensures c in AllChannels {
      match c
      case Voice =>
      case Webchat =>
    }
    forall a: CustomerAction ensures a in AllActions {
      match a
      case TrackOrder =>
      case RequestRefund =>
      case CancelOrder =>
      case OpenDispute =>
    }
    forall s: OrderStatus ensures s in AllOrderStatuses {
      match s
      case Shipped =>
      case Delivered =>
      case Cancelled =>
      case Unknown =>
    }
    forall s: Strategy ensures s in AllStrategies {
      match s
      case AiSimple =>
      case AiDetailed =>
      case AiWithHumanFallback =>
      case MandatoryHuman =>
      case NoOrdersFound =>
      case AuthRequired =>
    }
    forall t: SideEffectType ensures t in AllSideEffectTypes {
      match t
      case CreateRefundCase =>
      case CreateDisputeCase =>
      case EscalateToAgentQueue =>
      case RequireAuthStepUp =>
    }
  }

  /** Distinct strategies have distinct names, so a name identifies its
      strategy. */
  lemma StrategyNamesDistinct(s: Strategy, t: Strategy)
    ensures s.Name() == t.Name() ==> s == t
  {
  }

  // ------------------------------------------------------------------
  // Records and configuration
  // ------------------------------------------------------------------

  /** Static thresholds, bounds and country sets; a Dafny datatype value,
      so it cannot be mutated after construction. */
  datatype PolicyConfig = PolicyConfig(
    minFailedAiAttempts: int,
    maxFailedAiAttempts: int,
    manyRecentAiFailuresThreshold: int,
    highValueAmountThreshold: real,
    minAiConfidence: real,
    minCustomerIdLen: int,
    maxCustomerIdLen: int,
    minOrderIdLen: int,
    maxOrderIdLen: int,
    countryCodeLen: int,
    regulatedCountries: set<string>,
    strictAuthCountries: set<string>,
    supportedCountries: set<string>
  )

  /** The configuration's default field values. */
  function DefaultPolicy(): (cfg: PolicyConfig)
    ensures 0 == cfg.minFailedAiAttempts <= cfg.manyRecentAiFailuresThreshold
                 <= cfg.maxFailedAiAttempts == 5
    ensures cfg.manyRecentAiFailuresThreshold == 2
    ensures 0 < cfg.minCustomerIdLen <= cfg.maxCustomerIdLen
    ensures 0 < cfg.minOrderIdLen <= cfg.maxOrderIdLen
    ensures cfg.countryCodeLen == 2
    ensures cfg.regulatedCountries <= cfg.supportedCountries
    ensures cfg.strictAuthCountries <= cfg.supportedCountries
    ensures forall c :: c in cfg.supportedCountries ==> |c| == cfg.countryCodeLen
    ensures 0.0 <= cfg.minAiConfidence <= 1.0
  {
    PolicyConfig(
      minFailedAiAttempts := 0,
      maxFailedAiAttempts := 5,
      manyRecentAiFailuresThreshold := 2,
      highValueAmountThreshold := 1000.00,
      minAiConfidence := 0.50,
      minCustomerIdLen := 6,
      maxCustomerIdLen := 36,
      minOrderIdLen := 8,
      maxOrderIdLen := 32,
      countryCodeLen := 2,
      regulatedCountries := {"DE", "FR"},
      strictAuthCountries := {"US", "DE"},
      supportedCountries := {"DE", "US", "FR", "GB", "IN"}
    )
  }

  datatype Order = Order(
    orderId: string,
    totalAmount: real,
    itemCount: int,
    status: OrderStatus,
    isFlaggedFraudRisk: bool,
    hasOpenDispute: bool
  )

  /** The request context. `orders` is `None` when the caller sent no list. */
  datatype CustomerContext = CustomerContext(
    action: ActionValue,
    customerId: string,
    country: string,
    isVip: bool,
    authenticated: bool,
    channel: Channel,
    orders: Option<seq<Order>>,
    recentFailedAiAttempts: int,
    aiConfidence: real
  )

  /** An implied downstream action, optionally tied to an order. */
  datatype SideEffect = SideEffect(effectType: SideEffectType, orderId: Option<string>)
}
