/** The provider-facing facade, `decide_strategy`, which runs the health
    gate, the validator, the empty-orders short-circuit, the selector and
    the rules engine in that order, and the default clock-based health
    checker as a function of a given clock reading. */
module Service {
  import opened Wrappers
  import opened Contract
  import opened Validation
  import opened Scoring
  import opened Rules

  /** What the injected upstream health checker reports. */
  datatype UpstreamHealth = Available | Unavailable

  /** Python's `a % b` for a non-zero `b`: the remainder differs from `a`
      by a multiple of `b` and takes the sign of the divisor. For a negative
      divisor it is the negated remainder of the negated operands. */
  function PyMod(a: int, b: int): (r: int)
    requires b != 0
    ensures (a - r) % b == 0
    ensures b > 0 ==> 0 <= r < b && r == a % b
    ensures b < 0 ==> b < r <= 0 && r == -((-a) % (-b))
  {
    var m := a % b;
    var r := if b < 0 && m != 0 then m + b else m;
    RemainderUnique(a - r, b, if b < 0 && m != 0 then a / b - 1 else a / b, 0);
    if b < 0 then
      RemainderUnique(-a, -b, if m != 0 then a / b - 1 else a / b, -r);
      r
    else r
  }

  /** A reading below a positive cycle is its own remainder. */
  lemma SmallRemainder(x: int, d: int)
    requires d != 0
    ensures 0 <= x < d ==> x % d == x
  {
    if 0 <= x < d {
      RemainderUnique(x, d, 0, x);
    }
  }

  /** Euclidean remainders are unique: any way of writing `x` as a multiple
      of `d` plus a remainder in [0, |d|) names `x % d`. */
  lemma RemainderUnique(x: int, d: int, q: int, m: int)
    requires d != 0 && x == q * d + m && 0 <= m < (if d > 0 then d else -d)
    ensures x % d == m
  {
    var q0, m0 := x / d, x % d;
    assert (q - q0) * d == m0 - m;
    if q - q0 >= 1 || q - q0 <= -1 {
      var k := q - q0;
      assert k * d >= d || k * d <= d;
    }
  }

  /** The default checker, given the whole seconds of the clock: the first
      `failWindowSeconds` of every `cycleSeconds`-second cycle are an
      outage. A zero cycle makes the source divide by zero, so it is
      excluded here. For a negative cycle Python's remainder is at most 0,
      so the checker reports an outage exactly when the window exceeds the
      negated remainder of the negated reading. */
  function DefaultHealthAt(nowSeconds: int, failWindowSeconds: int, cycleSeconds: int): (h: UpstreamHealth)
    requires cycleSeconds != 0
    ensures cycleSeconds > 0 && failWindowSeconds <= 0 ==> h == Available
    ensures cycleSeconds > 0 && failWindowSeconds >= cycleSeconds ==> h == Unavailable
    ensures cycleSeconds > 0 && 0 <= nowSeconds < failWindowSeconds ==> h == Unavailable
    ensures cycleSeconds > 0 ==>
              (h == Unavailable <==> nowSeconds % cycleSeconds < failWindowSeconds)
    ensures cycleSeconds < 0 && failWindowSeconds > 0 ==> h == Unavailable
    ensures cycleSeconds < 0 && failWindowSeconds <= cycleSeconds + 1 ==> h == Available
    ensures cycleSeconds < 0 ==>
              (h == Unavailable <==> -((-nowSeconds) % (-cycleSeconds)) < failWindowSeconds)
  {
    SmallRemainder(nowSeconds, cycleSeconds);
    if PyMod(nowSeconds, cycleSeconds) < failWindowSeconds then Unavailable else Available
  }

  /** With the default window of 3 seconds in a 60-second cycle, the
      checker is down exactly in the first three seconds of each minute. */
  lemma DefaultHealthWindow(nowSeconds: int)
    ensures DefaultHealthAt(nowSeconds, 3, 60) == Unavailable <==> nowSeconds % 60 in {0, 1, 2}
  {
  }

  /** The strategy name and side effects the facade returns. */
  type StrategyResult = (string, seq<SideEffect>)

  /** `decide_strategy` with the default validator, scorer, selector and
      rules engine, and `health` as the injected checker's report. */
  function DecideStrategy(health: UpstreamHealth, ctx: CustomerContext, cfg: PolicyConfig)
    : (r: Result<StrategyResult, Failure>)
    ensures health == Unavailable ==> r == Err(Raised(UpstreamOrderPlatformUnavailableException))
    ensures health == Available ==>
              (r.Err? <==> Validate(ctx, cfg).Fail?)
              && (Validate(ctx, cfg).Fail? ==> r == Err(Raised(Validate(ctx, cfg).error)))
    ensures r.Err? ==> r.error.Raised? && IsA(r.error.cls, TrackingStrategyException)
    ensures r.Ok? ==> exists s: Strategy :: s.Name() == r.value.0
    ensures r.Ok? && ctx.orders == Some([]) ==> r.value == (NoOrdersFound.Name(), [])
    ensures r.Ok? && ctx.orders != Some([]) ==>
              && ctx.orders.Some?
              && r.value.0 != NoOrdersFound.Name()
              && |r.value.1| <= 1
              && forall e :: e in r.value.1 ==>
                   exists k :: IsEarliestMax(ctx.orders.value, k, cfg)
                               && e.orderId == Some(ctx.orders.value[k].orderId)
  {
    if health == Unavailable then
      HierarchyShape(UpstreamOrderPlatformUnavailableException);
      Err(Raised(UpstreamOrderPlatformUnavailableException))
    else match Validate(ctx, cfg)
      case Fail(c) =>
        HierarchyShape(c);
        Err(Raised(c))
      case Pass =>
        var orders := ctx.orders.value;
        if orders == [] then Ok((NoOrdersFound.Name(), []))
        else
          var highest := Select(orders, cfg);
          var (strategy, effects) := Evaluate(ctx, highest, cfg);
          StrategyNamesDistinct(strategy, NoOrdersFound);
          Ok((strategy.Name(), effects))
  }

  /** For a valid request with orders, the facade answers with the decision
      table's verdict on the highest-risk order (the earliest on ties). */
  lemma DecideStrategyFollowsTable(ctx: CustomerContext, cfg: PolicyConfig)
    requires Validate(ctx, cfg).Pass? && ctx.orders.Some? && ctx.orders.value != []
    ensures var orders := ctx.orders.value;
            forall k :: IsEarliestMax(orders, k, cfg) ==>
              var d := DecisionTable(ctx, orders[k], cfg);
              DecideStrategy(Available, ctx, cfg) == Ok((d.0.Name(), d.1))
  {
    var orders := ctx.orders.value;
    forall k | IsEarliestMax(orders, k, cfg)
      ensures var d := DecisionTable(ctx, orders[k], cfg);
              DecideStrategy(Available, ctx, cfg) == Ok((d.0.Name(), d.1))
    {
      var j :| IsEarliestMax(orders, j, cfg) && Select(orders, cfg) == orders[j];
      EarliestMaxUnique(orders, j, k, cfg);
      EvaluateIsDecisionTable(ctx, orders[k], cfg);
    }
  }

  /** A valid request with an empty order list is answered NO_ORDERS_FOUND
      with no side effects, whatever its other fields. */
  lemma EmptyOrdersShortCircuit(ctx: CustomerContext, cfg: PolicyConfig)
    requires FieldsOk(ctx, cfg) && ctx.orders == Some([])
    ensures DecideStrategy(Available, ctx, cfg) == Ok(("NO_ORDERS_FOUND", []))
  {
  }
}
