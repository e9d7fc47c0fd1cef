/** The refund eligibility rules: four restricting rules tried in a fixed
    order, the first that fires deciding, and approval when none fires.
    Dates are whole day numbers, so the elapsed time of a request is the
    difference of two of them. */
module RefundRules {

  /** A verdict: its status and the reason given for it. */
  datatype Decision = Decision(status: string, reason: string)

  datatype RefundOrder = RefundOrder(purchaseDay: int, amount: real, productType: string)

  datatype RefundCustomer = RefundCustomer(region: string, isFraudFlagged: bool)

  datatype RefundPolicy = RefundPolicy(maxRefundDays: int, allowsDigitalRefunds: bool)

  const Denied := "DENIED"
  const ManualReview := "MANUAL_REVIEW"
  const Approved := "APPROVED"

  /** The amount above which a US refund goes to manual review. */
  const UsReviewAmount: real := 500.0

  const OutsideWindowDecision := Decision(Denied, "Outside refund window")
  const HighValueUsDecision := Decision(ManualReview, "High-value refund in US")
  const RestrictedDecision := Decision(Denied, "Account restricted")
  const DigitalDecision := Decision(Denied, "Digital items non-refundable")
  const EligibleDecision := Decision(Approved, "Eligible for refund")

  /** R1: more days have passed since the purchase than the policy allows. */
  predicate OutsideWindow(order: RefundOrder, policy: RefundPolicy, requestDay: int) {
    requestDay - order.purchaseDay > policy.maxRefundDays
  }

  /** R2: a US customer asking for more than the review amount. */
  predicate HighValueUs(order: RefundOrder, customer: RefundCustomer) {
    customer.region == "US" && order.amount > UsReviewAmount
  }

  /** R4: a digital product under a policy that does not cover digital items. */
  predicate DigitalNotCovered(order: RefundOrder, policy: RefundPolicy) {
    order.productType == "Digital" && !policy.allowsDigitalRefunds
  }

  /** `is_refund_eligible`. Each reason is given exactly when its rule fires
      and no earlier rule did; the status follows from the reason. */
  function IsRefundEligible(order: RefundOrder, customer: RefundCustomer, policy: RefundPolicy,
                            requestDay: int): (d: Decision)
    ensures d in {OutsideWindowDecision, HighValueUsDecision, RestrictedDecision,
                  DigitalDecision, EligibleDecision}
    ensures d.status in {Denied, ManualReview, Approved}
    ensures d == OutsideWindowDecision <==> OutsideWindow(order, policy, requestDay)
    ensures d == HighValueUsDecision <==>
              !OutsideWindow(order, policy, requestDay) && HighValueUs(order, customer)
    ensures d == RestrictedDecision <==>
              !OutsideWindow(order, policy, requestDay) && !HighValueUs(order, customer)
              && customer.isFraudFlagged
    ensures d == DigitalDecision <==>
              !OutsideWindow(order, policy, requestDay) && !HighValueUs(order, customer)
              && !customer.isFraudFlagged && DigitalNotCovered(order, policy)
    ensures d.status == Approved <==>
              !OutsideWindow(order, policy, requestDay) && !HighValueUs(order, customer)
              && !customer.isFraudFlagged && !DigitalNotCovered(order, policy)
    ensures d.status == ManualReview <==> d == HighValueUsDecision
    ensures d.status == Denied <==>
              || OutsideWindow(order, policy, requestDay)
              || (!HighValueUs(order, customer)
                  && (customer.isFraudFlagged || DigitalNotCovered(order, policy)))
  {
    if OutsideWindow(order, policy, requestDay) then OutsideWindowDecision
    else if HighValueUs(order, customer) then HighValueUsDecision
    else if customer.isFraudFlagged then RestrictedDecision
    else if DigitalNotCovered(order, policy) then DigitalDecision
    else EligibleDecision
  }

  /** The window rule is inclusive of its last day: a request exactly
      `maxRefundDays` after the purchase is not refused for lateness, and
      one a day later is. */
  lemma WindowBoundary(order: RefundOrder, customer: RefundCustomer, policy: RefundPolicy)
    ensures IsRefundEligible(order, customer, policy, order.purchaseDay + policy.maxRefundDays)
            != OutsideWindowDecision
    ensures IsRefundEligible(order, customer, policy, order.purchaseDay + policy.maxRefundDays + 1)
            == OutsideWindowDecision
  {
  }

  /** A US refund of exactly the review amount is not sent to review; any
      larger amount within the window is. */
  lemma UsAmountBoundary(order: RefundOrder, customer: RefundCustomer, policy: RefundPolicy, requestDay: int)
    requires customer.region == "US" && !OutsideWindow(order, policy, requestDay)
    ensures order.amount == 500.0 ==>
              IsRefundEligible(order, customer, policy, requestDay).status != ManualReview
    ensures order.amount > 500.0 ==>
              IsRefundEligible(order, customer, policy, requestDay) == HighValueUsDecision
  {
  }

  /** The US review rule comes before the fraud rule: a high-value US refund
      by a fraud-flagged customer within the window goes to review rather
      than being refused. */
  lemma ReviewBeforeFraud(order: RefundOrder, customer: RefundCustomer, policy: RefundPolicy, requestDay: int)
    requires HighValueUs(order, customer) && customer.isFraudFlagged
    requires !OutsideWindow(order, policy, requestDay)
    ensures IsRefundEligible(order, customer, policy, requestDay).status == ManualReview
  {
  }

  /** Asking later never helps: a request refused for lateness stays refused
      for lateness on every later day, and an approved request would also
      have been approved on every earlier day. */
  lemma LaterRequestsNoBetter(order: RefundOrder, customer: RefundCustomer,
                              policy: RefundPolicy, day1: int, day2: int)
    requires day1 <= day2
    ensures IsRefundEligible(order, customer, policy, day1) == OutsideWindowDecision ==>
              IsRefundEligible(order, customer, policy, day2) == OutsideWindowDecision
    ensures IsRefundEligible(order, customer, policy, day2).status == Approved ==>
              IsRefundEligible(order, customer, policy, day1).status == Approved
  {
    assert OutsideWindow(order, policy, day1) ==> OutsideWindow(order, policy, day2);
  }

  /** The outcome does not depend on the customer's fraud flag or the product
      once the window or the US review rule has fired. */
  lemma EarlyRulesIgnoreLaterFacts(order: RefundOrder, customer: RefundCustomer, policy: RefundPolicy,
                                   requestDay: int, productType: string, flagged: bool)
    requires OutsideWindow(order, policy, requestDay) || HighValueUs(order, customer)
    ensures IsRefundEligible(order.(productType := productType), customer.(isFraudFlagged := flagged),
                             policy, requestDay)
            == IsRefundEligible(order, customer, policy, requestDay)
  {
  }

  /** The three worked requests: a physical item bought on day 0 under a
      30-day window, by a non-US customer, is approved on days 14 and 30 and
      refused on day 31. */
  lemma WindowExamples()
    ensures var order := RefundOrder(0, 100.0, "Physical");
            var customer := RefundCustomer("DE", false);
            var policy := RefundPolicy(30, false);
            && IsRefundEligible(order, customer, policy, 14) == EligibleDecision
            && IsRefundEligible(order, customer, policy, 30) == EligibleDecision
            && IsRefundEligible(order, customer, policy, 31) == OutsideWindowDecision
  {
  }
}
