# Customer-service decision components, modelled in Dafny

This project models four small, pure decision components of a customer-service
chatbot demo repository, and proves properties about them.

- **Order-tracking policy engine.** A request context carries an action, a
  customer id, a country, a VIP flag, an authentication flag, a channel,
  orders, recent AI failures and an AI confidence. The engine turns it into a
  handling strategy plus implied side effects. The provider runs four steps in
  order:
  - a health gate;
  - a fixed-order, first-failure validator;
  - a risk scorer with a left-biased arg-max order selector;
  - an ordered first-match rule table.

  The consumer-side adapter then turns the provider's answer, or any
  `Exception` it raised, into a `DecisionResponse`.
- **Refund eligibility rules.** Four restricting rules are tried in order, and
  approval is the default.
- **Chat payload builder.** It checks consent, the ids and the text, strips
  angle brackets, truncates to 4000 code points with an ellipsis, and
  assembles the payload.
- **Order-status handler.** It looks the order up, then answers "not found",
  "shipped", "delayed" or "being prepared". It escalates the unknown and
  overdue cases.

Modules follow the source:

| module | models |
|---|---|
| `Wrappers` | `Option`, `Result` and `Outcome` |
| `Contract` | `contract.py` |
| `Validation`, `Scoring`, `Rules`, `Service` | the parts of `provider.py` |
| `Consumer` | `consumer.py` |
| `Scenarios` | worked requests through the whole pipeline |
| `RefundRules` | `rules.py` |
| `Chat` | `chat.ts` |
| `StatusHandler` | `test_doubles.py`, the handler under test |

Modelling choices:

- Exceptions are values. A validator or provider failure is a
  `Contract.ExceptionClass`, whose `Base()` is the declared superclass. A
  raised object is a `Contract.Failure`:
  - one of the declared classes;
  - a class declared elsewhere that derives from a declared one;
  - a foreign exception.

  `isinstance` is `Failure.IsInstance`.
- The rule table is a `seq<Rules.Rule>` scanned by `Rules.FirstMatch`.
  `Rules.DecisionTable` restates the same decisions as nested cases, grouped
  the way the source's comments group them. It is the independent reference
  the table is proved against.
- Amounts, thresholds and the confidence are `real`. Dates are integer day
  numbers.
- Strings are `seq<char>` with one `char` per code point. Blankness is Python's
  `str.isspace` for the validator and ECMAScript's white space and line
  terminators for the chat builder's `trim`.
- `provider.py:142-151` adds at most 2 + 5 + 3, so `Scoring.Score` ensures
  a score of at most 10.

## Model

| member | source | states |
|---|---|---|
| Contract.HierarchyShape | chatbots/demos/target_work_in_progress/src/order_tracking/contract.py:11-60 | Every specific validation class is a ContextValidationException and a TrackingStrategyException. The validation classes are exactly the nine specific ones plus the base. The upstream-unavailable class is a domain exception but not a validation one. Every declared class is in the domain hierarchy. |
| Contract.ValueSetsClosed | chatbots/demos/target_work_in_progress/src/order_tracking/contract.py:67-105 | There are exactly 2 channels, 4 actions, 4 order statuses, 6 strategies and 4 side-effect types, and every value is in its set. |
| Contract.StrategyNamesDistinct | chatbots/demos/target_work_in_progress/src/order_tracking/contract.py:89-95 | Distinct strategies have distinct `.name`s, so a name identifies its strategy. |
| Contract.DefaultPolicy | chatbots/demos/target_work_in_progress/src/order_tracking/contract.py:112-129 | The default attempt bounds satisfy 0 = min <= threshold 2 <= max 5. The id length bounds are well-formed. The country code length is 2. The regulated and strict-auth sets are subsets of the supported set, and every supported code has the code length. The minimum confidence lies in [0, 1]. |
| Validation.ValidId | chatbots/demos/target_work_in_progress/src/order_tracking/provider.py:47-56 | An id is valid iff it is non-empty, its length lies in [min, max] inclusive, and every character is in [A-Za-z0-9-_]. The blank test is subsumed. |
| Validation.ValidCountryFormat | chatbots/demos/target_work_in_progress/src/order_tracking/provider.py:58-65 | A country code is well-formed iff it is exactly `country_code_len` upper-case letters. |
| Validation.CheckOrder | chatbots/demos/target_work_in_progress/src/order_tracking/provider.py:127-139 | An order passes iff its id is valid, its amount is in [0, 1,000,000] and its item count is in [0, 999]. The checks run in that order: the id failure is reported iff the id is invalid, the amount failure iff the id is valid and the amount is out of range, and the item-count failure iff both earlier checks pass and the count is out of range. |
| Validation.FirstInvalidOrder | chatbots/demos/target_work_in_progress/src/order_tracking/provider.py:126-139 | The scan finds nothing iff every order from the start index passes. Otherwise it reports the first failing index and that order's failure class, and every earlier order passes. |
| Validation.Validate | chatbots/demos/target_work_in_progress/src/order_tracking/provider.py:85-139 | Each failure class is returned iff its check fails and every earlier check passes. The order is: action, customer id, country format, country support, attempts, confidence, order list present, then orders by index. So a malformed country is never "unsupported". Every failure is a ContextValidationException. The context passes iff every check passes. |
| Validation.AttemptsBoundaries | chatbots/demos/target_work_in_progress/src/order_tracking/provider.py:110-114 | Under the default policy, with the earlier checks passing, the attempts failure occurs iff the count is outside 0..5. In particular -1 and 6 fail. |
| Scoring.Score | chatbots/demos/target_work_in_progress/src/order_tracking/provider.py:142-151 | The score lies in 0..10. It is 0 iff no risk factor is present, and at least 5 for a fraud-flagged order. |
| Scoring.ScoreValues | chatbots/demos/target_work_in_progress/src/order_tracking/provider.py:142-151 | The score takes one of the values {0, 2, 3, 5, 7, 8, 10}, the sums of subsets of the weights 2, 5 and 3. |
| Scoring.ScoreWeights | chatbots/demos/target_work_in_progress/src/order_tracking/provider.py:142-151 | The score is the sum of 2 for an amount at or above the high-value threshold, 5 for a fraud flag and 3 for an open dispute. |
| Scoring.ScoreMonotone | chatbots/demos/target_work_in_progress/src/order_tracking/provider.py:142-151 | Adding risk factors to an order never lowers its score. |
| Scoring.EarliestMaxUnique | chatbots/demos/target_work_in_progress/src/order_tracking/provider.py:154-162 | At most one index is the earliest maximal-score index, so the selector is fully determined by its contract. |
| Scoring.SelectIndex | chatbots/demos/target_work_in_progress/src/order_tracking/provider.py:154-162 | The left-to-right scan with a strict `>` stops on an index whose score is >= every score, and every earlier index scores strictly less. |
| Scoring.Select | chatbots/demos/target_work_in_progress/src/order_tracking/provider.py:154-162 | For a non-empty list, the selected order is a member whose score is >= every member's score. It is the earliest maximal order. |
| Rules.Fire | chatbots/demos/target_work_in_progress/src/order_tracking/provider.py:172-234 | A row yields its own strategy and at most one side effect, which carries the selected order's id. The side effect is present iff the row declares one. |
| Rules.FirstMatch | chatbots/demos/target_work_in_progress/src/order_tracking/provider.py:245-249 | The scan returns the first row at or after the start whose condition holds, or the table length. No earlier row holds. |
| Rules.TableIsTotal | chatbots/demos/target_work_in_progress/src/order_tracking/provider.py:230-234 | The always-true last row makes the scan stop on a row for every input. |
| Rules.Evaluate | chatbots/demos/target_work_in_progress/src/order_tracking/provider.py:245-249 | `evaluate` never answers NO_ORDERS_FOUND. Its side-effect list has at most one element, and any effect carries the selected order's id. |
| Rules.AgreesOnGateRows | chatbots/demos/target_work_in_progress/src/order_tracking/provider.py:172-202 | When the auth gate, mandatory-human or an action-specific row is the first match, the table's decision equals the nested-case reference. |
| Rules.AgreesOnDeliveredRows | chatbots/demos/target_work_in_progress/src/order_tracking/provider.py:204-216 | The same, when one of the three delivered-order TRACK_ORDER rows is the first match. |
| Rules.AgreesOnInTransitRows | chatbots/demos/target_work_in_progress/src/order_tracking/provider.py:217-224 | The same, when one of the shipped-or-unknown TRACK_ORDER rows is the first match. |
| Rules.AgreesOnLastRows | chatbots/demos/target_work_in_progress/src/order_tracking/provider.py:225-234 | The same, when the cancelled-US-voice row or the fallback is the first match. |
| Rules.EvaluateIsDecisionTable | chatbots/demos/target_work_in_progress/src/order_tracking/provider.py:172-249 | For every context and order, first-match evaluation of the ordered table equals the nested-case decision table. |
| Rules.AuthGateBeatsMandatoryHuman | chatbots/demos/target_work_in_progress/src/order_tracking/provider.py:172-188 | If both the auth gate and the mandatory-human condition hold, the answer is AUTH_REQUIRED with the step-up effect on the selected order. |
| Rules.SideEffectsByStrategy | chatbots/demos/target_work_in_progress/src/order_tracking/provider.py:172-234 | AUTH_REQUIRED comes iff with the step-up effect, and MANDATORY_HUMAN iff with the agent-queue effect. AI_SIMPLE and AI_DETAILED come with none. A side effect is produced iff a gate holds or the action is a dispute or a refund. So the cancel, track-order and fallback rows produce none. |
| Rules.HighRiskOrder | chatbots/demos/target_work_in_progress/src/order_tracking/provider.py:237-243 | `_high_risk_order` holds exactly when the risk score is positive: high value, fraud flag and open dispute are the scorer's factors. |
| Rules.SelectedIsHighRiskIfAny | chatbots/demos/target_work_in_progress/src/order_tracking/provider.py:154-162 | The selected order is high risk iff some order in the list is. |
| Service.PyMod | chatbots/demos/target_work_in_progress/src/order_tracking/provider.py:263 | Python's `%`: the result differs from `a` by a multiple of `b`. For a positive divisor it is the Euclidean remainder in [0, b). For a negative divisor it lies in (b, 0] and is the negated remainder of `-a` by `-b`, which fixes it uniquely. |
| Service.DefaultHealthAt | chatbots/demos/target_work_in_progress/src/order_tracking/provider.py:258-267 | For a positive cycle, the checker reports an outage iff the reading modulo the cycle is below the fail window. A non-positive window never fails, and a window of at least the cycle always fails. For a negative cycle, the outage is reported iff the window exceeds Python's non-positive remainder, so any positive window always fails and a window of at most cycle + 1 never does. |
| Service.DefaultHealthWindow | chatbots/demos/target_work_in_progress/src/order_tracking/provider.py:258-264 | With the defaults (3 s in 60 s) the outage covers exactly the seconds 0, 1 and 2 of each minute. |
| Service.DecideStrategy | chatbots/demos/target_work_in_progress/src/order_tracking/provider.py:298-315 | An unavailable upstream raises the upstream class whatever the context, because the health gate runs first. Otherwise the call fails iff validation fails, with the validator's class. Every failure is a domain exception. A success names a strategy. An empty order list answers NO_ORDERS_FOUND with no effects. Otherwise the answer is not NO_ORDERS_FOUND and has at most one effect, which carries the id of the earliest maximal-risk order. |
| Service.DecideStrategyFollowsTable | chatbots/demos/target_work_in_progress/src/order_tracking/provider.py:307-315 | For a valid context with orders, the facade answers with the decision table's verdict on the earliest highest-risk order, under the strategy's name. |
| Service.EmptyOrdersShortCircuit | chatbots/demos/target_work_in_progress/src/order_tracking/provider.py:310-311 | A context that passes the field checks, with an empty order list, gets ("NO_ORDERS_FOUND", []) whatever its other fields. |
| Consumer.OutcomeOf | chatbots/demos/target_work_in_progress/src/order_tracking/consumer.py:42-49 | Each strategy corresponds to the caller outcome of the same name, which is one of the six strategy outcomes. |
| Consumer.OutcomeForName | chatbots/demos/target_work_in_progress/src/order_tracking/consumer.py:42-49 | The lookup with the INTERNAL_ERROR default maps a strategy's name to the outcome of the same name, and any other name to INTERNAL_ERROR. |
| Consumer.SerializeAll | chatbots/demos/target_work_in_progress/src/order_tracking/consumer.py:79 | Serializing the side effects keeps their number and order, and serializes each element. |
| Consumer.Serialize | chatbots/demos/target_work_in_progress/src/order_tracking/consumer.py:52-56 | A serialized side effect (effect-type name, order id) reads back as the original effect, so no two effects share a wire form. |
| Consumer.DeserializeRoundTrip | chatbots/demos/target_work_in_progress/src/order_tracking/consumer.py:52-56 | Any wire form that reads back as a side effect serializes to itself again. |
| Consumer.Decide | chatbots/demos/target_work_in_progress/src/order_tracking/consumer.py:68-108 | There is a response for every provider result. `selected_order_id` and `reasons` are always None. On success the name is echoed, the outcome is looked up, there is no error code, and the effects are serialized element by element. On failure there is no strategy and no effects. The upstream class maps to UPSTREAM_UNAVAILABLE, checked before the domain branch. Validation classes map to BAD_REQUEST under their own class name. Other domain failures map to TRACKING_STRATEGY_ERROR. Any other `Exception` maps to UNEXPECTED_ERROR. |
| Consumer.DeclaredClassMapping | chatbots/demos/target_work_in_progress/src/order_tracking/consumer.py:82-101 | By declared class: the upstream class maps to UPSTREAM_UNAVAILABLE. Each validation class maps to BAD_REQUEST with its own name as the code. The bare domain base maps to INTERNAL_ERROR with TRACKING_STRATEGY_ERROR. |
| Consumer.ForeignClassMapping | chatbots/demos/target_work_in_progress/tests/test_OrderCaller_exception_mapping.py:69-78 | A test's own domain subclass maps to TRACKING_STRATEGY_ERROR. A subclass of the validation base is a bad request under its own name. A non-domain exception maps to UNEXPECTED_ERROR. Each gives the whole response. |
| Consumer.StrategyPassThrough | chatbots/demos/target_work_in_progress/tests/test_OrderCaller_exception_mapping.py:81-86 | A returned strategy name comes back as the outcome of the same name, with the name echoed and no error code. |
| Consumer.DecideRequest | chatbots/demos/target_work_in_progress/src/order_tracking/consumer.py:68-108 | Over the default service, there is an error code iff the outcome is not a strategy outcome. An unavailable upstream gives UPSTREAM_UNAVAILABLE. A validation failure gives BAD_REQUEST under the failing class's name. A valid context with no orders gives NO_ORDERS_FOUND. |
| Scenarios.IdsValid | chatbots/demos/target_work_in_progress/tests/test_vars_OrderTrackingService.py:25-45 | The test's customer id "CUST-123456" and order id "ORD-12345678" are valid ids, and "US" and "DE" are well-formed country codes. |
| Scenarios.TrackRequestValid | chatbots/demos/target_work_in_progress/tests/test_vars_OrderTrackingService.py:25-61 | A TRACK_ORDER request from the US or Germany with 0..5 failed attempts passes validation, given a valid customer id and valid orders. |
| Scenarios.SingleOrderDecision | chatbots/demos/target_work_in_progress/src/order_tracking/provider.py:307-315 | For a valid request about one order, the facade answers with the decision table's verdict on that order. |
| Scenarios.AnsweredWithOne | chatbots/demos/target_work_in_progress/src/order_tracking/consumer.py:68-80 | A provider answer of a strategy with one side effect reaches the caller as that strategy's outcome with the effect serialized. |
| Scenarios.AnsweredWithNone | chatbots/demos/target_work_in_progress/src/order_tracking/consumer.py:68-80 | A provider answer of a strategy with no side effect reaches the caller as that strategy's outcome with an empty effect list. |
| Scenarios.AuthRequiredStrategy | chatbots/demos/target_work_in_progress/src/order_tracking/provider.py:174-178 | An unauthenticated, valid, US or German request about a risk-free order gets AUTH_REQUIRED with the step-up effect on that order. |
| Scenarios.ScenarioAuthRequired | chatbots/demos/target_work_in_progress/src/order_tracking/provider.py:174-178 | End to end, that request is answered AUTH_REQUIRED with the serialized step-up effect on either channel. |
| Scenarios.SimpleStrategy | chatbots/demos/target_work_in_progress/src/order_tracking/provider.py:213-216 | An authenticated, non-VIP German webchat request about a delivered, risk-free order gets AI_SIMPLE with no effects. |
| Scenarios.ScenarioSimple | chatbots/demos/target_work_in_progress/src/order_tracking/provider.py:213-216 | End to end, that request is answered AI_SIMPLE with an empty effect list. |
| Scenarios.ManyFailuresStrategy | chatbots/demos/target_work_in_progress/src/order_tracking/provider.py:180-188 | An authenticated, valid request with 2..5 failed attempts gets MANDATORY_HUMAN with the agent-queue effect. |
| Scenarios.ScenarioManyFailures | chatbots/demos/target_work_in_progress/src/order_tracking/provider.py:180-188 | End to end, that request is answered MANDATORY_HUMAN with the serialized agent-queue effect. |
| Scenarios.ScenarioNoOrders | chatbots/demos/target_work_in_progress/src/order_tracking/provider.py:310-311 | End to end, a valid request with no orders is answered NO_ORDERS_FOUND. |
| Scenarios.ScenarioShortCustomerId | chatbots/demos/target_work_in_progress/src/order_tracking/provider.py:93-97 | End to end, a two-character customer id is a BAD_REQUEST with the code "InvalidCustomerIdException" and no strategy. |
| Scenarios.ScenarioUpstreamDown | chatbots/demos/target_work_in_progress/src/order_tracking/provider.py:307-308 | With the upstream down, even an invalid request is answered UPSTREAM_UNAVAILABLE, because the health gate runs before validation. |
| RefundRules.IsRefundEligible | chatbots/demos/mutation_testing/src/refunds/rules.py:17-35 | The result is one of the five decisions, and its status is one of DENIED, MANUAL_REVIEW and APPROVED. Each reason is given iff its rule fires and no earlier rule does. APPROVED holds iff no rule fires. MANUAL_REVIEW holds iff the US rule decides. DENIED holds iff the window rule fires, or the fraud or digital rule fires without the US rule. |
| RefundRules.WindowBoundary | chatbots/demos/mutation_testing/src/refunds/rules.py:19-20 | A request exactly `max_refund_days` after the purchase is not refused for lateness. One a day later is. |
| RefundRules.UsAmountBoundary | chatbots/demos/mutation_testing/src/refunds/rules.py:23-24 | Within the window, a US refund of exactly 500 is not sent to review, and any larger amount is. |
| RefundRules.ReviewBeforeFraud | chatbots/demos/mutation_testing/src/refunds/rules.py:23-28 | A high-value US refund by a fraud-flagged customer, within the window, goes to MANUAL_REVIEW. |
| RefundRules.LaterRequestsNoBetter | chatbots/demos/mutation_testing/src/refunds/rules.py:19-20 | A refusal for lateness persists on later days, and an approval would also have been given on any earlier day. |
| RefundRules.EarlyRulesIgnoreLaterFacts | chatbots/demos/mutation_testing/src/refunds/rules.py:17-28 | Once the window or the US rule fires, the fraud flag and the product type do not change the verdict. |
| RefundRules.WindowExamples | chatbots/demos/mutation_testing/tests/test_rules.py:18-52 | With a 30-day window, a non-US physical order is approved on days 14 and 30 and refused on day 31. |
| Chat.CodePointLength | chatbots/demos/property_testing/src/chat.ts:37-39 | The code-point length is zero only for the empty text. |
| Chat.CodePointLengthConcat | chatbots/demos/property_testing/src/chat.ts:37-39 | The code-point length of a concatenation is the sum of the lengths. |
| Chat.TrimStart | chatbots/demos/property_testing/src/chat.ts:80 | The result is a suffix of the input. The removed prefix is all white space, and the result does not start with white space. |
| Chat.TrimEnd | chatbots/demos/property_testing/src/chat.ts:80 | The result is a prefix of the input. The removed suffix is all white space, and the result does not end with white space. |
| Chat.Trim | chatbots/demos/property_testing/src/chat.ts:80 | `trim` leaves a middle slice of the input whose cut-off margins are all white space, and the result neither starts nor ends with white space. |
| Chat.TrimEmptyIffBlank | chatbots/demos/property_testing/src/chat.ts:80-90 | `trim()` is empty exactly when the string is all white space. So the id and text checks are blankness checks. |
| Chat.Sanitize | chatbots/demos/property_testing/src/chat.ts:46-48 | The result has no '<' or '>'. Every other code point occurs as often as in the input. The length drops by exactly the number of angle brackets. |
| Chat.SanitizeConcat | chatbots/demos/property_testing/src/chat.ts:46-48 | Stripping distributes over concatenation, so the kept code points stay in their order. |
| Chat.SanitizeKeepsClean | chatbots/demos/property_testing/src/chat.ts:46-48 | Text without angle brackets is left unchanged. |
| Chat.SanitizeIdempotent | chatbots/demos/property_testing/src/chat.ts:46-48 | Stripping twice is stripping once. |
| Chat.TruncateWithEllipsis | chatbots/demos/property_testing/src/chat.ts:54-67 | Text within the budget is unchanged. Over the budget, a budget <= 0 gives "". A budget >= 1 gives exactly `maxLength` code points: the first `maxLength - 1` of the text, then the ellipsis. For a budget >= 0 the result never exceeds it. |
| Chat.TruncateIdempotent | chatbots/demos/property_testing/src/chat.ts:54-67 | Truncating twice to the same budget is truncating once. |
| Chat.TruncateKeepsClean | chatbots/demos/property_testing/src/chat.ts:54-67 | Truncating never introduces an angle bracket. |
| Chat.MissingIffBlank | chatbots/demos/property_testing/src/chat.ts:80-85 | The missing-id test (null, or empty after `trim`) holds exactly for a null or all-white-space id. |
| Chat.BuildMessagePayload | chatbots/demos/property_testing/src/chat.ts:69-118 | Rejects, in order: no consent, a null or blank conversation id, a null or blank user id, then blank raw text. The builder succeeds iff all four checks pass. On success the text has no angle brackets, and `length` equals its code-point length and is at most 4000. The ids and locale are copied, the channel is "web", and the message id and timestamp are those given. `retryOf` is present iff the argument is non-empty, and then equals it. The text is the stripped raw text, or, when that is over 4000, its first 3999 code points followed by the ellipsis. |
| Chat.AnglesOnlyMessageIsSentEmpty | chatbots/demos/property_testing/src/chat.ts:87-96 | The text check looks at the raw text, so "<>" is accepted and sent with empty text and length 0. |
| StatusHandler.ShippedPhrases | chatbots/demos/test_doubles.py:66 | The shipped reply contains the order id and "has been shipped". |
| StatusHandler.DelayedPhrases | chatbots/demos/test_doubles.py:72-75 | The delayed reply contains the order id, "seems delayed" and "escalated". |
| StatusHandler.PreparingPhrases | chatbots/demos/test_doubles.py:78 | The preparing reply contains the order id and "being prepared". |
| StatusHandler.NotFoundPhrases | chatbots/demos/test_doubles.py:59-62 | The not-found reply contains "couldn't immediately find your order" and "escalated". |
| StatusHandler.GetOrder | chatbots/demos/test_doubles.py:96-100 | The stub returns the order stored under the id, or nothing exactly when the id is unknown. |
| StatusHandler.GetOrderAfterStore | chatbots/demos/test_doubles.py:93-100 | Over a dictionary that maps an id to an order, the lookup finds that order under that id. Every other id is found or missed exactly as in the dictionary without the entry. |
| StatusHandler.HandleWhereIsMyOrder | chatbots/demos/test_doubles.py:53-78 | There is at most one escalation per call. An unknown id gets the not-found reply and the escalation (id asked for, ORDER_NOT_FOUND). A shipped order gets the shipped reply and no escalation. A non-shipped order more than 3 days past its expected delivery gets the delayed reply and the escalation (its id, DELIVERY_DELAY). Any other order gets the preparing reply. There is no escalation iff the order is known and either shipped or not overdue. |
| StatusHandler.ReplyMentions | chatbots/demos/test_doubles.py:53-78 | Every reply about a known order names it. A shipped order is reported shipped, an escalated one delayed, and a waiting one as being prepared. An unknown id is reported not found. Every reply that escalates says "escalated". |
| StatusHandler.ShippedNeverEscalated | chatbots/demos/test_doubles.py:65-75 | A shipped order is never escalated, however overdue, because the shipped check comes first. |
| StatusHandler.DelayBoundary | chatbots/demos/test_doubles.py:69-78 | Exactly 3 days late is not escalated, and 4 days late is escalated with DELIVERY_DELAY. |
| StatusHandler.HandlerExamples | chatbots/demos/test_doubles.py:115-206 | The worked calls: shipped ORDER-123 is not escalated. ORDER-999, processing and 10 days late, is escalated for delay. The unknown ORDER-404 is escalated as not found, under the id asked for. |

## Left out

- The clock read of the default health checker. `Service.DefaultHealthAt`
  takes the whole seconds of the clock as a parameter. The provider takes the
  checker's report as an `UpstreamHealth` value. A zero cycle length, which
  divides by zero in the source, is excluded by a precondition. Negative
  cycles are modelled with Python's remainder.
- IEEE floating point. Amounts, thresholds and the confidence are `real`, so
  NaN and the infinities, which `isfinite` rejects in the source, cannot be
  expressed.
- Python's dynamic typing. Attempt and item counts are `int`. In the source
  an in-range float passes validation and is routed, while `None` or a
  string raises `TypeError`. `test_vars_OrderTrackingService.py:72-73`
  expects `TypeError` for `1.0` and `1.5`, which the comparison at
  `provider.py:68-69` does not raise.
  Other ill-typed fields and `None` in place of a string cannot be expressed
  either. The adapter's "any other exception" branch is still modelled,
  through `Contract.Failure.Foreign`.
- Non-ASCII letters in country codes. `str.isalpha` and `str.isupper` are
  modelled over ASCII letters only, so an upper-case non-ASCII code such as
  "ÄB" fails the format check in the model with
  `InvalidCountryFormatException`. The source passes it at
  `provider.py:58-65`. It then raises `UnsupportedCountryException` at
  `provider.py:103`, or accepts the code under a policy that lists it. The
  BAD_REQUEST error code therefore differs for such codes. None of the
  default policy's codes contains a non-ASCII letter.
- Consumer.Decide: the adapter catches `Exception` (`consumer.py:103`). A
  `BaseException` that is not an `Exception`, such as `KeyboardInterrupt`,
  `SystemExit` or `GeneratorExit`, propagates out of `decide` in the source.
  The model has no such failures: `Contract.Failure.Foreign` stands for an
  `Exception` subclass outside the domain hierarchy.
- The human-readable exception messages and the adapter's `error_message`.
  Only error classes and codes are modelled.
- The protocol classes and constructor injection. Only the default
  implementations are modelled.
- `uuidV4`, `Math.random` and `new Date()`. The message id and the creation
  timestamp are inputs to `Chat.BuildMessagePayload`. The expectation that a
  retry's message id differs from `retryOf` rests on randomness and is not
  stated.
- Lone UTF-16 surrogates. A JavaScript string is modelled as a sequence of
  code points. `maxLength` is an integer, not an arbitrary JavaScript number.
- The date arithmetic of the refund rules and the handler: dates are day
  numbers, so `timedelta` overflow near the ends of the calendar is not
  modelled.
- The refund `Decision` class's `__eq__` is field-wise equality on status and
  reason, which is datatype equality here, so it needs no member of its own.
- The frozen dataclasses `PolicyConfig` and `SideEffect` need no
  immutability statement: both are datatype values.
- The streamlit chatbot UI, the contract-testing handler and the generated
  mutant copy of the refund rules. The handler's checks are JSON-schema
  library calls. The mutants' unmutated body is the refund rules modelled
  here.
- The unknown-order test expects the escalation under "ORDER-4014" after
  asking for "ORDER-404". The handler escalates under the id it was asked
  for, and the model follows the handler (`StatusHandler.HandlerExamples`).
- Chat.BuildMessagePayload: the property that long raw text comes back
  truncated to exactly 4000 code points holds only when the stripped text is
  still over 4000. The contract states the truncation in terms of the
  stripped text, because stripping comes first.
