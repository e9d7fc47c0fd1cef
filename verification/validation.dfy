/** The default context validator: a fixed sequence of checks, the first
    violated one deciding which validation exception is raised. */
module Validation {
  import opened Wrappers
  import opened Contract

  // ------------------------------------------------------------------
  // Character classes
  // ------------------------------------------------------------------

  /** Python's `str.isspace` for a single code point. */
  predicate IsPySpace(c: char) {
    || c == '\t' || c == '\n' || c == '\U{B}' || c == '\U{C}' || c == '\r'
    || ('\U{1C}' <= c <= '\U{1F}') || c == ' ' || c == '\U{85}' || c == '\U{A0}'
    || c == '\U{1680}' || ('\U{2000}' <= c <= '\U{200A}') || c == '\U{2028}'
    || c == '\U{2029}' || c == '\U{202F}' || c == '\U{205F}' || c == '\U{3000}'
  }

  /** `s is None or s.strip() == ""`: nothing but whitespace (or empty). */
  predicate IsBlank(s: string) {
    forall i :: 0 <= i < |s| ==> IsPySpace(s[i])
  }

  /** The identifier alphabet `[A-Za-z0-9-_]`. */
  predicate IsIdChar(c: char) {
    ('a' <= c <= 'z') || ('A' <= c <= 'Z') || ('0' <= c <= '9') || c == '-' || c == '_'
  }

  predicate IsAsciiUpper(c: char) { 'A' <= c <= 'Z' }

  /** A letter, as `str.isalpha` sees it (ASCII letters only in this model). */
  predicate IsLetter(c: char) { ('a' <= c <= 'z') || ('A' <= c <= 'Z') }

  /** `str.isalpha`: non-empty and all letters. */
  predicate IsAlpha(s: string) {
    |s| > 0 && forall i :: 0 <= i < |s| ==> IsLetter(s[i])
  }

  /** `str.isupper`: at least one cased character, and every cased one upper case. */
  predicate IsUpper(s: string) {
    (exists i :: 0 <= i < |s| && IsLetter(s[i]))
    && forall i :: 0 <= i < |s| && IsLetter(s[i]) ==> IsAsciiUpper(s[i])
  }

  // ------------------------------------------------------------------
  // Field checks
  // ------------------------------------------------------------------

  /** An identifier is accepted when it is not blank, its length lies in
      `[minLen, maxLen]`, and every character is an identifier character.
      Whitespace is never an identifier character, so the blank test only
      matters for the empty string. */
  function ValidId(s: string, minLen: int, maxLen: int): (r: bool)
    ensures r <==> 0 < |s| && minLen <= |s| <= maxLen
                   && forall i :: 0 <= i < |s| ==> IsIdChar(s[i])
  {
    if IsBlank(s) then
      assert |s| > 0 ==> IsPySpace(s[0]) && !IsIdChar(s[0]);
      false
    else if !(minLen <= |s| <= maxLen) then false
    else forall i :: 0 <= i < |s| ==> IsIdChar(s[i])
  }

  /** A country code is well-formed when it has exactly `countryCodeLen`
      characters, all of them upper-case letters. */
  function ValidCountryFormat(code: string, cfg: PolicyConfig): (r: bool)
    ensures r <==> 0 < |code| == cfg.countryCodeLen
                   && forall i :: 0 <= i < |code| ==> IsAsciiUpper(code[i])
  {
    if IsBlank(code) then
      assert |code| > 0 ==> IsPySpace(code[0]) && !IsLetter(code[0]);
      false
    else if |code| != cfg.countryCodeLen then false
    else if !IsAlpha(code) || !IsUpper(code) then false
    else true
  }

  predicate ActionOk(ctx: CustomerContext) {
    ctx.action.Recognized?
  }

  predicate CustomerIdOk(ctx: CustomerContext, cfg: PolicyConfig) {
    ValidId(ctx.customerId, cfg.minCustomerIdLen, cfg.maxCustomerIdLen)
  }

  predicate CountryFormatOk(ctx: CustomerContext, cfg: PolicyConfig) {
    ValidCountryFormat(ctx.country, cfg)
  }

  predicate CountrySupported(ctx: CustomerContext, cfg: PolicyConfig) {
    ctx.country in cfg.supportedCountries
  }

  predicate AttemptsOk(ctx: CustomerContext, cfg: PolicyConfig) {
    cfg.minFailedAiAttempts <= ctx.recentFailedAiAttempts <= cfg.maxFailedAiAttempts
  }

  /** Confidence must be a finite number in [0, 1]; reals are always finite. */
  predicate ConfidenceOk(ctx: CustomerContext) {
    0.0 <= ctx.aiConfidence <= 1.0
  }

  /** Every check on the context's own fields passes and an order list is present. */
  predicate FieldsOk(ctx: CustomerContext, cfg: PolicyConfig) {
    && ActionOk(ctx) && CustomerIdOk(ctx, cfg) && CountryFormatOk(ctx, cfg)
    && CountrySupported(ctx, cfg) && AttemptsOk(ctx, cfg) && ConfidenceOk(ctx)
    && ctx.orders.Some?
  }

  // ------------------------------------------------------------------
  // Orders
  // ------------------------------------------------------------------

  /** The per-order checks, in order: id, then amount, then item count. */
  function CheckOrder(o: Order, cfg: PolicyConfig): (r: Outcome<ExceptionClass>)
    ensures r.Fail? ==> r.error in {InvalidOrderIdException, InvalidOrderAmountException,
                                    InvalidOrderItemCountException}
    ensures r.Pass? <==> ValidId(o.orderId, cfg.minOrderIdLen, cfg.maxOrderIdLen)
                         && 0.0 <= o.totalAmount <= 1000000.0 && 0 <= o.itemCount <= 999
    ensures r == Fail(InvalidOrderIdException)
            <==> !ValidId(o.orderId, cfg.minOrderIdLen, cfg.maxOrderIdLen)
    ensures r == Fail(InvalidOrderAmountException)
            <==> ValidId(o.orderId, cfg.minOrderIdLen, cfg.maxOrderIdLen)
                 && !(0.0 <= o.totalAmount <= 1000000.0)
    ensures r == Fail(InvalidOrderItemCountException)
            <==> ValidId(o.orderId, cfg.minOrderIdLen, cfg.maxOrderIdLen)
                 && 0.0 <= o.totalAmount <= 1000000.0 && !(0 <= o.itemCount <= 999)
  {
    if !ValidId(o.orderId, cfg.minOrderIdLen, cfg.maxOrderIdLen) then Fail(InvalidOrderIdException)
    else if !(0.0 <= o.totalAmount <= 1000000.0) then Fail(InvalidOrderAmountException)
    else if !(0 <= o.itemCount <= 999) then Fail(InvalidOrderItemCountException)
    else Pass
  }

  /** Where the scan over the order list stopped, and why. */
  datatype OrderViolation = OrderViolation(index: nat, cls: ExceptionClass)

  /** Scans `orders` from index `from` in list order and reports the first
      order that fails its checks. */
  function FirstInvalidOrder(orders: seq<Order>, cfg: PolicyConfig, from: nat): (r: Option<OrderViolation>)
    requires from <= |orders|
    decreases |orders| - from
    ensures r.None? <==> forall j :: from <= j < |orders| ==> CheckOrder(orders[j], cfg).Pass?
    ensures r.Some? ==> && from <= r.value.index < |orders|
                        && CheckOrder(orders[r.value.index], cfg) == Fail(r.value.cls)
                        && forall j :: from <= j < r.value.index ==> CheckOrder(orders[j], cfg).Pass?
  {
    if from == |orders| then None
    else match CheckOrder(orders[from], cfg)
      case Fail(c) => Some(OrderViolation(from, c))
      case Pass => FirstInvalidOrder(orders, cfg, from + 1)
  }

  // ------------------------------------------------------------------
  // The validator
  // ------------------------------------------------------------------

  /** `validate_or_raise`: passes, or fails with the class of the first
      violated check in the order action, customer id, country format,
      country support, attempts range, confidence range, order list present,
      then each order by index. */
  function Validate(ctx: CustomerContext, cfg: PolicyConfig): (r: Outcome<ExceptionClass>)
    ensures r.Fail? ==> IsA(r.error, ContextValidationException)
    ensures r == Fail(InvalidCustomerActionException) <==> !ActionOk(ctx)
    ensures r == Fail(InvalidCustomerIdException) <==> ActionOk(ctx) && !CustomerIdOk(ctx, cfg)
    ensures r == Fail(InvalidCountryFormatException) <==>
              ActionOk(ctx) && CustomerIdOk(ctx, cfg) && !CountryFormatOk(ctx, cfg)
    ensures r == Fail(UnsupportedCountryException) <==>
              ActionOk(ctx) && CustomerIdOk(ctx, cfg) && CountryFormatOk(ctx, cfg)
              && !CountrySupported(ctx, cfg)
    ensures r == Fail(InvalidRecentFailedAIAttemptsException) <==>
              ActionOk(ctx) && CustomerIdOk(ctx, cfg) && CountryFormatOk(ctx, cfg)
              && CountrySupported(ctx, cfg) && !AttemptsOk(ctx, cfg)
    ensures r == Fail(InvalidAIConfidenceException) <==>
              ActionOk(ctx) && CustomerIdOk(ctx, cfg) && CountryFormatOk(ctx, cfg)
              && CountrySupported(ctx, cfg) && AttemptsOk(ctx, cfg) && !ConfidenceOk(ctx)
    ensures r == Fail(ContextValidationException) <==>
              ActionOk(ctx) && CustomerIdOk(ctx, cfg) && CountryFormatOk(ctx, cfg)
              && CountrySupported(ctx, cfg) && AttemptsOk(ctx, cfg) && ConfidenceOk(ctx)
              && ctx.orders.None?
    ensures r.Fail? && r.error in {InvalidOrderIdException, InvalidOrderAmountException,
                                   InvalidOrderItemCountException} <==>
              FieldsOk(ctx, cfg) && FirstInvalidOrder(ctx.orders.value, cfg, 0).Some?
    ensures FieldsOk(ctx, cfg) && FirstInvalidOrder(ctx.orders.value, cfg, 0).Some? ==>
              r == Fail(FirstInvalidOrder(ctx.orders.value, cfg, 0).value.cls)
    ensures r.Pass? <==> FieldsOk(ctx, cfg)
                         && forall j :: 0 <= j < |ctx.orders.value| ==>
                                          CheckOrder(ctx.orders.value[j], cfg).Pass?
  {
    HierarchyShape(InvalidOrderIdException);
    HierarchyShape(InvalidOrderAmountException);
    HierarchyShape(InvalidOrderItemCountException);
    if !ActionOk(ctx) then
      HierarchyShape(InvalidCustomerActionException);
      Fail(InvalidCustomerActionException)
    else if !CustomerIdOk(ctx, cfg) then
      HierarchyShape(InvalidCustomerIdException);
      Fail(InvalidCustomerIdException)
    else if !CountryFormatOk(ctx, cfg) then
      HierarchyShape(InvalidCountryFormatException);
      Fail(InvalidCountryFormatException)
    else if !CountrySupported(ctx, cfg) then
      HierarchyShape(UnsupportedCountryException);
      Fail(UnsupportedCountryException)
    else if !AttemptsOk(ctx, cfg) then
      HierarchyShape(InvalidRecentFailedAIAttemptsException);
      Fail(InvalidRecentFailedAIAttemptsException)
    else if !ConfidenceOk(ctx) then
      HierarchyShape(InvalidAIConfidenceException);
      Fail(InvalidAIConfidenceException)
    else if ctx.orders.None? then
      HierarchyShape(ContextValidationException);
      Fail(ContextValidationException)
    else match FirstInvalidOrder(ctx.orders.value, cfg, 0)
      case Some(v) => Fail(v.cls)
      case None => Pass
  }

  /** Under the default policy, with the earlier checks passing, every
      attempt count from 0 to 5 gets past the attempts check and -1 and 6
      fail it. */
  lemma AttemptsBoundaries(ctx: CustomerContext)
    requires ActionOk(ctx) && CustomerIdOk(ctx, DefaultPolicy())
    requires CountryFormatOk(ctx, DefaultPolicy()) && CountrySupported(ctx, DefaultPolicy())
    ensures Validate(ctx, DefaultPolicy()) == Fail(InvalidRecentFailedAIAttemptsException)
            <==> ctx.recentFailedAiAttempts < 0 || ctx.recentFailedAiAttempts > 5
    ensures ctx.recentFailedAiAttempts in {-1, 6} ==>
              Validate(ctx, DefaultPolicy()) == Fail(InvalidRecentFailedAIAttemptsException)
  {
  }
}
