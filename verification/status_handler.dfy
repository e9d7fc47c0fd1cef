/** The "where is my order" handler: it looks the order up, tells the user
    what is happening, and escalates to a human agent when the order is
    unknown or overdue. Escalations are returned as a trace of
    (order id, reason) pairs instead of being sent to a client; dates are
    whole day numbers. */
module StatusHandler {
  import opened Wrappers

  /** Days past the expected delivery an order may be before it counts as
      delayed. */
  const DelayThresholdDays := 3

  datatype TrackedOrder = TrackedOrder(orderId: string, status: string, expectedDelivery: int)

  /** One call of the escalation client. */
  datatype Escalation = Escalation(orderId: string, reason: string)

  /** The handler's answer to the user and the escalations it made. */
  datatype Reply = Reply(message: string, escalations: seq<Escalation>)

  const NotFoundReason := "ORDER_NOT_FOUND"
  const DelayReason := "DELIVERY_DELAY"

  /** The pieces of the replies; each reply is a concatenation of pieces
      and the order id. */
  const YourOrder := "Your order "
  const NotFoundPhrase := "couldn't immediately find your order"
  const ShippedPhrase := "has been shipped"
  const DelayedPhrase := "seems delayed"
  const EscalatedPhrase := "escalated"
  const PreparingPhrase := "being prepared"

  const NotFoundMessage :=
    "I " + NotFoundPhrase + ". I've " + EscalatedPhrase + " this to a human agent who will investigate."

  function ShippedMessage(id: string): string {
    YourOrder + id + " " + ShippedPhrase + " and is on its way."
  }

  function DelayedMessage(id: string): string {
    YourOrder + id + " " + DelayedPhrase + ". I've " + EscalatedPhrase
    + " this to a human agent to check with the carrier."
  }

  function PreparingMessage(id: string): string {
    YourOrder + id + " is " + PreparingPhrase + " and should arrive soon."
  }

  /** `t` occurs in `s` starting at position `i`. */
  predicate ContainsAt(s: string, t: string, i: int) {
    0 <= i <= |s| - |t| && s[i..i + |t|] == t
  }

  /** `t` occurs in `s` as a contiguous piece. */
  ghost predicate Contains(s: string, t: string) {
    exists i :: ContainsAt(s, t, i)
  }

  lemma ContainsSelf(t: string)
    ensures Contains(t, t)
  {
    assert ContainsAt(t, t, 0);
  }

  /** A piece of `a` is a piece of `a + b`. */
  lemma ContainsLeft(a: string, b: string, t: string)
    requires Contains(a, t)
    ensures Contains(a + b, t)
  {
    var i :| ContainsAt(a, t, i);
    assert (a + b)[i..i + |t|] == a[i..i + |t|];
    assert ContainsAt(a + b, t, i);
  }

  /** A piece of `b` is a piece of `a + b`. */
  lemma ContainsRight(a: string, b: string, t: string)
    requires Contains(b, t)
    ensures Contains(a + b, t)
  {
    var i :| ContainsAt(b, t, i);
    assert (a + b)[|a| + i..|a| + i + |t|] == b[i..i + |t|];
    assert ContainsAt(a + b, t, |a| + i);
  }

  /** Each reply names the order and carries its phrase. */
  lemma ShippedPhrases(id: string)
    ensures Contains(ShippedMessage(id), id) && Contains(ShippedMessage(id), ShippedPhrase)
  {
    ContainsSelf(id);
    ContainsRight(YourOrder, id, id);
    ContainsLeft(YourOrder + id, " ", id);
    ContainsLeft(YourOrder + id + " ", ShippedPhrase, id);
    ContainsLeft(YourOrder + id + " " + ShippedPhrase, " and is on its way.", id);
    ContainsSelf(ShippedPhrase);
    ContainsRight(YourOrder + id + " ", ShippedPhrase, ShippedPhrase);
    ContainsLeft(YourOrder + id + " " + ShippedPhrase, " and is on its way.", ShippedPhrase);
  }

  lemma DelayedPhrases(id: string)
    ensures Contains(DelayedMessage(id), id) && Contains(DelayedMessage(id), DelayedPhrase)
            && Contains(DelayedMessage(id), EscalatedPhrase)
  {
    var p1 := YourOrder + id;
    var p2 := p1 + " ";
    var p3 := p2 + DelayedPhrase;
    var p4 := p3 + ". I've ";
    var p5 := p4 + EscalatedPhrase;
    var last := " this to a human agent to check with the carrier.";
    assert DelayedMessage(id) == p5 + last;
    ContainsSelf(id);
    ContainsRight(YourOrder, id, id);
    ContainsLeft(p1, " ", id);
    ContainsLeft(p2, DelayedPhrase, id);
    ContainsLeft(p3, ". I've ", id);
    ContainsLeft(p4, EscalatedPhrase, id);
    ContainsLeft(p5, last, id);
    ContainsSelf(DelayedPhrase);
    ContainsRight(p2, DelayedPhrase, DelayedPhrase);
    ContainsLeft(p3, ". I've ", DelayedPhrase);
    ContainsLeft(p4, EscalatedPhrase, DelayedPhrase);
    ContainsLeft(p5, last, DelayedPhrase);
    ContainsSelf(EscalatedPhrase);
    ContainsRight(p4, EscalatedPhrase, EscalatedPhrase);
    ContainsLeft(p5, last, EscalatedPhrase);
  }

  lemma PreparingPhrases(id: string)
    ensures Contains(PreparingMessage(id), id) && Contains(PreparingMessage(id), PreparingPhrase)
  {
    ContainsSelf(id);
    ContainsRight(YourOrder, id, id);
    ContainsLeft(YourOrder + id, " is ", id);
    ContainsLeft(YourOrder + id + " is ", PreparingPhrase, id);
    ContainsLeft(YourOrder + id + " is " + PreparingPhrase, " and should arrive soon.", id);
    ContainsSelf(PreparingPhrase);
    ContainsRight(YourOrder + id + " is ", PreparingPhrase, PreparingPhrase);
    ContainsLeft(YourOrder + id + " is " + PreparingPhrase, " and should arrive soon.", PreparingPhrase);
  }

  lemma NotFoundPhrases()
    ensures Contains(NotFoundMessage, NotFoundPhrase) && Contains(NotFoundMessage, EscalatedPhrase)
  {
    var p1 := "I " + NotFoundPhrase;
    var p2 := p1 + ". I've ";
    var p3 := p2 + EscalatedPhrase;
    var last := " this to a human agent who will investigate.";
    assert NotFoundMessage == p3 + last;
    ContainsSelf(NotFoundPhrase);
    ContainsRight("I ", NotFoundPhrase, NotFoundPhrase);
    ContainsLeft(p1, ". I've ", NotFoundPhrase);
    ContainsLeft(p2, EscalatedPhrase, NotFoundPhrase);
    ContainsLeft(p3, last, NotFoundPhrase);
    ContainsSelf(EscalatedPhrase);
    ContainsRight(p2, EscalatedPhrase, EscalatedPhrase);
    ContainsLeft(p3, last, EscalatedPhrase);
  }

  /** The stub order service's `get_order`: the order stored under the id,
      or nothing when the id is unknown (the source raises `OrderNotFound`). */
  function GetOrder(ordersById: map<string, TrackedOrder>, orderId: string): (r: Option<TrackedOrder>)
    ensures r.Some? <==> orderId in ordersById
    ensures r.Some? ==> r.value == ordersById[orderId]
  {
    if orderId in ordersById then Some(ordersById[orderId]) else None
  }

  /** Lookup over a dictionary that maps `orderId` to `order`: that id finds
      that order, and every other id is found or missed exactly as in the
      dictionary without the entry. */
  lemma GetOrderAfterStore(ordersById: map<string, TrackedOrder>, orderId: string, order: TrackedOrder, other: string)
    ensures GetOrder(ordersById[orderId := order], orderId) == Some(order)
    ensures other != orderId ==> GetOrder(ordersById[orderId := order], other) == GetOrder(ordersById, other)
  {
  }

  /** An order not yet shipped whose expected delivery lies more than the
      threshold before today. */
  predicate Overdue(order: TrackedOrder, today: int) {
    order.expectedDelivery < today - DelayThresholdDays
  }

  /** `handle_where_is_my_order`. An unknown id is escalated under the id
      asked for; a shipped order is reported shipped and never escalated; an
      overdue one is escalated under its own id; any other is reported as
      being prepared. */
  function HandleWhereIsMyOrder(ordersById: map<string, TrackedOrder>, orderId: string, today: int)
    : (r: Reply)
    ensures |r.escalations| <= 1
    ensures orderId !in ordersById ==>
              r == Reply(NotFoundMessage, [Escalation(orderId, NotFoundReason)])
    ensures orderId in ordersById && ordersById[orderId].status == "SHIPPED" ==>
              r == Reply(ShippedMessage(ordersById[orderId].orderId), [])
    ensures orderId in ordersById && ordersById[orderId].status != "SHIPPED"
            && Overdue(ordersById[orderId], today) ==>
              r == Reply(DelayedMessage(ordersById[orderId].orderId),
                         [Escalation(ordersById[orderId].orderId, DelayReason)])
    ensures orderId in ordersById && ordersById[orderId].status != "SHIPPED"
            && !Overdue(ordersById[orderId], today) ==>
              r == Reply(PreparingMessage(ordersById[orderId].orderId), [])
    ensures r.escalations == [] <==>
              orderId in ordersById
              && (ordersById[orderId].status == "SHIPPED" || !Overdue(ordersById[orderId], today))
  {
    match GetOrder(ordersById, orderId)
    case None =>
      Reply(NotFoundMessage, [Escalation(orderId, NotFoundReason)])
    case Some(order) =>
      if order.status == "SHIPPED" then
        Reply(ShippedMessage(order.orderId), [])
      else if Overdue(order, today) then
        Reply(DelayedMessage(order.orderId), [Escalation(order.orderId, DelayReason)])
      else
        Reply(PreparingMessage(order.orderId), [])
  }

  /** What the user is told: every reply about a known order names it; a
      shipped order is reported shipped, an overdue one delayed and a
      waiting one as being prepared; an unknown id is reported not found;
      and whenever an escalation was made the reply says so. */
  lemma {:induction false} ReplyMentions(ordersById: map<string, TrackedOrder>, orderId: string, today: int)
    ensures var r := HandleWhereIsMyOrder(ordersById, orderId, today);
            && (orderId !in ordersById ==> Contains(r.message, NotFoundPhrase))
            && (orderId in ordersById ==> Contains(r.message, ordersById[orderId].orderId))
            && (orderId in ordersById && ordersById[orderId].status == "SHIPPED" ==>
                  Contains(r.message, ShippedPhrase))
            && (orderId in ordersById && r.escalations != [] ==> Contains(r.message, DelayedPhrase))
            && (orderId in ordersById && r.escalations == [] && ordersById[orderId].status != "SHIPPED" ==>
                  Contains(r.message, PreparingPhrase))
            && (r.escalations != [] ==> Contains(r.message, EscalatedPhrase))
  {
    if orderId in ordersById {
      var id := ordersById[orderId].orderId;
      ShippedPhrases(id);
      DelayedPhrases(id);
      PreparingPhrases(id);
    } else {
      NotFoundPhrases();
    }
  }

  /** A shipped order is never escalated, however far past its expected
      delivery: the shipped check comes first. */
  lemma ShippedNeverEscalated(ordersById: map<string, TrackedOrder>, orderId: string, today: int)
    requires orderId in ordersById && ordersById[orderId].status == "SHIPPED"
    ensures HandleWhereIsMyOrder(ordersById, orderId, today).escalations == []
  {
  }

  /** The delay threshold is exclusive: exactly three days late is still
      "being prepared", four days late is escalated. */
  lemma DelayBoundary(order: TrackedOrder, today: int)
    requires order.status != "SHIPPED"
    ensures var m := map[order.orderId := order];
            && (order.expectedDelivery == today - 3 ==>
                  HandleWhereIsMyOrder(m, order.orderId, today).escalations == [])
            && (order.expectedDelivery == today - 4 ==>
                  HandleWhereIsMyOrder(m, order.orderId, today).escalations
                  == [Escalation(order.orderId, DelayReason)])
  {
  }

  /** The three worked calls on day `today`: a shipped ORDER-123, a
      processing ORDER-999 ten days overdue, and ORDER-404 unknown to an empty
      service, which is escalated under the id asked for. */
  lemma HandlerExamples(today: int)
    ensures HandleWhereIsMyOrder(map["ORDER-123" := TrackedOrder("ORDER-123", "SHIPPED", today)],
                                 "ORDER-123", today).escalations == []
    ensures HandleWhereIsMyOrder(map["ORDER-999" := TrackedOrder("ORDER-999", "PROCESSING", today - 10)],
                                 "ORDER-999", today).escalations
            == [Escalation("ORDER-999", "DELIVERY_DELAY")]
    ensures HandleWhereIsMyOrder(map[], "ORDER-404", today).escalations
            == [Escalation("ORDER-404", "ORDER_NOT_FOUND")]
  {
  }
}
