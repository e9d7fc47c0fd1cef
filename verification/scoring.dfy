/** The default risk scorer and the default order selector. */
module Scoring {
  import opened Contract

  /** The additive risk score of one order: 2 when the amount reaches the
      high-value threshold, 5 when the order is flagged as a fraud risk,
      3 when it has an open dispute. */
  function Score(o: Order, cfg: PolicyConfig): (s: int)
    ensures 0 <= s <= 10
    ensures s == 0 <==> o.totalAmount < cfg.highValueAmountThreshold
                        && !o.isFlaggedFraudRisk && !o.hasOpenDispute
    ensures o.isFlaggedFraudRisk ==> s >= 5
  {
    var s := 0;
    var s := if o.totalAmount >= cfg.highValueAmountThreshold then s + 2 else s;
    var s := if o.isFlaggedFraudRisk then s + 5 else s;
    var s := if o.hasOpenDispute then s + 3 else s;
    s
  }

  /** The score is a sum of a subset of the weights 2, 5 and 3, so it takes
      one of seven values. */
  lemma ScoreValues(o: Order, cfg: PolicyConfig)
    ensures Score(o, cfg) in {0, 2, 3, 5, 7, 8, 10}
  {
  }

  /** The weights: 2 for a high amount, 5 for a fraud flag, 3 for an open
      dispute, added up. */
  lemma ScoreWeights(o: Order, cfg: PolicyConfig)
    ensures Score(o, cfg)
            == (if o.totalAmount >= cfg.highValueAmountThreshold then 2 else 0)
             + (if o.isFlaggedFraudRisk then 5 else 0)
             + (if o.hasOpenDispute then 3 else 0)
  {
  }

  /** Raising any risk factor of an order never lowers its score. */
  lemma ScoreMonotone(o: Order, p: Order, cfg: PolicyConfig)
    requires o.totalAmount >= cfg.highValueAmountThreshold ==> p.totalAmount >= cfg.highValueAmountThreshold
    requires o.isFlaggedFraudRisk ==> p.isFlaggedFraudRisk
    requires o.hasOpenDispute ==> p.hasOpenDispute
    ensures Score(o, cfg) <= Score(p, cfg)
  {
  }

  /** `k` indexes an order of maximal score, and every earlier order scores
      strictly less: the earliest of the maximal orders. */
  ghost predicate IsEarliestMax(orders: seq<Order>, k: int, cfg: PolicyConfig) {
    && 0 <= k < |orders|
    && (forall j :: 0 <= j < |orders| ==> Score(orders[j], cfg) <= Score(orders[k], cfg))
    && (forall j :: 0 <= j < k ==> Score(orders[j], cfg) < Score(orders[k], cfg))
  }

  /** At most one index is the earliest maximal one, so the selector below
      is fully determined by its contract. */
  lemma EarliestMaxUnique(orders: seq<Order>, k1: int, k2: int, cfg: PolicyConfig)
    requires IsEarliestMax(orders, k1, cfg) && IsEarliestMax(orders, k2, cfg)
    ensures k1 == k2
  {
    var s1, s2 := Score(orders[k1], cfg), Score(orders[k2], cfg);
    assert s1 == s2;
    if k1 < k2 {
      assert false;
    } else if k2 < k1 {
      assert false;
    }
  }

  /** The position the selector's single left-to-right scan ends on: it
      starts with the first order and moves to a later one only when that
      one scores strictly higher. */
  function SelectIndex(orders: seq<Order>, cfg: PolicyConfig): (k: nat)
    requires |orders| > 0
    decreases |orders|
    ensures IsEarliestMax(orders, k, cfg)
  {
    if |orders| == 1 then 0
    else
      var last := |orders| - 1;
      var k := SelectIndex(orders[..last], cfg);
      assert forall j :: 0 <= j < last ==> orders[..last][j] == orders[j];
      if Score(orders[last], cfg) > Score(orders[k], cfg) then last else k
  }

  /** `select`: the highest-scoring order, the earliest one on ties. The
      source requires a non-empty list of its callers. */
  function Select(orders: seq<Order>, cfg: PolicyConfig): (o: Order)
    requires |orders| > 0
    ensures o in orders
    ensures forall p :: p in orders ==> Score(p, cfg) <= Score(o, cfg)
    ensures exists k :: IsEarliestMax(orders, k, cfg) && o == orders[k]
  {
    var k := SelectIndex(orders, cfg);
    orders[k]
  }
}
