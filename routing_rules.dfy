/**
 * The routing rule table and its two queries. Rules are read, never written,
 * by the gateway; the table is an input in the order the database returns it.
 */
module RoutingRules {
  import opened Common
  import opened Sorting

  /**
   * A routing rule. A missing merchant, currency or BIN prefix is a wildcard;
   * the commission rate is in hundredths of a percent.
   */
  datatype RoutingRule = RoutingRule(
    merchantId: Option<string>,
    currency: Option<string>,
    cardBinPrefix: Option<string>,
    providerName: string,
    priority: int,
    commissionRate: Option<int>,
    isActive: bool)

  /**
   * The WHERE clause of `findMatchingRules`. A BIN prefix only matches a present
   * BIN (comparing with SQL NULL is never true) that starts with it.
   */
  predicate Matches(rule: RoutingRule, merchantId: string, currency: string, cardBin: Option<string>) {
    && rule.isActive
    && (rule.merchantId.None? || rule.merchantId.value == merchantId)
    && (rule.currency.None? || rule.currency.value == currency)
    && (rule.cardBinPrefix.None? || (cardBin.Some? && StartsWith(cardBin.value, rule.cardBinPrefix.value)))
  }

  /** Sort key of `ORDER BY priority DESC`. */
  function PriorityDesc(rule: RoutingRule): int {
    -rule.priority
  }

  /**
   * `findMatchingRules(merchantId, currency, cardBin)`: exactly the matching
   * rules, highest priority first. Rules of equal priority keep table order.
   */
  function FindMatchingRules(rules: seq<RoutingRule>, merchantId: string, currency: string, cardBin: Option<string>)
    : (r: seq<RoutingRule>)
    ensures forall rule :: rule in r <==> rule in rules && Matches(rule, merchantId, currency, cardBin)
    ensures multiset(r) <= multiset(rules)
    ensures forall i, j | 0 <= i < j < |r| :: r[i].priority >= r[j].priority
  {
    var matching := Filter(rules, (rule: RoutingRule) => Matches(rule, merchantId, currency, cardBin));
    SortByMembers(matching, PriorityDesc);
    SortBy(matching, PriorityDesc)
  }

  /** `findByMerchantIdAndIsActiveTrueOrderByPriorityDesc(merchantId)`. */
  function FindActiveRulesForMerchant(rules: seq<RoutingRule>, merchantId: string): (r: seq<RoutingRule>)
    ensures forall rule :: rule in r <==> rule in rules && rule.isActive && rule.merchantId == Some(merchantId)
    ensures forall i, j | 0 <= i < j < |r| :: r[i].priority >= r[j].priority
  {
    var own := Filter(rules, (rule: RoutingRule) => rule.isActive && rule.merchantId == Some(merchantId));
    SortByMembers(own, PriorityDesc);
    SortBy(own, PriorityDesc)
  }
}
