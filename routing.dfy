/**
 * Provider selection. The matching rules are tried in priority order; the
 * first one whose provider is registered and healthy wins. Without such a
 * rule the first healthy adapter is used, and without a healthy adapter the
 * first registered one. An empty registry is an error.
 *
 * The registry is an ordered sequence: the first adapter stands for the first
 * value the source's name-to-adapter hash map yields, an order it does not fix.
 * Each adapter's health is the answer its health check gives during the call.
 */
module Routing {
  import opened Common
  import opened Domain
  import opened Providers
  import opened BinLookup
  import opened RoutingRules

  /** Commission applied when no rule decided the provider: 1.99 %. */
  const FallbackCommissionRate := 199

  datatype RoutingContext = RoutingContext(
    merchantId: string, currency: string, cardBin: Option<string>, country: Option<string>)

  /** `RoutingContext.of`: the country is left unset. */
  function ContextOf(merchantId: string, currency: string, cardBin: Option<string>): RoutingContext {
    RoutingContext(merchantId, currency, cardBin, None)
  }

  /** Why a provider was chosen. */
  datatype Reason =
    | OnUs(bankName: Option<string>, providerName: string)
    | MerchantAgreement(merchantId: string)
    | CurrencyBased(currency: string)
    | DefaultRule
    | NoRuleMatched
    | AllUnhealthy

  /** The reason as logged and reported; an absent bank name prints as "null". */
  function ReasonText(reason: Reason): string {
    match reason
    case OnUs(bank, provider) =>
      "ON-US: " + (if bank.Some? then bank.value else "null") + " kartı → " + provider + " (düşük komisyon)"
    case MerchantAgreement(m) => "Merchant anlaşması: " + m
    case CurrencyBased(c) => "Currency bazlı: " + c
    case DefaultRule => "Varsayılan kural"
    case NoRuleMatched => "Eşleşen kural bulunamadı, fallback kullanıldı"
    case AllUnhealthy => "Tüm provider'lar unhealthy"
  }

  datatype RoutingResult = RoutingResult(
    provider: AdapterEntry,
    providerName: string,
    commissionRate: Option<int>,
    reason: Reason,
    binInfo: Option<BinInfo>)

  /** HEALTHY and DEGRADED adapters are usable; UNHEALTHY or a failing health check is not. */
  predicate IsHealthy(adapter: AdapterEntry) {
    adapter.health == Reports(Healthy) || adapter.health == Reports(Degraded)
  }

  /** `tryProvider(name)`: the adapter registered under `name`, if it is healthy. */
  function TryProvider(registry: seq<AdapterEntry>, name: string): (r: Option<AdapterEntry>)
    ensures r.Some? ==> r.value in registry && r.value.name == name && IsHealthy(r.value)
    ensures r.None? <==> LookupAdapter(registry, name).None? || !IsHealthy(LookupAdapter(registry, name).value)
  {
    var adapter := LookupAdapter(registry, name);
    if adapter.Some? && IsHealthy(adapter.value) then adapter else None
  }

  /** Index of the first rule whose provider `TryProvider` accepts. */
  function FirstUsableRule(rules: seq<RoutingRule>, registry: seq<AdapterEntry>): (r: Option<nat>)
    ensures r.Some? ==> r.value < |rules| && TryProvider(registry, rules[r.value].providerName).Some?
    ensures r.Some? ==> forall j | 0 <= j < r.value :: TryProvider(registry, rules[j].providerName).None?
    ensures r.None? ==> forall j | 0 <= j < |rules| :: TryProvider(registry, rules[j].providerName).None?
  {
    if rules == [] then None
    else if TryProvider(registry, rules[0].providerName).Some? then Some(0)
    else
      var rest := FirstUsableRule(rules[1..], registry);
      if rest.Some? then Some(rest.value + 1) else None
  }

  /** Index of the first healthy adapter. */
  function FirstHealthy(registry: seq<AdapterEntry>): (r: Option<nat>)
    ensures r.Some? ==> r.value < |registry| && IsHealthy(registry[r.value])
    ensures r.Some? ==> forall j | 0 <= j < r.value :: !IsHealthy(registry[j])
    ensures r.None? ==> forall j | 0 <= j < |registry| :: !IsHealthy(registry[j])
  {
    if registry == [] then None
    else if IsHealthy(registry[0]) then Some(0)
    else
      var rest := FirstHealthy(registry[1..]);
      if rest.Some? then Some(rest.value + 1) else None
  }

  /** `buildReason`: on-us beats merchant agreement, which beats currency, which beats the default. */
  function BuildReason(rule: RoutingRule, binInfo: Option<BinInfo>): (r: Reason)
    ensures r.OnUs? <==> rule.cardBinPrefix.Some? && binInfo.Some?
    ensures r.OnUs? ==> r == OnUs(binInfo.value.bankName, rule.providerName)
    ensures r.MerchantAgreement? <==> !r.OnUs? && rule.merchantId.Some?
    ensures r.CurrencyBased? <==> !r.OnUs? && rule.merchantId.None? && rule.currency.Some?
    ensures r.DefaultRule? <==> !r.OnUs? && rule.merchantId.None? && rule.currency.None?
  {
    if rule.cardBinPrefix.Some? && binInfo.Some? then OnUs(binInfo.value.bankName, rule.providerName)
    else if rule.merchantId.Some? then MerchantAgreement(rule.merchantId.value)
    else if rule.currency.Some? then CurrencyBased(rule.currency.value)
    else DefaultRule
  }

  /** `selectProvider(context)`. */
  function SelectProvider(ctx: RoutingContext, table: seq<RoutingRule>, registry: seq<AdapterEntry>, db: BinDatabase)
    : (r: Result<RoutingResult, Fault>)
    ensures r.Err? <==> registry == []
    ensures r.Err? ==> r.error == Unexpected(NoProvidersAvailable)
    ensures r.Ok? ==> r.value.provider in registry && r.value.provider.name == r.value.providerName
    ensures r.Ok? ==> r.value.binInfo == Lookup(ctx.cardBin, db)
    ensures r.Ok? && (exists a | a in registry :: IsHealthy(a)) ==> IsHealthy(r.value.provider)
  {
    var binInfo := Lookup(ctx.cardBin, db);
    var rules := FindMatchingRules(table, ctx.merchantId, ctx.currency, ctx.cardBin);
    var chosen := FirstUsableRule(rules, registry);
    if chosen.Some? then
      var rule := rules[chosen.value];
      var adapter := TryProvider(registry, rule.providerName).value;
      Ok(RoutingResult(adapter, rule.providerName, rule.commissionRate, BuildReason(rule, binInfo), binInfo))
    else
      var healthy := FirstHealthy(registry);
      if healthy.Some? then
        var adapter := registry[healthy.value];
        Ok(RoutingResult(adapter, adapter.name, Some(FallbackCommissionRate), NoRuleMatched, binInfo))
      else if registry != [] then
        assert forall a | a in registry :: !IsHealthy(a);
        Ok(RoutingResult(registry[0], registry[0].name, Some(FallbackCommissionRate), AllUnhealthy, binInfo))
      else
        Err(Unexpected(NoProvidersAvailable))
  }

  /**
   * When a rule decides, the result carries that rule's provider, commission
   * and reason, and no matching rule with a usable provider has a higher
   * priority than the chosen one.
   */
  lemma {:induction false} RuleDecidesProvider(
    ctx: RoutingContext, table: seq<RoutingRule>, registry: seq<AdapterEntry>, db: BinDatabase)
    requires FirstUsableRule(FindMatchingRules(table, ctx.merchantId, ctx.currency, ctx.cardBin), registry).Some?
    ensures
      var rules := FindMatchingRules(table, ctx.merchantId, ctx.currency, ctx.cardBin);
      var rule := rules[FirstUsableRule(rules, registry).value];
      var r := SelectProvider(ctx, table, registry, db);
      && r.Ok?
      && Matches(rule, ctx.merchantId, ctx.currency, ctx.cardBin)
      && r.value.providerName == rule.providerName
      && r.value.commissionRate == rule.commissionRate
      && r.value.reason == BuildReason(rule, Lookup(ctx.cardBin, db))
      && IsHealthy(r.value.provider)
      && forall other | other in table && Matches(other, ctx.merchantId, ctx.currency, ctx.cardBin)
                        && TryProvider(registry, other.providerName).Some? :: other.priority <= rule.priority
  {
    var rules := FindMatchingRules(table, ctx.merchantId, ctx.currency, ctx.cardBin);
    var i := FirstUsableRule(rules, registry).value;
    forall other | other in table && Matches(other, ctx.merchantId, ctx.currency, ctx.cardBin)
                   && TryProvider(registry, other.providerName).Some?
      ensures other.priority <= rules[i].priority
    {
      assert other in rules;
      var j :| 0 <= j < |rules| && rules[j] == other;
      assert i <= j;
      if i < j {
        assert rules[i].priority >= rules[j].priority;
      }
    }
  }

  /** Without a usable rule, the first healthy adapter is taken at 1.99 %. */
  lemma {:induction false} FallbackToFirstHealthy(
    ctx: RoutingContext, table: seq<RoutingRule>, registry: seq<AdapterEntry>, db: BinDatabase)
    requires FirstUsableRule(FindMatchingRules(table, ctx.merchantId, ctx.currency, ctx.cardBin), registry).None?
    requires FirstHealthy(registry).Some?
    ensures
      var r := SelectProvider(ctx, table, registry, db);
      var k := FirstHealthy(registry).value;
      && r.Ok?
      && r.value.provider == registry[k]
      && r.value.providerName == registry[k].name
      && r.value.commissionRate == Some(FallbackCommissionRate)
      && r.value.reason == NoRuleMatched
      && forall j | 0 <= j < k :: !IsHealthy(registry[j])
  {
  }

  /** With no healthy adapter at all, the first registered one is forced at 1.99 %. */
  lemma {:induction false} ForcedWhenAllUnhealthy(
    ctx: RoutingContext, table: seq<RoutingRule>, registry: seq<AdapterEntry>, db: BinDatabase)
    requires registry != []
    requires forall a | a in registry :: !IsHealthy(a)
    ensures
      var r := SelectProvider(ctx, table, registry, db);
      && r.Ok?
      && r.value.provider == registry[0]
      && r.value.commissionRate == Some(FallbackCommissionRate)
      && r.value.reason == AllUnhealthy
  {
  }

  /**
   * Of two matching rules, one whose provider is unusable is passed over for
   * one whose provider is usable, whatever their priorities.
   */
  lemma {:induction false} UnusableRuleIsSkipped(
    ctx: RoutingContext, a: RoutingRule, b: RoutingRule, registry: seq<AdapterEntry>, db: BinDatabase)
    requires Matches(b, ctx.merchantId, ctx.currency, ctx.cardBin)
    requires TryProvider(registry, a.providerName).None?
    requires TryProvider(registry, b.providerName).Some?
    ensures
      var r := SelectProvider(ctx, [a, b], registry, db);
      && r.Ok?
      && r.value.providerName == b.providerName
      && r.value.commissionRate == b.commissionRate
      && r.value.reason == BuildReason(b, Lookup(ctx.cardBin, db))
  {
    var rules := FindMatchingRules([a, b], ctx.merchantId, ctx.currency, ctx.cardBin);
    assert b in rules;
    OnlyUsableRuleIsChosen(rules, registry, a, b);
    RuleDecidesProvider(ctx, [a, b], registry, db);
  }

  /** Among rules drawn from `a` and `b` that include `b`, only `b`'s provider can be chosen. */
  lemma OnlyUsableRuleIsChosen(rules: seq<RoutingRule>, registry: seq<AdapterEntry>, a: RoutingRule, b: RoutingRule)
    requires forall rule | rule in rules :: rule == a || rule == b
    requires b in rules
    requires TryProvider(registry, a.providerName).None? && TryProvider(registry, b.providerName).Some?
    ensures FirstUsableRule(rules, registry).Some? && rules[FirstUsableRule(rules, registry).value] == b
  {
    var j :| 0 <= j < |rules| && rules[j] == b;
    var chosen := FirstUsableRule(rules, registry);
    assert chosen.Some?;
    assert rules[chosen.value] in rules;
  }

  /**
   * A higher-priority rule does not win on priority alone: with an unhealthy
   * PROVIDER_A on a priority-2 rule (1.00 %) and a healthy PROVIDER_B on a
   * priority-1 rule (1.75 %), PROVIDER_B is chosen at 1.75 %.
   */
  lemma UnhealthyHigherPriorityIsSkipped(merchant: string, currency: string)
    ensures
      var ruleA := RoutingRule(Some(merchant), None, None, "PROVIDER_A", 2, Some(100), true);
      var ruleB := RoutingRule(Some(merchant), None, None, "PROVIDER_B", 1, Some(175), true);
      var registry := [AdapterEntry("PROVIDER_A", Reports(Unhealthy)), AdapterEntry("PROVIDER_B", Reports(Healthy))];
      var r := SelectProvider(ContextOf(merchant, currency, None), [ruleA, ruleB], registry, Unreachable);
      r.Ok? && r.value.providerName == "PROVIDER_B" && r.value.commissionRate == Some(175)
        && r.value.reason == MerchantAgreement(merchant)
  {
    var ruleA := RoutingRule(Some(merchant), None, None, "PROVIDER_A", 2, Some(100), true);
    var ruleB := RoutingRule(Some(merchant), None, None, "PROVIDER_B", 1, Some(175), true);
    var registry := [AdapterEntry("PROVIDER_A", Reports(Unhealthy)), AdapterEntry("PROVIDER_B", Reports(Healthy))];
    assert LookupAdapter(registry, "PROVIDER_A") == Some(registry[0]);
    assert LookupAdapter(registry[1..], "PROVIDER_B") == Some(registry[1]);
    UnusableRuleIsSkipped(ContextOf(merchant, currency, None), ruleA, ruleB, registry, Unreachable);
  }

  /**
   * Unscoped rules for an unhealthy MOCK_PROVIDER (priority 1, 1.00 %) and a
   * healthy FALLBACK_PROVIDER (priority 2, 1.75 %), with no BIN information:
   * FALLBACK_PROVIDER is chosen at 1.75 %.
   */
  lemma UnhealthyMockGivesWayToFallback()
    ensures
      var unhealthyRule := RoutingRule(None, None, None, "MOCK_PROVIDER", 1, Some(100), true);
      var healthyRule := RoutingRule(None, None, None, "FALLBACK_PROVIDER", 2, Some(175), true);
      var registry := [AdapterEntry("MOCK_PROVIDER", Reports(Unhealthy)),
                       AdapterEntry("FALLBACK_PROVIDER", Reports(Healthy))];
      var r := SelectProvider(ContextOf("merchant-1", "TRY", Some("415679")), [unhealthyRule, healthyRule],
                              registry, Reachable([]));
      r.Ok? && r.value.providerName == "FALLBACK_PROVIDER" && r.value.commissionRate == Some(175)
        && r.value.binInfo.None?
  {
    var unhealthyRule := RoutingRule(None, None, None, "MOCK_PROVIDER", 1, Some(100), true);
    var healthyRule := RoutingRule(None, None, None, "FALLBACK_PROVIDER", 2, Some(175), true);
    var registry := [AdapterEntry("MOCK_PROVIDER", Reports(Unhealthy)),
                     AdapterEntry("FALLBACK_PROVIDER", Reports(Healthy))];
    assert LookupAdapter(registry, "MOCK_PROVIDER") == Some(registry[0]);
    assert LookupAdapter(registry[1..], "FALLBACK_PROVIDER") == Some(registry[1]);
    UnusableRuleIsSkipped(ContextOf("merchant-1", "TRY", Some("415679")), unhealthyRule, healthyRule, registry,
                          Reachable([]));
  }

  /** `maskBin`: "****" for a missing or short BIN, else its first four characters and "**". */
  function MaskBin(bin: Option<string>): (r: string)
    ensures |r| >= 4 && r[|r| - 2..] == "**"
    ensures bin.Some? && |bin.value| >= 4 ==> r[..4] == bin.value[..4] && |r| == 6
    ensures bin.None? || |bin.value| < 4 ==> r == "****"
  {
    if bin.None? || |bin.value| < 4 then "****" else bin.value[..4] + "**"
  }
}
