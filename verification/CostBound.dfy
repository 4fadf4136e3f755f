/** The conservative bound on what one trial can cost (src/evaluation/smoke.ts) against the cost the
    recorder computes from the trial's ledger (src/artifacts/runtime-recorder.ts). */
module CostBound {
  import opened Ordering
  import opened Usage
  import opened Wrappers
  import Trials

  datatype Billing = UnknownBilling | Subscription | PerToken

  datatype Model = Model(billing: Billing, pricing: Option<Pricing>)

  datatype Config = Config(
    classifier: Model, weak: Model, strong: Model, maxAgentTurns: nat, contextTokenCap: nat, maxOutputTokens: nat)

  datatype NoLimit = OtherBilling(model: Model) | NoCachePricing(model: Model)

  function MonetaryLimitOf(m: Model): Option<NoLimit> {
    if !m.billing.PerToken? || m.pricing.None? then Some(OtherBilling(m))
    else if m.pricing.value.cacheRead.None? || m.pricing.value.cacheWrite.None? then Some(NoCachePricing(m))
    else None
  }

  function MonetaryLimitReason(c: Config): Option<NoLimit> {
    if MonetaryLimitOf(c.classifier).Some? then MonetaryLimitOf(c.classifier)
    else if MonetaryLimitOf(c.weak).Some? then MonetaryLimitOf(c.weak)
    else MonetaryLimitOf(c.strong)
  }

  function Max(x: real, y: real): real { if x < y then y else x }

  function HighestInputRate(p: Pricing): real { Max(p.input, Max(Or(p.cacheRead, 0.0), Or(p.cacheWrite, 0.0))) }

  function RequestBound(c: Config, p: Pricing): real {
    (c.contextTokenCap as real * HighestInputRate(p) + c.maxOutputTokens as real * p.output) / 1000000.0
  }

  function ConservativeTrialCostBound(c: Config, mode: Trials.Mode): Result<real, NoLimit> {
    if MonetaryLimitReason(c).Some? then Err(MonetaryLimitReason(c).value) else Ok(Reserve(c, mode))
  }

  /** Without prices there is no bound, and these are not used. */
  const NO_PRICES := Pricing(0.0, 0.0, Some(0.0), Some(0.0))

  function PricesOf(m: Model): Pricing { if m.pricing.Some? then m.pricing.value else NO_PRICES }

  function Reserve(c: Config, mode: Trials.Mode): real {
    CodingBound(c, mode) * c.maxAgentTurns as real + ClassifierBound(c, mode)
  }

  /** What one coding request is assumed to cost at most. */
  function CodingBound(c: Config, mode: Trials.Mode): real {
    var weak, strong := RequestBound(c, PricesOf(c.weak)), RequestBound(c, PricesOf(c.strong));
    if mode.WeakOnly? then weak else if mode.StrongOnly? then strong else Max(weak, strong)
  }

  function ClassifierBound(c: Config, mode: Trials.Mode): real {
    if mode.Routed? then RequestBound(c, PricesOf(c.classifier)) else 0.0
  }

  // ----- what the recorder reports -----

  /** The estimated part of `calculateRoleCost`. */
  function EstimatedCost(m: Model, s: Summary): Option<real> {
    if m.billing.PerToken? && m.pricing.Some? then CalculateWithPricing(s, m.pricing.value) else None
  }

  function SumKnown(left: Option<real>, right: Option<real>): Option<real> {
    if left.None? || right.None? then None else Some(left.value + right.value)
  }

  function CodingModel(c: Config, tier: Trials.Tier): Model { if tier.Weak? then c.weak else c.strong }

  function SelectedTier(mode: Trials.Mode, decided: Option<Trials.Tier>): Trials.Tier {
    if decided.Some? then decided.value else if mode.StrongOnly? then Trials.Strong else Trials.Weak
  }

  /** `totalEstimatedCostUsd` of `finalize`. */
  function TotalEstimatedCost(c: Config, mode: Trials.Mode, decided: Option<Trials.Tier>, calls: seq<Call>)
    : Option<real>
  {
    SumKnown(EstimatedCost(c.classifier, SummaryFor({Classifier}, calls)),
             EstimatedCost(CodingModel(c, SelectedTier(mode, decided)), SummaryFor({Coding, Compaction}, calls)))
  }

  // ----- the bound holds -----

  predicate WithinCaps(c: Config, call: Call) {
    call.usage.Some? ==>
      var t := call.usage.value.tokens;
      t.input + t.cacheRead + t.cacheWrite <= c.contextTokenCap && t.output <= c.maxOutputTokens
  }

  /** Calls within both token caps, of the selected coding model at most `requests`, of the classifier one
      in a routed trial and none in a baseline. */
  ghost predicate Ledger(c: Config, mode: Trials.Mode, calls: seq<Call>, requests: nat) {
    && (forall call :: call in calls ==> WithinCaps(c, call))
    && |Filter(InRoles({Coding, Compaction}), calls)| <= requests
    && |Filter(InRoles({Classifier}), calls)| <= (if mode.Routed? then 1 else 0)
  }

  /** What the bound presumes of a trial. The turn budget limits coding calls; that the compaction calls fit
      into it as well is a hypothesis that nothing enforces. */
  ghost predicate Presumed(c: Config, mode: Trials.Mode, calls: seq<Call>) { Ledger(c, mode, calls, c.maxAgentTurns) }

  /** A fixed baseline decides its own tier. */
  predicate TierFits(mode: Trials.Mode, decided: Option<Trials.Tier>) {
    decided.Some? ==> (mode.WeakOnly? ==> decided.value.Weak?) && (mode.StrongOnly? ==> decided.value.Strong?)
  }

  predicate NonNegative(p: Pricing) {
    p.input >= 0.0 && p.output >= 0.0 && Or(p.cacheRead, 0.0) >= 0.0 && Or(p.cacheWrite, 0.0) >= 0.0
  }

  predicate ValidConfig(c: Config) {
    NonNegative(PricesOf(c.classifier)) && NonNegative(PricesOf(c.weak)) && NonNegative(PricesOf(c.strong))
  }

  lemma {:induction false} TotalsWithinCaps(c: Config, s: seq<Call>)
    requires forall call :: call in s ==> WithinCaps(c, call)
    ensures TokensFit(c, TokenTotals(s), |s|)
  {
    if s != [] {
      var init, last := s[..|s| - 1], s[|s| - 1];
      assert last in s && forall call :: call in init ==> call in s;
      TotalsWithinCaps(c, init);
      assert WithinCaps(c, last);
      OneMore(|init|, c.contextTokenCap);
      OneMore(|init|, c.maxOutputTokens);
    }
  }

  lemma OneMore(n: nat, k: nat)
    ensures (n + 1) * k == n * k + k
  {
  }

  lemma ScaleBy(m: int, n: int, price: real)
    requires m <= n && price >= 0.0
    ensures m as real * price <= n as real * price
  {
    assert 0.0 <= (n - m) as real;
    NonNegativeProduct((n - m) as real, price);
    assert (n - m) as real == n as real - m as real;
  }

  lemma NonNegativeProduct(x: real, y: real)
    requires x >= 0.0 && y >= 0.0
    ensures x * y >= 0.0
  {
  }

  lemma RaiseRate(n: nat, price: real, rate: real)
    requires price <= rate
    ensures n as real * price <= n as real * rate
  {
    NonNegativeProduct(n as real, rate - price);
  }

  /** Three amounts priced apart cost at most their sum at the highest rate. */
  lemma ThreeRates(a: real, b: real, c: real, x: real, y: real, z: real, rate: real)
    requires a >= 0.0 && b >= 0.0 && c >= 0.0
    requires x <= rate && y <= rate && z <= rate
    ensures a * x + b * y + c * z <= (a + b + c) * rate
  {
    NonNegativeProduct(a, rate - x);
    NonNegativeProduct(b, rate - y);
    NonNegativeProduct(c, rate - z);
  }

  lemma Regroup(n: nat, k: nat, price: real)
    ensures (n * k) as real * price == n as real * (k as real * price)
  {
    assert (n * k) as real == n as real * k as real;
  }

  /** The request bound in plain numbers. */
  function PerRequest(cap: nat, out: nat, rate: real, price: real): real {
    (cap as real * rate + out as real * price) / 1000000.0
  }

  lemma ManyRequests(n: nat, cap: nat, out: nat, rate: real, price: real)
    ensures ((n * cap) as real * rate + (n * out) as real * price) / 1000000.0
      == n as real * PerRequest(cap, out, rate, price)
  {
    Regroup(n, cap, rate);
    Regroup(n, out, price);
    OverMillion(n as real, cap as real * rate, out as real * price);
  }

  lemma OverMillion(n: real, x: real, y: real)
    ensures n * ((x + y) / 1000000.0) == (n * x + n * y) / 1000000.0
  {
  }

  /** The totals of n calls within the caps. */
  predicate TokensFit(c: Config, t: Tokens, n: nat) {
    t.input + t.cacheRead + t.cacheWrite <= n * c.contextTokenCap && t.output <= n * c.maxOutputTokens
  }

  function InputCost(p: Pricing, t: Tokens): real {
    t.input as real * p.input + t.cacheRead as real * Or(p.cacheRead, 0.0)
    + t.cacheWrite as real * Or(p.cacheWrite, 0.0)
  }

  /** The three input categories together cost at most `limit` tokens at the highest rate. */
  lemma InputPart(p: Pricing, t: Tokens, limit: nat)
    requires NonNegative(p) && t.input + t.cacheRead + t.cacheWrite <= limit
    ensures InputCost(p, t) <= limit as real * HighestInputRate(p)
  {
    var rate, all := HighestInputRate(p), t.input + t.cacheRead + t.cacheWrite;
    ThreeRates(t.input as real, t.cacheRead as real, t.cacheWrite as real,
               p.input, Or(p.cacheRead, 0.0), Or(p.cacheWrite, 0.0), rate);
    assert all as real == t.input as real + t.cacheRead as real + t.cacheWrite as real;
    ScaleBy(all, limit, rate);
  }

  lemma FromParts(a: real, b: real, x: real, y: real)
    requires a <= x && b <= y
    ensures (a + b) / 1000000.0 <= (x + y) / 1000000.0
  {
  }

  /** n calls within the caps cost at most n request bounds. */
  lemma TokensWithinBound(c: Config, p: Pricing, t: Tokens, n: nat)
    requires NonNegative(p) && TokensFit(c, t, n)
    ensures Cost(t, p) <= n as real * RequestBound(c, p)
  {
    hide HighestInputRate;
    var rate := HighestInputRate(p);
    InputPart(p, t, n * c.contextTokenCap);
    ScaleBy(t.output, n * c.maxOutputTokens, p.output);
    ManyRequests(n, c.contextTokenCap, c.maxOutputTokens, rate, p.output);
    CostParts(p, t);
    hide Cost, TokensFit, NonNegative;
    FromParts(InputCost(p, t), t.output as real * p.output,
              (n * c.contextTokenCap) as real * rate, (n * c.maxOutputTokens) as real * p.output);
  }

  lemma CostParts(p: Pricing, t: Tokens)
    ensures Cost(t, p) == (InputCost(p, t) + t.output as real * p.output) / 1000000.0
  {
  }

  lemma RequestBoundNonNegative(c: Config, p: Pricing)
    requires NonNegative(p)
    ensures RequestBound(c, p) >= 0.0
  {
    NonNegativeProduct(c.contextTokenCap as real, HighestInputRate(p));
    NonNegativeProduct(c.maxOutputTokens as real, p.output);
  }

  /** What n calls can cost, as one real number. */
  lemma CallsWithinBound(c: Config, p: Pricing, s: seq<Call>, bound: real)
    requires NonNegative(p) && forall call :: call in s ==> WithinCaps(c, call)
    requires bound == |s| as real * RequestBound(c, p)
    ensures Cost(TokenTotals(s), p) <= bound
  {
    TotalsWithinCaps(c, s);
    TokensWithinBound(c, p, TokenTotals(s), |s|);
  }

  /** What the calls of the selected roles can cost, given the bound on one request. */
  lemma SelectionCost(c: Config, p: Pricing, roles: set<Role>, calls: seq<Call>, bound: real)
    requires NonNegative(p) && bound == RequestBound(c, p)
    requires forall call :: call in calls ==> WithinCaps(c, call)
    ensures bound >= 0.0
    ensures var cost := CalculateWithPricing(SummaryFor(roles, calls), p);
      cost.Some? ==> cost.value <= |Filter(InRoles(roles), calls)| as real * bound
  {
    hide Cost, WithinCaps, RequestBound, TokenTotals, Summarize, CalculateWithPricing, NonNegative;
    var s := Filter(InRoles(roles), calls);
    forall call | call in s ensures WithinCaps(c, call) {
      FilterMember(InRoles(roles), calls, call);
    }
    CallsWithinBound(c, p, s, |s| as real * bound);
    RequestBoundNonNegative(c, p);
    SummaryCost(s, p);
  }

  lemma Capped(cost: real, n: nat, limit: nat, bound: real)
    requires cost <= n as real * bound && n <= limit && bound >= 0.0
    ensures cost <= bound * limit as real
  {
    ScaleBy(n, limit, bound);
  }

  /** At most `limit` calls of the selected roles cost at most `limit` request bounds. */
  lemma SelectionWithinBound(c: Config, p: Pricing, roles: set<Role>, calls: seq<Call>, limit: nat, bound: real)
    requires NonNegative(p) && bound == RequestBound(c, p)
    requires forall call :: call in calls ==> WithinCaps(c, call)
    requires |Filter(InRoles(roles), calls)| <= limit
    ensures var cost := CalculateWithPricing(SummaryFor(roles, calls), p);
      cost.Some? ==> cost.value <= bound * limit as real
  {
    hide RequestBound, CalculateWithPricing, WithinCaps, NonNegative, Summarize, SummaryFor;
    var cost := CalculateWithPricing(SummaryFor(roles, calls), p);
    SelectionCost(c, p, roles, calls, bound);
    if cost.Some? {
      Capped(cost.value, |Filter(InRoles(roles), calls)|, limit, bound);
    }
  }

  lemma SummaryCost(s: seq<Call>, p: Pricing)
    ensures CalculateWithPricing(Summarize(s), p).Some? ==>
      CalculateWithPricing(Summarize(s), p).value == Cost(TokenTotals(s), p)
  {
    CostOfSummary(s, p);
    KnownIsTotals(s);
  }

  lemma CodingWithinBound(c: Config, mode: Trials.Mode, tier: Trials.Tier, calls: seq<Call>, requests: nat, bound: real)
    requires ValidConfig(c) && MonetaryLimitReason(c).None? && Ledger(c, mode, calls, requests)
    requires bound == RequestBound(c, PricesOf(CodingModel(c, tier)))
    ensures var cost := EstimatedCost(CodingModel(c, tier), SummaryFor({Coding, Compaction}, calls));
      cost.Some? ==> cost.value <= bound * requests as real
  {
    hide RequestBound, CalculateWithPricing, WithinCaps, SummaryFor, NonNegative, Filter;
    SelectionWithinBound(c, PricesOf(CodingModel(c, tier)), {Coding, Compaction}, calls, requests, bound);
  }

  lemma ClassifierWithinBound(c: Config, mode: Trials.Mode, calls: seq<Call>, requests: nat, bound: real)
    requires ValidConfig(c) && MonetaryLimitReason(c).None? && Ledger(c, mode, calls, requests)
    requires bound == RequestBound(c, PricesOf(c.classifier))
    ensures var cost := EstimatedCost(c.classifier, SummaryFor({Classifier}, calls));
      cost.Some? ==> cost.value <= if mode.Routed? then bound else 0.0
  {
    hide RequestBound, CalculateWithPricing, WithinCaps, SummaryFor, NonNegative, Filter;
    SelectionWithinBound(c, PricesOf(c.classifier), {Classifier}, calls, if mode.Routed? then 1 else 0, bound);
    TimesOneOrZero(bound);
  }

  lemma TimesOneOrZero(x: real)
    ensures x * (1 as real) == x && x * (0 as real) == 0.0
  {
  }

  lemma HigherRate(x: real, y: real, n: nat)
    requires x <= y
    ensures x * n as real <= y * n as real
  {
    RaiseRate(n, x, y);
  }

  /** Whatever calls a trial makes within the caps, the cost recorded for it is at most one coding bound
      for each coding or compaction call, and one classifier bound. */
  lemma TrialCostAtMost(c: Config, mode: Trials.Mode, decided: Option<Trials.Tier>, calls: seq<Call>, requests: nat)
    requires ValidConfig(c) && MonetaryLimitReason(c).None?
    requires TierFits(mode, decided) && Ledger(c, mode, calls, requests)
    ensures TotalEstimatedCost(c, mode, decided, calls).Some? ==>
      TotalEstimatedCost(c, mode, decided, calls).value
        <= CodingBound(c, mode) * requests as real + ClassifierBound(c, mode)
  {
    hide RequestBound, CalculateWithPricing, Ledger;
    var tier := SelectedTier(mode, decided);
    CodingWithinBound(c, mode, tier, calls, requests, RequestBound(c, PricesOf(CodingModel(c, tier))));
    ClassifierWithinBound(c, mode, calls, requests, RequestBound(c, PricesOf(c.classifier)));
    CodingShare(c, mode, decided, requests);
  }

  /** The coding share of the bound covers the tier that was selected. */
  lemma CodingShare(c: Config, mode: Trials.Mode, decided: Option<Trials.Tier>, requests: nat)
    requires MonetaryLimitReason(c).None? && TierFits(mode, decided)
    ensures RequestBound(c, PricesOf(CodingModel(c, SelectedTier(mode, decided)))) * requests as real
      <= CodingBound(c, mode) * requests as real
  {
    hide RequestBound;
    var weak, strong := RequestBound(c, PricesOf(c.weak)), RequestBound(c, PricesOf(c.strong));
    HigherRate(weak, Max(weak, strong), requests);
    HigherRate(strong, Max(weak, strong), requests);
  }

  /** If its calls are as presumed, a trial costs at most the bound that the spend check reserved. */
  lemma TrialWithinBound(c: Config, mode: Trials.Mode, decided: Option<Trials.Tier>, calls: seq<Call>)
    requires ValidConfig(c) && MonetaryLimitReason(c).None?
    requires TierFits(mode, decided) && Presumed(c, mode, calls)
    ensures ConservativeTrialCostBound(c, mode) == Ok(Reserve(c, mode))
    ensures TotalEstimatedCost(c, mode, decided, calls).Some? ==>
      TotalEstimatedCost(c, mode, decided, calls).value <= Reserve(c, mode)
  {
    hide Ledger, TotalEstimatedCost, CodingBound, ClassifierBound;
    TrialCostAtMost(c, mode, decided, calls, c.maxAgentTurns);
  }

  // ----- exactly when the bound holds: compaction counts against the turn budget -----

  /** The tokens of a request at both caps, with all its input in the dearest category. */
  function TokensAtCaps(c: Config, p: Pricing): Tokens {
    var cap, out := c.contextTokenCap, c.maxOutputTokens;
    if p.input == HighestInputRate(p) then Tokens(cap, out, 0, 0, cap + out)
    else if Or(p.cacheRead, 0.0) == HighestInputRate(p) then Tokens(0, out, cap, 0, cap + out)
    else Tokens(0, out, 0, cap, cap + out)
  }

  /** A confirmed call at the caps, with an id of its own for each position in the ledger. */
  function CallAtCaps(c: Config, p: Pricing, role: Role, position: nat): Call {
    Call(seq(position + 1, _ => 'c'), role, Some(Normalized(TokensAtCaps(c, p), None)), true)
  }

  /** n such calls of one role; `from` calls precede them. */
  function CallsAtCaps(c: Config, p: Pricing, role: Role, n: nat, from: nat): seq<Call> {
    if n == 0 then [] else CallsAtCaps(c, p, role, n - 1, from) + [CallAtCaps(c, p, role, from + n - 1)]
  }

  lemma {:induction false} CallsAtCapsAre(c: Config, p: Pricing, role: Role, n: nat, from: nat)
    ensures var s := CallsAtCaps(c, p, role, n, from);
      && |s| == n
      && forall i :: 0 <= i < n ==>
           |s[i].id| == from + i + 1 && s[i].role == role && s[i].complete && WithinCaps(c, s[i])
           && s[i].usage == Some(Normalized(TokensAtCaps(c, p), None))
  {
    if n > 0 {
      CallsAtCapsAre(c, p, role, n - 1, from);
    }
  }

  lemma CostAtCaps(c: Config, p: Pricing)
    requires NonNegative(p)
    ensures Cost(TokensAtCaps(c, p), p) == RequestBound(c, p)
  {
    CostParts(p, TokensAtCaps(c, p));
  }

  lemma TotalsSnoc(s: seq<Call>, call: Call)
    requires call.usage.Some?
    ensures TokenTotals(s + [call]) == Plus(TokenTotals(s), call.usage.value.tokens)
  {
    assert (s + [call])[..|s|] == s;
  }

  /** n requests at one price. */
  function Requests(n: nat, price: real): real { price * n as real }

  lemma {:induction false} CostOfCallsAtCaps(c: Config, p: Pricing, role: Role, n: nat, from: nat)
    requires NonNegative(p)
    ensures Cost(TokenTotals(CallsAtCaps(c, p, role, n, from)), p) == Requests(n, RequestBound(c, p))
  {
    if n > 0 {
      var init := CallsAtCaps(c, p, role, n - 1, from);
      CostOfCallsAtCaps(c, p, role, n - 1, from);
      TotalsSnoc(init, CallAtCaps(c, p, role, from + n - 1));
      CostAtCaps(c, p);
      CostAdds(TokenTotals(init), TokensAtCaps(c, p), p);
      OneMoreRequest(n - 1, RequestBound(c, p));
      hide RequestBound, NonNegative, TokenTotals, Cost, TokensAtCaps, Requests;
    } else {
      OneMoreRequest(0, RequestBound(c, p));
    }
  }

  lemma OneMoreRequest(n: nat, price: real)
    ensures Requests(n + 1, price) == Requests(n, price) + price
    ensures Requests(0, price) == 0.0 && Requests(1, price) == price
  {
    assert (n + 1) as real == n as real + 1.0;
  }

  /** Coding, compaction and classifier calls, all at the caps. */
  function LedgerAtCaps(c: Config, coding: Pricing, classifier: Pricing, k: nat, j: nat, n: nat): seq<Call> {
    CallsAtCaps(c, coding, Coding, k, 0) + CallsAtCaps(c, coding, Compaction, j, k)
    + CallsAtCaps(c, classifier, Classifier, n, k + j)
  }

  /** Of the calls of one role, a selection of roles takes all or none. */
  lemma OneRole(c: Config, p: Pricing, role: Role, n: nat, from: nat, selected: Role)
    ensures var s := CallsAtCaps(c, p, role, n, from);
      Filter(InRoles({selected}), s) == if role == selected then s else []
  {
    CallsAtCapsAre(c, p, role, n, from);
    FilterAll(InRoles({selected}), CallsAtCaps(c, p, role, n, from));
  }

  lemma FilterThree(keep: Call -> bool, a: seq<Call>, b: seq<Call>, d: seq<Call>)
    ensures Filter(keep, a + b + d) == Filter(keep, a) + Filter(keep, b) + Filter(keep, d)
  {
    FilterConcat(keep, a + b, d);
    FilterConcat(keep, a, b);
  }

  lemma FilterLedger(keep: Call -> bool, c: Config, coding: Pricing, classifier: Pricing, k: nat, j: nat, n: nat)
    ensures Filter(keep, LedgerAtCaps(c, coding, classifier, k, j, n))
      == Filter(keep, CallsAtCaps(c, coding, Coding, k, 0)) + Filter(keep, CallsAtCaps(c, coding, Compaction, j, k))
        + Filter(keep, CallsAtCaps(c, classifier, Classifier, n, k + j))
  {
    hide CallsAtCaps, Filter;
    FilterThree(keep, CallsAtCaps(c, coding, Coding, k, 0), CallsAtCaps(c, coding, Compaction, j, k),
                CallsAtCaps(c, classifier, Classifier, n, k + j));
  }

  lemma LedgerAtCapsByRole(c: Config, coding: Pricing, classifier: Pricing, k: nat, j: nat, n: nat, selected: Role)
    ensures Filter(InRoles({selected}), LedgerAtCaps(c, coding, classifier, k, j, n))
      == (match selected
          case Coding => CallsAtCaps(c, coding, Coding, k, 0)
          case Compaction => CallsAtCaps(c, coding, Compaction, j, k)
          case Classifier => CallsAtCaps(c, classifier, Classifier, n, k + j))
  {
    hide *;
    OneRole(c, coding, Coding, k, 0, selected);
    OneRole(c, coding, Compaction, j, k, selected);
    OneRole(c, classifier, Classifier, n, k + j, selected);
    FilterLedger(InRoles({selected}), c, coding, classifier, k, j, n);
  }

  lemma LedgerAtCapsIsLedger(c: Config, coding: Pricing, classifier: Pricing, k: nat, j: nat, n: nat)
    ensures var s := LedgerAtCaps(c, coding, classifier, k, j, n);
      DistinctIds(s) && forall call :: call in s ==> call.id != "" && WithinCaps(c, call)
  {
    var s := LedgerAtCaps(c, coding, classifier, k, j, n);
    CallsAtCapsAre(c, coding, Coding, k, 0);
    CallsAtCapsAre(c, coding, Compaction, j, k);
    CallsAtCapsAre(c, classifier, Classifier, n, k + j);
    hide CallsAtCaps, WithinCaps, Filter;
    assert forall i :: 0 <= i < |s| ==> |s[i].id| == i + 1 && WithinCaps(c, s[i]);
  }

  predicate FullPrices(p: Pricing) { NonNegative(p) && p.cacheRead.Some? && p.cacheWrite.Some? }

  lemma AllPriced(c: Config, tier: Trials.Tier)
    requires ValidConfig(c) && MonetaryLimitReason(c).None?
    ensures FullPrices(PricesOf(c.classifier)) && FullPrices(PricesOf(CodingModel(c, tier)))
  {
  }

  /** The cost of calls at the caps is known, and is one request bound for each. */
  lemma KnownAtCaps(c: Config, p: Pricing, role: Role, n: nat, from: nat)
    requires FullPrices(p)
    ensures CalculateWithPricing(Summarize(CallsAtCaps(c, p, role, n, from)), p)
      == Some(Requests(n, RequestBound(c, p)))
  {
    var s := CallsAtCaps(c, p, role, n, from);
    CallsAtCapsAre(c, p, role, n, from);
    CostOfCallsAtCaps(c, p, role, n, from);
    CostOfSummary(s, p);
    KnownIsTotals(s);
    FilterAll(OBSERVED, s);
    FilterAll(UNCONFIRMED, s);
    Counts(s);
  }

  /** The tier whose request bound is the mode's coding bound. */
  function DearestTier(c: Config, mode: Trials.Mode): Trials.Tier {
    if mode.WeakOnly? then Trials.Weak
    else if mode.StrongOnly? then Trials.Strong
    else if RequestBound(c, PricesOf(c.weak)) < RequestBound(c, PricesOf(c.strong)) then Trials.Strong else Trials.Weak
  }

  /** The trial that costs the most with k coding and j compaction calls. */
  function DearestCalls(c: Config, mode: Trials.Mode, k: nat, j: nat): seq<Call> {
    LedgerAtCaps(c, PricesOf(CodingModel(c, DearestTier(c, mode))), PricesOf(c.classifier),
                 k, j, if mode.Routed? then 1 else 0)
  }

  /** Its ledger is as enforced, with exactly k coding and j compaction calls, and it reaches the sum of
      their bounds. */
  lemma DearestReached(c: Config, mode: Trials.Mode, k: nat, j: nat)
    requires ValidConfig(c) && MonetaryLimitReason(c).None?
    ensures var calls, decided := DearestCalls(c, mode, k, j), Some(DearestTier(c, mode));
      && TierFits(mode, decided) && DistinctIds(calls) && WithCounts(c, mode, calls, k, j)
      && TotalEstimatedCost(c, mode, decided, calls)
        == Some(Requests(k + j, CodingBound(c, mode)) + ClassifierBound(c, mode))
  {
    var tier, n, calls := DearestTier(c, mode), if mode.Routed? then 1 else 0, DearestCalls(c, mode, k, j);
    var coding, classifier := PricesOf(CodingModel(c, tier)), PricesOf(c.classifier);
    AllPriced(c, tier);
    hide RequestBound, Requests, LedgerAtCaps, WithinCaps, DistinctIds, Filter, CalculateWithPricing, SummaryFor;
    hide FullPrices, ValidConfig, MonetaryLimitReason, NonNegative;
    DearestCounts(c, coding, classifier, k, j, n);
    DearestTotal(c, mode, k, j);
    hide TotalEstimatedCost;
  }

  lemma DearestTotal(c: Config, mode: Trials.Mode, k: nat, j: nat)
    requires ValidConfig(c) && MonetaryLimitReason(c).None?
    ensures TotalEstimatedCost(c, mode, Some(DearestTier(c, mode)), DearestCalls(c, mode, k, j))
      == Some(Requests(k + j, CodingBound(c, mode)) + ClassifierBound(c, mode))
  {
    hide *;
    DearestParts(c, mode, k, j);
    TotalIs(c, mode, DearestTier(c, mode), DearestCalls(c, mode, k, j), ClassifierBound(c, mode),
            Requests(k + j, CodingBound(c, mode)));
  }

  lemma DearestParts(c: Config, mode: Trials.Mode, k: nat, j: nat)
    requires ValidConfig(c) && MonetaryLimitReason(c).None?
    ensures var calls, coding := DearestCalls(c, mode, k, j), PricesOf(CodingModel(c, DearestTier(c, mode)));
      && CalculateWithPricing(SummaryFor({Coding, Compaction}, calls), coding)
        == Some(Requests(k + j, CodingBound(c, mode)))
      && CalculateWithPricing(SummaryFor({Classifier}, calls), PricesOf(c.classifier)) == Some(ClassifierBound(c, mode))
  {
    AllPriced(c, DearestTier(c, mode));
    DearestBounds(c, mode);
    hide RequestBound, Requests, LedgerAtCaps, CalculateWithPricing, SummaryFor, CodingBound;
    hide FullPrices, ValidConfig, MonetaryLimitReason, NonNegative, DearestTier, CodingModel, PricesOf, ClassifierBound;
    DearestCosts(c, PricesOf(CodingModel(c, DearestTier(c, mode))), PricesOf(c.classifier), k, j,
                 if mode.Routed? then 1 else 0);
  }

  lemma DearestBounds(c: Config, mode: Trials.Mode)
    ensures RequestBound(c, PricesOf(CodingModel(c, DearestTier(c, mode)))) == CodingBound(c, mode)
    ensures Requests(if mode.Routed? then 1 else 0, RequestBound(c, PricesOf(c.classifier))) == ClassifierBound(c, mode)
  {
    hide RequestBound;
    OneMoreRequest(0, RequestBound(c, PricesOf(c.classifier)));
    hide Requests;
  }

  lemma TotalIs(c: Config, mode: Trials.Mode, tier: Trials.Tier, calls: seq<Call>, classifier: real, coding: real)
    requires MonetaryLimitReason(c).None?
    requires CalculateWithPricing(SummaryFor({Classifier}, calls), PricesOf(c.classifier)) == Some(classifier)
    requires CalculateWithPricing(SummaryFor({Coding, Compaction}, calls), PricesOf(CodingModel(c, tier)))
      == Some(coding)
    ensures TotalEstimatedCost(c, mode, Some(tier), calls) == Some(coding + classifier)
  {
    hide CalculateWithPricing, SummaryFor;
  }

  lemma DearestCounts(c: Config, coding: Pricing, classifier: Pricing, k: nat, j: nat, n: nat)
    ensures var calls := LedgerAtCaps(c, coding, classifier, k, j, n);
      && DistinctIds(calls) && (forall call :: call in calls ==> WithinCaps(c, call))
      && |Filter(InRoles({Coding}), calls)| == k && |Filter(InRoles({Compaction}), calls)| == j
      && |Filter(InRoles({Classifier}), calls)| == n
  {
    LedgerAtCapsIsLedger(c, coding, classifier, k, j, n);
    LedgerAtCapsByRole(c, coding, classifier, k, j, n, Coding);
    LedgerAtCapsByRole(c, coding, classifier, k, j, n, Compaction);
    LedgerAtCapsByRole(c, coding, classifier, k, j, n, Classifier);
    CallsAtCapsAre(c, coding, Coding, k, 0);
    CallsAtCapsAre(c, coding, Compaction, j, k);
    CallsAtCapsAre(c, classifier, Classifier, n, k + j);
    hide CallsAtCaps, LedgerAtCaps, Filter, WithinCaps;
  }

  lemma DearestCosts(c: Config, coding: Pricing, classifier: Pricing, k: nat, j: nat, n: nat)
    requires FullPrices(coding) && FullPrices(classifier)
    ensures var calls := LedgerAtCaps(c, coding, classifier, k, j, n);
      && CalculateWithPricing(SummaryFor({Coding, Compaction}, calls), coding)
        == Some(Requests(k + j, RequestBound(c, coding)))
      && CalculateWithPricing(SummaryFor({Classifier}, calls), classifier)
        == Some(Requests(n, RequestBound(c, classifier)))
  {
    hide RequestBound, Requests, CalculateWithPricing, CallsAtCaps, LedgerAtCaps, Summarize, NonNegative, Filter;
    var calls := LedgerAtCaps(c, coding, classifier, k, j, n);
    LedgerAtCapsByRole(c, coding, classifier, k, j, n, Coding);
    LedgerAtCapsByRole(c, coding, classifier, k, j, n, Compaction);
    LedgerAtCapsByRole(c, coding, classifier, k, j, n, Classifier);
    KnownAtCaps(c, coding, Coding, k, 0);
    KnownAtCaps(c, coding, Compaction, j, k);
    KnownAtCaps(c, classifier, Classifier, n, k + j);
    CostSplits({Coding}, {Compaction}, calls, coding);
    assert {Coding} + {Compaction} == {Coding, Compaction};
    Pooled(k, j, RequestBound(c, coding));
  }

  lemma Pooled(m: nat, n: nat, price: real)
    ensures Requests(m, price) + Requests(n, price) == Requests(m + n, price)
  {
    Distribute(m, n, price);
  }

  /** A ledger within the caps with k coding and j compaction calls, and the classifier calls of its mode. */
  ghost predicate WithCounts(c: Config, mode: Trials.Mode, calls: seq<Call>, k: nat, j: nat) {
    && (forall call :: call in calls ==> WithinCaps(c, call))
    && |Filter(InRoles({Coding}), calls)| == k && |Filter(InRoles({Compaction}), calls)| == j
    && |Filter(InRoles({Classifier}), calls)| <= (if mode.Routed? then 1 else 0)
  }

  /** Every trial with k coding and j compaction calls stays within the bound reserved for it. */
  ghost predicate AlwaysWithinBound(c: Config, mode: Trials.Mode, k: nat, j: nat) {
    forall decided, calls ::
      TierFits(mode, decided) && WithCounts(c, mode, calls, k, j) && TotalEstimatedCost(c, mode, decided, calls).Some?
      ==> TotalEstimatedCost(c, mode, decided, calls).value <= Reserve(c, mode)
  }

  lemma CountsAreLedger(c: Config, mode: Trials.Mode, calls: seq<Call>, k: nat, j: nat)
    requires WithCounts(c, mode, calls, k, j)
    ensures Ledger(c, mode, calls, k + j)
  {
    SplitLength({Coding}, {Compaction}, calls);
    assert {Coding} + {Compaction} == {Coding, Compaction};
  }

  lemma FittingWithinBound(c: Config, mode: Trials.Mode, decided: Option<Trials.Tier>, calls: seq<Call>, k: nat, j: nat)
    requires ValidConfig(c) && MonetaryLimitReason(c).None? && TierFits(mode, decided)
      && WithCounts(c, mode, calls, k, j)
    requires k + j <= c.maxAgentTurns || CodingBound(c, mode) == 0.0
    ensures TotalEstimatedCost(c, mode, decided, calls).Some? ==>
      TotalEstimatedCost(c, mode, decided, calls).value <= Reserve(c, mode)
  {
    hide RequestBound, TotalEstimatedCost, Ledger, WithCounts, TierFits, ClassifierBound;
    RequestBoundNonNegative(c, PricesOf(c.weak));
    RequestBoundNonNegative(c, PricesOf(c.strong));
    CountsAreLedger(c, mode, calls, k, j);
    TrialCostAtMost(c, mode, decided, calls, k + j);
    assert CodingBound(c, mode) >= 0.0;
    hide CodingBound;
    if k + j <= c.maxAgentTurns {
      ScaleBy(k + j, c.maxAgentTurns, CodingBound(c, mode));
    }
  }

  lemma DearestExceedsBound(c: Config, mode: Trials.Mode, k: nat, j: nat)
    requires ValidConfig(c) && MonetaryLimitReason(c).None?
    requires k + j > c.maxAgentTurns && CodingBound(c, mode) > 0.0
    ensures var cost := TotalEstimatedCost(c, mode, Some(DearestTier(c, mode)), DearestCalls(c, mode, k, j));
      cost.Some? && cost.value > Reserve(c, mode)
  {
    hide RequestBound, TotalEstimatedCost, DearestCalls, DearestTier, CodingBound, ClassifierBound, ValidConfig;
    DearestReached(c, mode, k, j);
    Grows(CodingBound(c, mode), c.maxAgentTurns, k + j);
  }

  lemma Grows(x: real, m: nat, n: nat)
    requires x > 0.0 && m < n
    ensures x * m as real < Requests(n, x)
  {
    ScaleBy(m + 1, n, x);
    OneMoreRequest(m, x);
  }

  /** The bound holds exactly if the compaction calls fit into the turn budget with the coding calls, or
      requests cost nothing. */
  lemma BoundHoldsIff(c: Config, mode: Trials.Mode, k: nat, j: nat)
    requires ValidConfig(c) && MonetaryLimitReason(c).None?
    ensures AlwaysWithinBound(c, mode, k, j) <==> k + j <= c.maxAgentTurns || CodingBound(c, mode) == 0.0
  {
    RequestBoundNonNegative(c, PricesOf(c.weak));
    RequestBoundNonNegative(c, PricesOf(c.strong));
    assert CodingBound(c, mode) >= 0.0;
    hide RequestBound, TotalEstimatedCost, WithCounts, DearestCalls, DearestTier, TierFits, ConservativeTrialCostBound;
    hide CodingBound, ValidConfig, MonetaryLimitReason, NonNegative;
    if k + j <= c.maxAgentTurns || CodingBound(c, mode) == 0.0 {
      forall decided, calls | TierFits(mode, decided) && WithCounts(c, mode, calls, k, j)
        && TotalEstimatedCost(c, mode, decided, calls).Some?
        ensures TotalEstimatedCost(c, mode, decided, calls).value <= Reserve(c, mode)
      {
        FittingWithinBound(c, mode, decided, calls, k, j);
      }
    } else {
      DearestReached(c, mode, k, j);
      DearestExceedsBound(c, mode, k, j);
    }
  }

  /** One compaction call more than the turn budget, after that many coding calls: the trial costs one
      request more than was reserved for it. */
  lemma CompactionExceedsBound(c: Config, mode: Trials.Mode)
    requires ValidConfig(c) && MonetaryLimitReason(c).None?
    ensures var calls, decided := DearestCalls(c, mode, c.maxAgentTurns, 1), Some(DearestTier(c, mode));
      && WithCounts(c, mode, calls, c.maxAgentTurns, 1)
      && ConservativeTrialCostBound(c, mode) == Ok(Reserve(c, mode))
      && TotalEstimatedCost(c, mode, decided, calls) == Some(Reserve(c, mode) + CodingBound(c, mode))
  {
    hide *;
    DearestReached(c, mode, c.maxAgentTurns, 1);
    OneMoreRequest(c.maxAgentTurns, CodingBound(c, mode));
    ReserveIs(c, mode);
  }

  lemma ReserveIs(c: Config, mode: Trials.Mode)
    ensures Reserve(c, mode) == Requests(c.maxAgentTurns, CodingBound(c, mode)) + ClassifierBound(c, mode)
    ensures MonetaryLimitReason(c).None? ==> ConservativeTrialCostBound(c, mode) == Ok(Reserve(c, mode))
  {
    hide CodingBound, ClassifierBound;
  }

  /** A bound exists exactly when all three roles are billed per token with full cache prices, and then
      every complete ledger of the trial has a known cost. */
  lemma KnownUnderLimit(c: Config, mode: Trials.Mode, decided: Option<Trials.Tier>, calls: seq<Call>)
    requires MonetaryLimitReason(c).None?
    ensures TotalEstimatedCost(c, mode, decided, calls).Some? <==> Summarize(calls).status == Complete
  {
    hide Summarize, Cost, CalculateWithPricing, Known, Filter;
    CostOfSummary(Filter(InRoles({Classifier}), calls), PricesOf(c.classifier));
    CostOfSummary(Filter(InRoles({Coding, Compaction}), calls), PricesOf(CodingModel(c, SelectedTier(mode, decided))));
    EveryRole(calls);
    assert {Classifier} + {Coding, Compaction} == {Classifier, Coding, Compaction};
    SplitSummary({Classifier}, {Coding, Compaction}, calls);
  }
}
