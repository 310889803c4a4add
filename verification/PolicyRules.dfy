/**
 * What the policy's rules come to: a request is refused exactly when it breaks one, and the verdict
 * names the first it breaks. The rules are stated here one by one, on the request and the agent's policy.
 */
module PolicyRules {
  import opened Wrappers
  import opened Text
  import opened Policy
  import opened History

  // ---- the windows --------------------------------------------------------------------------------------

  /** What counts towards an agent's cap on an asset: its spends of it in the last 24 hours, in milliseconds. */
  function OfDay(a: string, x: string, now: int): SpendRecord -> nat {
    (r: SpendRecord) => if r.agentId == a && r.asset == x && r.ts > now - 86_400_000 then r.amount else 0
  }

  /** What counts towards its rate: payments, or vouchers, of the last hour. Overhead is neither. */
  function OfHour(a: string, vouchers: bool, now: int): SpendRecord -> nat {
    (r: SpendRecord) =>
      if r.agentId == a && r.voucher == vouchers && !r.overhead && r.ts > now - 3_600_000 then 1 else 0
  }

  lemma {:induction false} WindowsAreSums(ledger: seq<SpendRecord>, a: string, x: string, v: bool, now: int)
    ensures DaySpent(ledger, a, x, now) == Weight(ledger, OfDay(a, x, now))
    ensures HourCount(ledger, a, v, now) == Weight(ledger, OfHour(a, v, now))
  {
    if ledger != [] {
      var n := |ledger| - 1;
      var before, last := ledger[..n], ledger[n];
      assert ledger == before + [last] && [last][1..] == [];
      WindowsAreSums(before, a, x, v, now);
      DaySpentConcat(before, [last], a, x, now);
      HourCountConcat(before, [last], a, v, now);
    }
  }

  // ---- the rules on a payment ---------------------------------------------------------------------------

  predicate IsVoucher(req: PaymentRequest) {
    req.scheme == Some("batch-settlement")
  }

  /** A list the policy may leave out, which then holds one default. */
  predicate Lists(list: Option<seq<string>>, default: string, v: string) {
    if list.None? then v == default else exists k :: 0 <= k < |list.value| && list.value[k] == v
  }

  predicate Reasoned(req: PaymentRequest) {
    req.reason.Some?
    && var s := req.reason.value; exists i, j :: 0 <= i && i + 2 <= j < |s| && !IsSpace(s[i]) && !IsSpace(s[j])
  }

  predicate SchemeAllowed(ap: AgentPolicy, req: PaymentRequest) {
    Lists(ap.allowedSchemes, "exact", if req.scheme.Some? then req.scheme.value else "exact")
  }

  predicate MethodAllowed(ap: AgentPolicy, req: PaymentRequest) {
    IsVoucher(req) || Lists(ap.allowedAssetTransferMethods, "default",
                            if req.assetTransferMethod.Some? then req.assetTransferMethod.value else "default")
  }

  /** On mainnet a token payment spends ADA too, which some cap must bound. */
  predicate AdaCapped(ap: AgentPolicy, req: PaymentRequest) {
    IsVoucher(req) || !req.mainnet || req.asset == "lovelace" || "lovelace" in ap.perTxMax
  }

  predicate PayeeAllowed(ap: AgentPolicy, req: PaymentRequest) {
    exists k :: 0 <= k < |ap.allowedPayees| && (ap.allowedPayees[k] == "*" || ap.allowedPayees[k] == req.payTo)
  }

  /** A voucher's provider key is on a list that the policy gives: there is no default. */
  predicate KeyAllowed(ap: AgentPolicy, req: PaymentRequest) {
    IsVoucher(req) ==>
      && ap.allowedProviderKeys.Some?
      && var keys := ap.allowedProviderKeys.value;
         exists k :: 0 <= k < |keys| && (keys[k] == "*" || req.providerKey == Some(keys[k]))
  }

  /** Where the policy lists resources, "*" is on it, or the request names one that an entry matches. */
  predicate ResourceAllowed(policy: Policy, ap: AgentPolicy, req: PaymentRequest) {
    ap.allowedResources.Some? ==>
      var entries := ap.allowedResources.value;
      || (exists k :: 0 <= k < |entries| && entries[k] == "*")
      || (&& req.resource.Some? && req.resource.value != ""
          && exists k :: 0 <= k < |entries| && policy.resourceMatches(entries[k], req.resource.value))
  }

  predicate WithinTxMax(ap: AgentPolicy, req: PaymentRequest) {
    req.asset in ap.perTxMax && req.amount <= ap.perTxMax[req.asset]
  }

  /** The daily cap on an asset the policy allows, which is its cap on one payment unless one is given. */
  predicate WithinDay(ap: AgentPolicy, ledger: seq<SpendRecord>, a: string, x: string, more: int, now: int) {
    var total := Weight(ledger, OfDay(a, x, now)) + more;
    && (x in ap.dailyMax ==> total <= ap.dailyMax[x])
    && (x !in ap.dailyMax && x in ap.perTxMax ==> total <= ap.perTxMax[x])
  }

  predicate WithinRate(ap: AgentPolicy, ledger: seq<SpendRecord>, req: PaymentRequest, now: int) {
    var before := Weight(ledger, OfHour(req.agentId, IsVoucher(req), now));
    if IsVoucher(req) then before < (if ap.maxVouchersPerHour.Some? then ap.maxVouchersPerHour.value else 600)
    else before < (if ap.maxPerHour.Some? then ap.maxPerHour.value else 60)
  }

  /** What a payment must be whatever was spent before. */
  predicate Permits(policy: Policy, req: PaymentRequest) {
    && req.agentId in policy.agents
    && var ap := policy.agents[req.agentId];
    && req.amount > 0 && Reasoned(req) && SchemeAllowed(ap, req) && MethodAllowed(ap, req) && AdaCapped(ap, req)
    && PayeeAllowed(ap, req) && KeyAllowed(ap, req) && ResourceAllowed(policy, ap, req) && WithinTxMax(ap, req)
  }

  predicate WindowsHaveRoom(policy: Policy, ledger: seq<SpendRecord>, req: PaymentRequest, now: int) {
    && req.agentId in policy.agents
    && var ap := policy.agents[req.agentId];
    WithinDay(ap, ledger, req.agentId, req.asset, req.amount, now) && WithinRate(ap, ledger, req, now)
  }

  /** A human must be asked. */
  predicate Above(policy: Policy, req: PaymentRequest) {
    && req.agentId in policy.agents && req.asset in policy.agents[req.agentId].approvalAbove
    && req.amount > policy.agents[req.agentId].approvalAbove[req.asset]
  }

  predicate Breaks(policy: Policy, ledger: seq<SpendRecord>, req: PaymentRequest, now: int, rule: Rule) {
    if req.agentId !in policy.agents then rule.UnknownAgent?
    else
      var ap := policy.agents[req.agentId];
      match rule
      case Amount => req.amount <= 0
      case Reason => !Reasoned(req)
      case Scheme => !SchemeAllowed(ap, req)
      case AssetTransferMethod => !MethodAllowed(ap, req)
      case Asset => req.asset !in ap.perTxMax
      case LovelaceCaps => !AdaCapped(ap, req)
      case Payee => !PayeeAllowed(ap, req)
      case ProviderKey => !KeyAllowed(ap, req)
      case Resource => !ResourceAllowed(policy, ap, req)
      case PerTxMax => req.asset in ap.perTxMax && !WithinTxMax(ap, req)
      case DailyMax => !WithinDay(ap, ledger, req.agentId, req.asset, req.amount, now)
      case Rate => !WithinRate(ap, ledger, req, now)
      case _ => false
  }

  /** The order the rules are tried in. */
  function Rank(rule: Rule): nat {
    match rule
    case UnknownAgent => 0
    case Amount => 1
    case Reason => 2
    case Scheme => 3
    case AssetTransferMethod => 4
    case Asset => 5
    case LovelaceCaps => 6
    case Payee => 7
    case ProviderKey => 8
    case Resource => 9
    case PerTxMax => 10
    case DailyMax => 11
    case Rate => 12
    case _ => 13
  }

  predicate FirstBroken(policy: Policy, ledger: seq<SpendRecord>, req: PaymentRequest, now: int, rule: Rule) {
    && Breaks(policy, ledger, req, now, rule)
    && forall q: Rule | Rank(q) < Rank(rule) :: !Breaks(policy, ledger, req, now, q)
  }

  // ---- decide is these rules -----------------------------------------------------------------------------

  /** The tests of `decide` up to the windows, against the rules they stand for. */
  lemma RulesAsTested(policy: Policy, ap: AgentPolicy, req: PaymentRequest)
    ensures Reasoned(req) <==> req.reason.Some? && |Trim(req.reason.value)| >= 3
    ensures SchemeAllowed(ap, req) <==> Or(req.scheme, "exact") in Or(ap.allowedSchemes, ["exact"])
    ensures MethodAllowed(ap, req)
       <==> (Or(req.scheme, "exact") == BATCH
             || Or(req.assetTransferMethod, "default") in Or(ap.allowedAssetTransferMethods, ["default"]))
    ensures PayeeAllowed(ap, req) <==> "*" in ap.allowedPayees || req.payTo in ap.allowedPayees
  {
    if req.reason.Some? { TrimmedToThree(req.reason.value); }
    assert ["exact"][0] == "exact" && ["default"][0] == "default";
  }

  lemma ListsAsTested(policy: Policy, ap: AgentPolicy, req: PaymentRequest)
    ensures KeyAllowed(ap, req)
       <==> || Or(req.scheme, "exact") != BATCH || "*" in Or(ap.allowedProviderKeys, [])
            || (req.providerKey.Some? && req.providerKey.value in Or(ap.allowedProviderKeys, []))
    ensures ResourceAllowed(policy, ap, req)
       <==> || ap.allowedResources.None? || "*" in ap.allowedResources.value
            || (Or(req.resource, "") != ""
                && exists k | 0 <= k < |ap.allowedResources.value| ::
                     policy.resourceMatches(ap.allowedResources.value[k], Or(req.resource, "")))
  {
  }

  /** What `decide` answers breaks the rule it names, and none that it tried before. */
  lemma NamesABroken(policy: Policy, ledger: seq<SpendRecord>, req: PaymentRequest, now: int, q: Rule)
    ensures var d := Decide(policy, ledger, req, now);
            && (d.Deny? ==> Breaks(policy, ledger, req, now, d.rule))
            && (d.Deny? && Rank(q) < Rank(d.rule) ==> !Breaks(policy, ledger, req, now, q))
            && (!d.Deny? ==> !Breaks(policy, ledger, req, now, q))
  {
    BreaksTheNamed(policy, ledger, req, now);
    BreaksNoneBefore(policy, ledger, req, now, q);
  }

  lemma BreaksTheNamed(policy: Policy, ledger: seq<SpendRecord>, req: PaymentRequest, now: int)
    ensures var d := Decide(policy, ledger, req, now);
            d.Deny? ==> Breaks(policy, ledger, req, now, d.rule)
  {
    if req.agentId in policy.agents {
      var ap := policy.agents[req.agentId];
      RulesAsTested(policy, ap, req);
      ListsAsTested(policy, ap, req);
      WindowsAreSums(ledger, req.agentId, req.asset, IsVoucher(req), now);
    }
  }

  lemma BreaksNoneBefore(policy: Policy, ledger: seq<SpendRecord>, req: PaymentRequest, now: int, q: Rule)
    ensures var d := Decide(policy, ledger, req, now);
            (d.Deny? ==> Rank(q) < Rank(d.rule)) ==> !Breaks(policy, ledger, req, now, q)
  {
    if req.agentId in policy.agents {
      var ap := policy.agents[req.agentId];
      RulesAsTested(policy, ap, req);
      ListsAsTested(policy, ap, req);
      WindowsAreSums(ledger, req.agentId, req.asset, IsVoucher(req), now);
    }
  }

  /**
   * `decide` refuses a request exactly when it breaks a rule, and for the first it breaks: the access
   * rules, its size, then the windows.
   */
  lemma RefusedForFirstBroken(policy: Policy, ledger: seq<SpendRecord>, req: PaymentRequest, now: int, rule: Rule)
    ensures Decide(policy, ledger, req, now) == Deny(rule) <==> FirstBroken(policy, ledger, req, now, rule)
  {
    var d := Decide(policy, ledger, req, now);
    forall q: Rule | Rank(q) < Rank(rule) && d == Deny(rule) ensures !Breaks(policy, ledger, req, now, q) {
      NamesABroken(policy, ledger, req, now, q);
    }
    NamesABroken(policy, ledger, req, now, rule);
    if d.Deny? && FirstBroken(policy, ledger, req, now, rule) {
      NamesABroken(policy, ledger, req, now, d.rule);
      assert !(Rank(d.rule) < Rank(rule));
      OneOfARank(policy, ledger, req, now, d.rule, rule);
    }
  }

  lemma OneOfARank(policy: Policy, ledger: seq<SpendRecord>, req: PaymentRequest, now: int, x: Rule, y: Rule)
    requires Breaks(policy, ledger, req, now, x) && Breaks(policy, ledger, req, now, y) && Rank(x) == Rank(y)
    ensures x == y
  {
  }

  /**
   * It is no refusal exactly when every rule is kept, and asks a human exactly when, besides, the
   * amount is above the threshold.
   */
  lemma DecidesExactly(policy: Policy, ledger: seq<SpendRecord>, req: PaymentRequest, now: int)
    ensures var d := Decide(policy, ledger, req, now);
            var kept := Permits(policy, req) && WindowsHaveRoom(policy, ledger, req, now);
            && (!d.Deny? <==> kept)
            && (d.NeedsApproval? <==> kept && Above(policy, req))
            && (d.Allow? <==> kept && !Above(policy, req))
  {
    if req.agentId in policy.agents {
      var ap := policy.agents[req.agentId];
      RulesAsTested(policy, ap, req);
      ListsAsTested(policy, ap, req);
      WindowsAreSums(ledger, req.agentId, req.asset, IsVoucher(req), now);
    }
  }

  // ---- the rules on what leaves with it --------------------------------------------------------------------

  /** The lovelace that leaves with a built payment: its overhead, and its amount when that is lovelace. */
  function Leaving(req: OverheadRequest): int {
    req.overhead + if req.asset == "lovelace" then req.amount else 0
  }

  /**
   * `decideOverhead` allows a built payment exactly when the lovelace that leaves with it is within the
   * agent's caps on lovelace, on one transaction and on the day; with no such caps, unless it is a
   * token payment on mainnet.
   */
  lemma OverheadExactly(policy: Policy, ledger: seq<SpendRecord>, req: OverheadRequest, now: int)
    ensures DecideOverhead(policy, ledger, req, now).Allow?
       <==> && req.agentId in policy.agents
            && var ap := policy.agents[req.agentId];
            if "lovelace" in ap.perTxMax then
              Leaving(req) <= ap.perTxMax["lovelace"]
              && WithinDay(ap, ledger, req.agentId, "lovelace", Leaving(req), now)
            else !(req.mainnet && req.asset != "lovelace")
    ensures !DecideOverhead(policy, ledger, req, now).NeedsApproval?
  {
    WindowsAreSums(ledger, req.agentId, "lovelace", false, now);
  }

  /** And a refusal says which: no agent, no caps, too much at once, or too much in the day. */
  lemma OverheadRefusedFor(policy: Policy, ledger: seq<SpendRecord>, req: OverheadRequest, now: int, rule: Rule)
    ensures DecideOverhead(policy, ledger, req, now) == Deny(rule)
       <==> if req.agentId !in policy.agents then rule.UnknownAgent?
            else if "lovelace" !in policy.agents[req.agentId].perTxMax then
              rule.LovelaceCaps? && req.mainnet && req.asset != "lovelace"
            else if Leaving(req) > policy.agents[req.agentId].perTxMax["lovelace"] then rule.OverheadPerTxMax?
            else rule.OverheadDailyMax?
                 && !WithinDay(policy.agents[req.agentId], ledger, req.agentId, "lovelace", Leaving(req), now)
  {
    WindowsAreSums(ledger, req.agentId, "lovelace", false, now);
  }
}
