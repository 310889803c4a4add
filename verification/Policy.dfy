/**
 * The spend policy of policy.ts: what one payment, one built transaction and one channel deposit
 * are judged against. Amounts are in an asset's smallest unit, times in milliseconds.
 */
module Policy {
  import opened Text
  import opened Wrappers

  const DAY: int := 24 * 60 * 60 * 1000
  const HOUR: int := 60 * 60 * 1000
  const LOVELACE := "lovelace"
  const BATCH := "batch-settlement"
  const DEFAULT_MAX_PER_HOUR: nat := 60
  const DEFAULT_MAX_VOUCHERS_PER_HOUR: nat := 600
  const DEFAULT_MAX_WITHDRAW_DELAY: int := 86_400

  /** An amount map that the policy file leaves out is the empty one. */
  datatype AgentPolicy = AgentPolicy(
    perTxMax: map<string, nat>,
    dailyMax: map<string, nat>,
    allowedPayees: seq<string>,
    maxPerHour: Option<nat>,
    approvalAbove: map<string, nat>,
    allowedAssetTransferMethods: Option<seq<string>>,
    allowedResources: Option<seq<string>>,
    allowedSchemes: Option<seq<string>>,
    allowedProviderKeys: Option<seq<string>>,
    channelDepositMax: map<string, nat>,
    channelLockedMax: map<string, nat>,
    maxWithdrawDelay: Option<int>,
    maxVouchersPerHour: Option<nat>)

  /**
   * `resourceMatches` compares a policy entry with a reported URL; how it parses them is not part
   * of this model, so it is a parameter of the policy.
   */
  datatype Policy = Policy(agents: map<string, AgentPolicy>, resourceMatches: (string, string) -> bool)

  // ---- what `parsePolicy` lets through -----------------------------------------------------------------

  predicate IsLowerHex(s: string) {
    forall i | 0 <= i < |s| :: '0' <= s[i] <= '9' || 'a' <= s[i] <= 'f'
  }

  /** `/^(lovelace|[0-9a-f]{56}\.[0-9a-f]{0,64})$/` */
  predicate IsAssetId(s: string) {
    s == LOVELACE || (57 <= |s| <= 121 && IsLowerHex(s[..56]) && s[56] == '.' && IsLowerHex(s[57..]))
  }

  /** The keys of an agent's amount maps: asset ids, and but for the locked ADA none that `perTxMax` lacks. */
  predicate KeysParse(ap: AgentPolicy) {
    && (forall x | x in ap.perTxMax :: IsAssetId(x))
    && ap.dailyMax.Keys + ap.approvalAbove.Keys + ap.channelDepositMax.Keys <= ap.perTxMax.Keys
    && ap.channelLockedMax.Keys <= ap.perTxMax.Keys + {LOVELACE}
  }

  predicate Parsed(policy: Policy) {
    forall a | a in policy.agents :: KeysParse(policy.agents[a])
  }

  /** Of the asset ids only lovelace reads as lovelace when its case is folded. */
  lemma OnlyLovelaceFolds(x: string)
    requires IsAssetId(x)
    ensures ToLower(x) == LOVELACE <==> x == LOVELACE
  {
    assert ToLower(LOVELACE) == LOVELACE;
  }

  datatype SpendRecord = SpendRecord(
    ts: int,
    agentId: string,
    asset: string,
    amount: nat,
    voucher: bool,
    overhead: bool,
    tx: Option<string>,
    ttlSlot: Option<nat>)

  datatype PaymentRequest = PaymentRequest(
    agentId: string,
    payTo: string,
    asset: string,
    amount: int,
    reason: Option<string>,
    assetTransferMethod: Option<string>,
    resource: Option<string>,
    scheme: Option<string>,
    providerKey: Option<string>,
    mainnet: bool)

  datatype OverheadRequest = OverheadRequest(agentId: string, asset: string, amount: int, overhead: int, mainnet: bool)

  datatype DepositRequest = DepositRequest(
    agentId: string,
    asset: string,
    amount: int,
    reserveLovelace: int,
    locked: map<string, int>,
    withdrawDelay: int)

  datatype Rule =
    | UnknownAgent | Amount | Reason | Scheme | AssetTransferMethod | Asset | LovelaceCaps | Payee
    | ProviderKey | Resource | PerTxMax | DailyMax | Rate | OverheadPerTxMax | OverheadDailyMax
    | WithdrawDelay | ChannelDepositMax | ChannelLockedMax

  datatype Decision = Allow | NeedsApproval | Deny(rule: Rule)

  function Or<T>(o: Option<T>, default: T): T {
    match o
    case Some(v) => v
    case None => default
  }

  // ---- the rolling windows over past spends ----------------------------------------------------------

  predicate InDay(r: SpendRecord, agentId: string, asset: string, now: int) {
    r.agentId == agentId && r.asset == asset && now - r.ts < DAY
  }

  function DaySpent(ledger: seq<SpendRecord>, agentId: string, asset: string, now: int): nat {
    if ledger == [] then 0
    else (if InDay(ledger[0], agentId, asset, now) then ledger[0].amount else 0)
         + DaySpent(ledger[1..], agentId, asset, now)
  }

  predicate InHour(r: SpendRecord, agentId: string, voucher: bool, now: int) {
    r.agentId == agentId && !r.overhead && r.voucher == voucher && now - r.ts < HOUR
  }

  function HourCount(ledger: seq<SpendRecord>, agentId: string, voucher: bool, now: int): nat {
    if ledger == [] then 0
    else (if InHour(ledger[0], agentId, voucher, now) then 1 else 0) + HourCount(ledger[1..], agentId, voucher, now)
  }

  function DailyCap(ap: AgentPolicy, asset: string): nat
    requires asset in ap.perTxMax
  {
    if asset in ap.dailyMax then ap.dailyMax[asset] else ap.perTxMax[asset]
  }

  function PerHour(ap: AgentPolicy, voucher: bool): nat {
    if voucher then Or(ap.maxVouchersPerHour, DEFAULT_MAX_VOUCHERS_PER_HOUR)
    else Or(ap.maxPerHour, DEFAULT_MAX_PER_HOUR)
  }

  // ---- the decisions ---------------------------------------------------------------------------------

  function Decide(policy: Policy, ledger: seq<SpendRecord>, req: PaymentRequest, now: int): Decision {
    if req.agentId !in policy.agents then Deny(UnknownAgent) else
    var ap := policy.agents[req.agentId];
    if req.amount <= 0 then Deny(Amount) else
    if req.reason.None? || |Trim(req.reason.value)| < 3 then Deny(Reason) else
    var scheme := Or(req.scheme, "exact");
    if scheme !in Or(ap.allowedSchemes, ["exact"]) then Deny(Scheme) else
    var batch := scheme == BATCH;
    if !batch && Or(req.assetTransferMethod, "default") !in Or(ap.allowedAssetTransferMethods, ["default"])
      then Deny(AssetTransferMethod) else
    if req.asset !in ap.perTxMax then Deny(Asset) else
    if !batch && req.mainnet && req.asset != LOVELACE && LOVELACE !in ap.perTxMax then Deny(LovelaceCaps) else
    if "*" !in ap.allowedPayees && req.payTo !in ap.allowedPayees then Deny(Payee) else
    if batch && "*" !in Or(ap.allowedProviderKeys, [])
       && !(req.providerKey.Some? && req.providerKey.value in Or(ap.allowedProviderKeys, []))
         then Deny(ProviderKey) else
    if ap.allowedResources.Some? && "*" !in ap.allowedResources.value
       && Or(req.resource, "") == "" then Deny(Resource) else
    if ap.allowedResources.Some? && "*" !in ap.allowedResources.value
       && !(exists i | 0 <= i < |ap.allowedResources.value| ::
            policy.resourceMatches(ap.allowedResources.value[i], Or(req.resource, ""))) then Deny(Resource) else
    if req.amount > ap.perTxMax[req.asset] then Deny(PerTxMax) else
    if DaySpent(ledger, req.agentId, req.asset, now) + req.amount > DailyCap(ap, req.asset) then Deny(DailyMax) else
    if HourCount(ledger, req.agentId, batch, now) >= PerHour(ap, batch) then Deny(Rate) else
    if req.asset in ap.approvalAbove && req.amount > ap.approvalAbove[req.asset] then NeedsApproval else
    Allow
  }

  function DecideOverhead(policy: Policy, ledger: seq<SpendRecord>, req: OverheadRequest, now: int): Decision {
    if req.agentId !in policy.agents then Deny(UnknownAgent) else
    var ap := policy.agents[req.agentId];
    var lovelace := req.asset == LOVELACE;
    if LOVELACE !in ap.perTxMax then
      if !lovelace && req.mainnet then Deny(LovelaceCaps) else Allow
    else
      var leaving := (if lovelace then req.amount else 0) + req.overhead;
      if leaving > ap.perTxMax[LOVELACE] then Deny(OverheadPerTxMax) else
      if DaySpent(ledger, req.agentId, LOVELACE, now) + leaving > DailyCap(ap, LOVELACE)
        then Deny(OverheadDailyMax) else
      Allow
  }

  function WithinLocked(ap: AgentPolicy, locked: map<string, int>, asset: string, add: int): bool {
    asset in ap.channelLockedMax && (if asset in locked then locked[asset] else 0) + add <= ap.channelLockedMax[asset]
  }

  function DecideDeposit(policy: Policy, req: DepositRequest): Decision {
    if req.agentId !in policy.agents then Deny(UnknownAgent) else
    var ap := policy.agents[req.agentId];
    if BATCH !in Or(ap.allowedSchemes, ["exact"]) then Deny(Scheme) else
    if req.withdrawDelay > Or(ap.maxWithdrawDelay, DEFAULT_MAX_WITHDRAW_DELAY) then Deny(WithdrawDelay) else
    if req.asset !in ap.channelDepositMax
       || req.amount > ap.channelDepositMax[req.asset] then Deny(ChannelDepositMax) else
    if !WithinLocked(ap, req.locked, req.asset, req.amount) then Deny(ChannelLockedMax) else
    if req.reserveLovelace > 0
       && !WithinLocked(ap, req.locked, LOVELACE, req.reserveLovelace) then Deny(ChannelLockedMax) else
    Allow
  }

  // ---- how the windows move --------------------------------------------------------------------------

  lemma {:induction false} DaySpentConcat(xs: seq<SpendRecord>, ys: seq<SpendRecord>, a: string, x: string, now: int)
    ensures DaySpent(xs + ys, a, x, now) == DaySpent(xs, a, x, now) + DaySpent(ys, a, x, now)
  {
    if xs == [] {
      assert xs + ys == ys;
    } else {
      assert (xs + ys)[1..] == xs[1..] + ys;
      DaySpentConcat(xs[1..], ys, a, x, now);
    }
  }

  lemma {:induction false} HourCountConcat(xs: seq<SpendRecord>, ys: seq<SpendRecord>, a: string, v: bool, now: int)
    ensures HourCount(xs + ys, a, v, now) == HourCount(xs, a, v, now) + HourCount(ys, a, v, now)
  {
    if xs == [] {
      assert xs + ys == ys;
    } else {
      assert (xs + ys)[1..] == xs[1..] + ys;
      HourCountConcat(xs[1..], ys, a, v, now);
    }
  }

  /** Time only moves spends out of a window. */
  lemma {:induction false} WindowsShrink(xs: seq<SpendRecord>, a: string, x: string, v: bool, now: int, later: int)
    requires now <= later
    ensures DaySpent(xs, a, x, later) <= DaySpent(xs, a, x, now)
    ensures HourCount(xs, a, v, later) <= HourCount(xs, a, v, now)
  {
    if xs != [] { WindowsShrink(xs[1..], a, x, v, now, later); }
  }

  /** What left the day window weighs nothing, in the hour's either. */
  lemma {:induction false} ExpiredWeighsNothing(xs: seq<SpendRecord>, a: string, x: string, v: bool, now: int)
    requires forall i | 0 <= i < |xs| :: now - xs[i].ts >= DAY
    ensures DaySpent(xs, a, x, now) == 0 && HourCount(xs, a, v, now) == 0
  {
    if xs != [] {
      assert xs[0] == xs[..][0];
      assert forall i | 0 <= i < |xs[1..]| :: xs[1..][i] == xs[i + 1];
      ExpiredWeighsNothing(xs[1..], a, x, v, now);
    }
  }

  /** What a verdict other than a refusal says of the windows it was given from. */
  lemma AdmittedFits(policy: Policy, ledger: seq<SpendRecord>, req: PaymentRequest, now: int)
    requires !Decide(policy, ledger, req, now).Deny?
    ensures req.agentId in policy.agents && req.amount > 0
    ensures var ap := policy.agents[req.agentId];
            var batch := Or(req.scheme, "exact") == BATCH;
            && req.asset in ap.perTxMax
            && req.amount <= ap.perTxMax[req.asset]
            && DaySpent(ledger, req.agentId, req.asset, now) + req.amount <= DailyCap(ap, req.asset)
            && HourCount(ledger, req.agentId, batch, now) + 1 <= PerHour(ap, batch)
  {
  }

  lemma OverheadFits(policy: Policy, ledger: seq<SpendRecord>, req: OverheadRequest, now: int)
    requires DecideOverhead(policy, ledger, req, now).Allow?
    requires req.agentId in policy.agents && LOVELACE in policy.agents[req.agentId].perTxMax
    ensures DaySpent(ledger, req.agentId, LOVELACE, now) + (if req.asset == LOVELACE then req.amount else 0)
            + req.overhead
            <= DailyCap(policy.agents[req.agentId], LOVELACE)
  {
  }

  // ---- deposits ----------------------------------------------------------------------------------------

  function LockedOf(locked: map<string, int>, x: string): int {
    if x in locked then locked[x] else 0
  }

  /** What a deposit adds to what is locked of an asset: itself, and beside a token its ADA reserve. */
  function DepositOf(req: DepositRequest, x: string): int {
    (if x == req.asset then req.amount else 0) + (if x == LOVELACE then req.reserveLovelace else 0)
  }

  predicate LocksSome(req: DepositRequest, x: string) {
    x == req.asset || (x == LOVELACE && req.reserveLovelace > 0)
  }

  /** Within the agent's cap on what its channels hold of an asset, once the deposit is in. */
  predicate LockedFits(ap: AgentPolicy, req: DepositRequest, x: string) {
    x in ap.channelLockedMax && LockedOf(req.locked, x) + DepositOf(req, x) <= ap.channelLockedMax[x]
  }

  /** The rules before those on what is locked. */
  predicate MayDeposit(ap: AgentPolicy, req: DepositRequest) {
    && ap.allowedSchemes.Some? && "batch-settlement" in ap.allowedSchemes.value
    && req.withdrawDelay <= (if ap.maxWithdrawDelay.Some? then ap.maxWithdrawDelay.value else 86_400)
    && req.asset in ap.channelDepositMax && req.amount <= ap.channelDepositMax[req.asset]
  }

  /**
   * A deposit is allowed exactly when the agent may pay over channels, close to its seller soon enough
   * and lock this much at once, and of every asset the deposit locks, what is locked afterwards is
   * within the cap; a token channel's ADA reserve counts, and a lovelace channel has none.
   */
  lemma AllowedDepositStaysWithin(policy: Policy, req: DepositRequest)
    requires req.asset == LOVELACE ==> req.reserveLovelace == 0
    ensures DecideDeposit(policy, req).Allow?
       <==> && req.agentId in policy.agents && MayDeposit(policy.agents[req.agentId], req)
            && forall x | LocksSome(req, x) :: LockedFits(policy.agents[req.agentId], req, x)
  {
    assert LocksSome(req, req.asset) && (req.reserveLovelace > 0 ==> LocksSome(req, LOVELACE));
  }
}
