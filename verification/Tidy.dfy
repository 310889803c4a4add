/**
 * The layout of the wallet's UTxOs and the one transaction that puts it right: tidy.ts. `assets` is a
 * record's entries in order; a plan's tokens are a map, its keys in lower case as the planner writes them.
 */
module Tidy {
  import opened Text
  import opened Wrappers

  const DEFAULT_COLLATERAL: nat := 5_000_000
  const COLLATERAL_FLOOR: nat := 2_000_000
  const COLLATERAL_CEILING: nat := 5_000_000
  const DEFAULT_MAX_INPUTS: nat := 60
  const TIDY_FEE_MAX: nat := 1_000_000
  const TOKEN_SLACK: nat := 1_000_000
  const CHANGE_MIN: nat := 1_000_000

  type Assets = seq<(string, int)>
  type Tokens = map<string, nat>

  datatype Utxo = Utxo(ref: string, lovelace: nat, assets: Assets)

  datatype TidyOptions = TidyOptions(collateralLovelace: Option<nat>, maxInputs: Option<int>, minAda: Tokens -> nat)

  datatype TidyWork = TidyWork(
    inputs: seq<string>,
    tokens: Tokens,
    collateralLovelace: nat,
    tokenMinAda: nat,
    totalLovelace: nat)

  datatype Refusal = BadCollateral | BadMaxInputs | NoUtxos | TooManyUtxos | TooLittle

  datatype TidyPlan = AlreadyTidy | Refused(why: Refusal) | Work(work: TidyWork)

  function Or<T>(o: Option<T>, default: T): T {
    if o.Some? then o.value else default
  }

  // ---- tokens ------------------------------------------------------------------------------------------

  /** The quantities above zero, by lower-case asset. */
  function TokensOf(assets: Assets): (ts: seq<(string, nat)>)
  {
    if assets == [] then []
    else
      var (a, q) := assets[|assets| - 1];
      if q > 0 then TokensOf(assets[..|assets| - 1]) + [(ToLower(a), q)] else TokensOf(assets[..|assets| - 1])
  }

  predicate HoldsTokens(assets: Assets) {
    TokensOf(assets) != []
  }

  function AddToken(tokens: Tokens, t: (string, nat)): Tokens {
    tokens[t.0 := (if t.0 in tokens then tokens[t.0] else 0) + t.1]
  }

  function AddTokens(tokens: Tokens, ts: seq<(string, nat)>): Tokens {
    if ts == [] then tokens else AddToken(AddTokens(tokens, ts[..|ts| - 1]), ts[|ts| - 1])
  }

  /** Every token the holdings have between them. */
  function AllTokens(holdings: seq<Assets>): Tokens {
    if holdings == [] then map[]
    else AddTokens(AllTokens(holdings[..|holdings| - 1]), TokensOf(holdings[|holdings| - 1]))
  }

  function Carrying(utxos: seq<Utxo>): (carrying: seq<Utxo>)
    ensures carrying != [] ==> HoldsTokens(carrying[|carrying| - 1].assets)
  {
    if utxos == [] then []
    else if HoldsTokens(utxos[|utxos| - 1].assets) then Carrying(utxos[..|utxos| - 1]) + [utxos[|utxos| - 1]]
    else Carrying(utxos[..|utxos| - 1])
  }

  function AssetsOf(utxos: seq<Utxo>): (r: seq<Assets>)
    ensures |r| == |utxos|
  {
    if utxos == [] then [] else AssetsOf(utxos[..|utxos| - 1]) + [utxos[|utxos| - 1].assets]
  }

  function TotalLovelace(utxos: seq<Utxo>): nat {
    if utxos == [] then 0 else TotalLovelace(utxos[..|utxos| - 1]) + utxos[|utxos| - 1].lovelace
  }

  /** `adaOnlyLovelace` */
  function AdaOnlyLovelace(utxos: seq<Utxo>): nat {
    if utxos == [] then 0
    else AdaOnlyLovelace(utxos[..|utxos| - 1])
         + (if HoldsTokens(utxos[|utxos| - 1].assets) then 0 else utxos[|utxos| - 1].lovelace)
  }

  function LargestAdaOnly(utxos: seq<Utxo>): Option<nat> {
    if utxos == [] then None
    else
      var before, u := LargestAdaOnly(utxos[..|utxos| - 1]), utxos[|utxos| - 1];
      if !HoldsTokens(u.assets) && (before.None? || u.lovelace > before.value) then Some(u.lovelace) else before
  }

  function Refs(utxos: seq<Utxo>): (refs: seq<string>)
    ensures |refs| == |utxos| && forall i | 0 <= i < |utxos| :: refs[i] == utxos[i].ref
  {
    seq(|utxos|, i requires 0 <= i < |utxos| => utxos[i].ref)
  }

  // ---- the plan ----------------------------------------------------------------------------------------

  predicate BadlyLaidOut(carrying: seq<Utxo>, tokenMin: nat, largest: Option<nat>, collateral: nat) {
    || |carrying| > 1
    || (|carrying| == 1 && carrying[0].lovelace > tokenMin + TOKEN_SLACK)
    || largest.None?
    || largest.value < collateral
  }

  function TokenMin(utxos: seq<Utxo>, o: TidyOptions): nat {
    if Carrying(utxos) != [] then o.minAda(AllTokens(AssetsOf(Carrying(utxos)))) else 0
  }

  function PlanOf(utxos: seq<Utxo>, o: TidyOptions): TidyPlan {
    var collateral, tokenMin := Or(o.collateralLovelace, DEFAULT_COLLATERAL), TokenMin(utxos, o);
    PlanFor(utxos, o, BadlyLaidOut(Carrying(utxos), tokenMin, LargestAdaOnly(utxos), collateral), tokenMin)
  }

  /** The plan, by whether the wallet is badly laid out and what its tokens need. */
  function PlanFor(utxos: seq<Utxo>, o: TidyOptions, badly: bool, tokenMin: nat): TidyPlan {
    var collateral := Or(o.collateralLovelace, DEFAULT_COLLATERAL);
    var maxInputs := Or(o.maxInputs, DEFAULT_MAX_INPUTS);
    var total := TotalLovelace(utxos);
    if collateral < COLLATERAL_FLOOR || collateral > COLLATERAL_CEILING then Refused(BadCollateral)
    else if maxInputs < 1 then Refused(BadMaxInputs)
    else if utxos == [] then Refused(NoUtxos)
    else if !badly then AlreadyTidy
    else if |utxos| > maxInputs then Refused(TooManyUtxos)
    else if total < collateral + tokenMin + TIDY_FEE_MAX + CHANGE_MIN then Refused(TooLittle)
    else Work(TidyWork(Refs(utxos), AllTokens(AssetsOf(Carrying(utxos))), collateral, tokenMin, total))
  }

  /**
   * `tidyPlan`: one pass over the UTxOs gathers what carries tokens, the tokens, the total and the
   * largest ADA-only UTxO.
   */
  method MakePlan(utxos: seq<Utxo>, o: TidyOptions) returns (plan: TidyPlan)
    ensures plan == PlanOf(utxos, o)
  {
    var collateral := Or(o.collateralLovelace, DEFAULT_COLLATERAL);
    var maxInputs := Or(o.maxInputs, DEFAULT_MAX_INPUTS);
    if collateral < COLLATERAL_FLOOR || collateral > COLLATERAL_CEILING { return Refused(BadCollateral); }
    if maxInputs < 1 { return Refused(BadMaxInputs); }
    if utxos == [] { return Refused(NoUtxos); }

    var carrying, tokens, total, largest := Survey(utxos);
    var tokenMin := if carrying != [] then o.minAda(tokens) else 0;
    var problems := 0;
    if |carrying| > 1 {
      problems := problems + 1;
    } else if |carrying| == 1 && carrying[0].lovelace > tokenMin + TOKEN_SLACK {
      problems := problems + 1;
    }
    if largest.None? || largest.value < collateral { problems := problems + 1; }
    if problems == 0 { return AlreadyTidy; }
    if |utxos| > maxInputs { return Refused(TooManyUtxos); }
    if total < collateral + tokenMin + TIDY_FEE_MAX + CHANGE_MIN { return Refused(TooLittle); }
    plan := Work(TidyWork(Refs(utxos), tokens, collateral, tokenMin, total));
  }

  method Survey(utxos: seq<Utxo>) returns (carrying: seq<Utxo>, tokens: Tokens, total: nat, largest: Option<nat>)
    ensures carrying == Carrying(utxos) && tokens == AllTokens(AssetsOf(carrying))
    ensures total == TotalLovelace(utxos) && largest == LargestAdaOnly(utxos)
  {
    carrying, tokens, total, largest := [], map[], 0, None;
    var n := 0;
    while n < |utxos|
      invariant n <= |utxos|
      invariant carrying == Carrying(utxos[..n]) && tokens == AllTokens(AssetsOf(Carrying(utxos[..n])))
      invariant total == TotalLovelace(utxos[..n]) && largest == LargestAdaOnly(utxos[..n])
    {
      var u := utxos[n];
      SurveyOneMore(utxos, n);
      if HoldsTokens(u.assets) {
        carrying := carrying + [u];
        tokens := GatherTokens(tokens, u.assets);
      } else if largest.None? || u.lovelace > largest.value {
        largest := Some(u.lovelace);
      }
      total := total + u.lovelace;
      n := n + 1;
    }
    assert utxos[..n] == utxos;
  }

  lemma SurveyOneMore(utxos: seq<Utxo>, n: nat)
    requires n < |utxos|
    ensures var before, u, more := utxos[..n], utxos[n], utxos[..n + 1];
            && Carrying(more) == (if HoldsTokens(u.assets) then Carrying(before) + [u] else Carrying(before))
            && AllTokens(AssetsOf(Carrying(more)))
               == (if HoldsTokens(u.assets) then AddTokens(AllTokens(AssetsOf(Carrying(before))), TokensOf(u.assets))
                   else AllTokens(AssetsOf(Carrying(before))))
            && TotalLovelace(more) == TotalLovelace(before) + u.lovelace
            && LargestAdaOnly(more)
               == (if !HoldsTokens(u.assets)
                      && (LargestAdaOnly(before).None? || u.lovelace > LargestAdaOnly(before).value)
                   then Some(u.lovelace) else LargestAdaOnly(before))
  {
    assert utxos[..n + 1][..n] == utxos[..n];
    AllTokensSnoc(Carrying(utxos[..n]), utxos[n]);
  }

  lemma AllTokensSnoc(utxos: seq<Utxo>, u: Utxo)
    ensures AllTokens(AssetsOf(utxos + [u])) == AddTokens(AllTokens(AssetsOf(utxos)), TokensOf(u.assets))
  {
    assert (utxos + [u])[..|utxos|] == utxos;
    assert AssetsOf(utxos + [u])[..|utxos|] == AssetsOf(utxos);
  }

  method GatherTokens(tokens: Tokens, assets: Assets) returns (sum: Tokens)
    ensures sum == AddTokens(tokens, TokensOf(assets))
  {
    sum := tokens;
    var ts := TokensOf(assets);
    var n := 0;
    while n < |ts|
      invariant n <= |ts|
      invariant sum == AddTokens(tokens, ts[..n])
    {
      assert ts[..n + 1][..n] == ts[..n];
      sum := AddToken(sum, ts[n]);
      n := n + 1;
    }
    assert ts[..n] == ts;
  }

  // ---- the check on the built transaction ----------------------------------------------------------------

  datatype Output = Output(address: string, coin: nat, assets: Assets)

  datatype DecodedTx = DecodedTx(
    inputs: seq<string>,
    outputs: seq<Output>,
    fee: nat,
    balanceChangingOperations: seq<string>,
    redeemerCount: nat,
    scriptWitnessCount: nat)

  datatype Problem =
    | ExtraInputs | MissingInputs | RepeatedInput | BalanceChanging | RunsScript | PaysStrangers | FeeTooHigh
    | TokensDiffer | TokenOutputs | TokenOutputTooHeavy | NoCollateralOutput | DoesNotAddUp

  /** An output of the transaction as the UTxO it becomes: `txHash#index`. */
  function AsUtxos(outputs: seq<Output>, refs: seq<string>): (utxos: seq<Utxo>)
    requires |refs| == |outputs|
    ensures |utxos| == |outputs|
  {
    if outputs == [] then []
    else
      var n := |outputs| - 1;
      AsUtxos(outputs[..n], refs[..n]) + [Utxo(refs[n], outputs[n].coin, outputs[n].assets)]
  }

  function Holders(outputs: seq<Output>): (holders: seq<Output>)
  {
    if outputs == [] then []
    else if HoldsTokens(outputs[|outputs| - 1].assets) then Holders(outputs[..|outputs| - 1]) + [outputs[|outputs| - 1]]
    else Holders(outputs[..|outputs| - 1])
  }

  function TotalCoin(outputs: seq<Output>): nat {
    if outputs == [] then 0 else TotalCoin(outputs[..|outputs| - 1]) + outputs[|outputs| - 1].coin
  }

  function OutputTokens(outputs: seq<Output>): Tokens {
    if outputs == [] then map[]
    else AddTokens(OutputTokens(outputs[..|outputs| - 1]), TokensOf(outputs[|outputs| - 1].assets))
  }

  function Wanted(plan: TidyWork): Tokens {
    map a | a in plan.tokens && plan.tokens[a] > 0 :: plan.tokens[a]
  }

  function Quantity(tokens: Tokens, a: string): nat {
    if a in tokens then tokens[a] else 0
  }

  predicate SameTokens(x: Tokens, y: Tokens) {
    forall a | a in x.Keys + y.Keys :: Quantity(x, a) == Quantity(y, a)
  }

  predicate HasCollateral(outputs: seq<Output>, collateral: nat) {
    exists i | 0 <= i < |outputs| :: !HoldsTokens(outputs[i].assets) && outputs[i].coin == collateral
  }

  function ProblemOf(tx: DecodedTx, plan: TidyWork, own: string): Option<Problem> {
    var planned, spent := set i | i in plan.inputs, set i | i in tx.inputs;
    var want, holders := Wanted(plan), Holders(tx.outputs);
    if !(spent <= planned) then Some(ExtraInputs)
    else if !(planned <= spent) then Some(MissingInputs)
    else if |tx.inputs| != |spent| then Some(RepeatedInput)
    else if tx.balanceChangingOperations != [] then Some(BalanceChanging)
    else if tx.redeemerCount != 0 || tx.scriptWitnessCount != 0 then Some(RunsScript)
    else if exists i | 0 <= i < |tx.outputs| :: tx.outputs[i].address != own then Some(PaysStrangers)
    else if tx.fee > TIDY_FEE_MAX then Some(FeeTooHigh)
    else if !SameTokens(want, OutputTokens(tx.outputs)) then Some(TokensDiffer)
    else if |holders| != (if want != map[] then 1 else 0) then Some(TokenOutputs)
    else if |holders| == 1 && holders[0].coin > plan.tokenMinAda + TOKEN_SLACK then Some(TokenOutputTooHeavy)
    else if !HasCollateral(tx.outputs, plan.collateralLovelace) then Some(NoCollateralOutput)
    else if TotalCoin(tx.outputs) + tx.fee != plan.totalLovelace then Some(DoesNotAddUp)
    else None
  }

  /** `tidyProblem`: the loops gather the outputs' tokens and compare them with the plan's, asset by asset. */
  method FindProblem(tx: DecodedTx, plan: TidyWork, own: string) returns (problem: Option<Problem>)
    ensures problem == ProblemOf(tx, plan, own)
  {
    var planned, spent := set i | i in plan.inputs, set i | i in tx.inputs;
    if !(spent <= planned) { return Some(ExtraInputs); }
    if !(planned <= spent) { return Some(MissingInputs); }
    if |tx.inputs| != |spent| { return Some(RepeatedInput); }
    if tx.balanceChangingOperations != [] { return Some(BalanceChanging); }
    if tx.redeemerCount != 0 || tx.scriptWitnessCount != 0 { return Some(RunsScript); }
    if exists i | 0 <= i < |tx.outputs| :: tx.outputs[i].address != own { return Some(PaysStrangers); }
    if tx.fee > TIDY_FEE_MAX { return Some(FeeTooHigh); }

    var out, holders, paid := TakeStock(tx.outputs);
    var want := Wanted(plan);
    var same := CompareTokens(want, out);
    if !same { return Some(TokensDiffer); }
    if |holders| != (if want != map[] then 1 else 0) { return Some(TokenOutputs); }
    if |holders| == 1 && holders[0].coin > plan.tokenMinAda + TOKEN_SLACK { return Some(TokenOutputTooHeavy); }
    if !HasCollateral(tx.outputs, plan.collateralLovelace) { return Some(NoCollateralOutput); }
    problem := if paid + tx.fee != plan.totalLovelace then Some(DoesNotAddUp) else None;
  }

  method TakeStock(outputs: seq<Output>) returns (out: Tokens, holders: seq<Output>, paid: nat)
    ensures out == OutputTokens(outputs) && holders == Holders(outputs) && paid == TotalCoin(outputs)
  {
    out, holders, paid := map[], [], 0;
    var n := 0;
    while n < |outputs|
      invariant n <= |outputs|
      invariant out == OutputTokens(outputs[..n]) && holders == Holders(outputs[..n]) && paid == TotalCoin(outputs[..n])
    {
      assert outputs[..n + 1][..n] == outputs[..n];
      out := GatherTokens(out, outputs[n].assets);
      if HoldsTokens(outputs[n].assets) { holders := holders + [outputs[n]]; }
      paid := paid + outputs[n].coin;
      n := n + 1;
    }
    assert outputs[..n] == outputs;
  }

  method CompareTokens(want: Tokens, out: Tokens) returns (same: bool)
    ensures same == SameTokens(want, out)
  {
    var left := want.Keys + out.Keys;
    while left != {}
      invariant left <= want.Keys + out.Keys
      invariant forall a | a in want.Keys + out.Keys && a !in left :: Quantity(want, a) == Quantity(out, a)
      decreases left
    {
      var a :| a in left;
      if Quantity(want, a) != Quantity(out, a) { return false; }
      left := left - {a};
    }
    same := true;
  }

  // ---- when signerd tidies by itself -----------------------------------------------------------------------

  function AdaOnlyLovelaceAfter(plan: TidyWork): int {
    plan.totalLovelace - plan.tokenMinAda - TIDY_FEE_MAX
  }

  datatype AutoTidyInput = AutoTidyInput(
    enabled: bool,
    tidyInFlight: bool,
    now: int,
    lastAutoTidyAt: Option<int>,
    minIntervalMs: int,
    unsettled: Option<string>,
    plan: TidyPlan,
    utxos: seq<Utxo>)

  datatype WhyNot = Off | Running | TooSoon | Unsettled | Impossible | NotNeeded | NoGain

  datatype AutoTidyDecision = DoTidy | Leave(why: WhyNot)

  function AutoTidy(i: AutoTidyInput): AutoTidyDecision {
    if !i.enabled then Leave(Off)
    else if i.tidyInFlight then Leave(Running)
    else if i.lastAutoTidyAt.Some? && 0 <= i.now - i.lastAutoTidyAt.value < i.minIntervalMs then Leave(TooSoon)
    else if i.unsettled.Some? && i.unsettled.value != "" then Leave(Unsettled)
    else if i.plan.Refused? then Leave(Impossible)
    else if i.plan.AlreadyTidy? then Leave(NotNeeded)
    else if AdaOnlyLovelaceAfter(i.plan.work) <= AdaOnlyLovelace(i.utxos) then Leave(NoGain)
    else DoTidy
  }
}
