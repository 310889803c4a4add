/** What the planner, the read-back and the automatic decision of tidy.ts answer, and exactly when. */
module TidyRules {
  import opened Text
  import opened Wrappers
  import opened Tidy
  import opened TidyProofs

  // ---- tokens, quantity by quantity -----------------------------------------------------------------------

  predicate Carries(assets: Assets) {
    exists k :: 0 <= k < |assets| && assets[k].1 > 0
  }

  lemma {:induction false} HoldsIsCarries(assets: Assets)
    ensures HoldsTokens(assets) <==> Carries(assets)
  {
    if assets != [] {
      var n := |assets| - 1;
      HoldsIsCarries(assets[..n]);
      assert forall k | 0 <= k < n :: assets[..n][k] == assets[k];
      if Carries(assets[..n]) {
        var k :| 0 <= k < n && assets[..n][k].1 > 0;
        assert assets[k].1 > 0;
      }
    }
  }

  /** How much of a token a record holds: what is above zero, whatever the case its name is in. */
  function QuantityOf(assets: Assets, a: string): nat {
    if assets == [] then 0
    else
      var (name, q) := assets[|assets| - 1];
      QuantityOf(assets[..|assets| - 1], a) + if q > 0 && ToLower(name) == a then q else 0
  }

  function QuantityIn(holdings: seq<Assets>, a: string): nat {
    if holdings == [] then 0 else QuantityIn(holdings[..|holdings| - 1], a) + QuantityOf(holdings[|holdings| - 1], a)
  }

  lemma {:induction false} AddedQuantity(tokens: Tokens, assets: Assets, a: string)
    ensures Quantity(AddTokens(tokens, TokensOf(assets)), a) == Quantity(tokens, a) + QuantityOf(assets, a)
  {
    if assets != [] {
      var before, last := assets[..|assets| - 1], assets[|assets| - 1];
      AddedQuantity(tokens, before, a);
      if last.1 > 0 {
        var ts := TokensOf(assets);
        assert ts[..|ts| - 1] == TokensOf(before);
      }
    }
  }

  /** The tokens of several records are the sums of each. */
  lemma {:induction false} TokensAreSums(holdings: seq<Assets>, a: string)
    ensures Quantity(AllTokens(holdings), a) == QuantityIn(holdings, a)
  {
    if holdings != [] {
      TokensAreSums(holdings[..|holdings| - 1], a);
      AddedQuantity(AllTokens(holdings[..|holdings| - 1]), holdings[|holdings| - 1], a);
    }
  }

  lemma {:induction false} OutputTokensAreSums(outputs: seq<Output>, a: string)
    ensures Quantity(OutputTokens(outputs), a) == QuantityIn(AssetsOut(outputs), a)
  {
    if outputs != [] {
      var n := |outputs| - 1;
      OutputTokensAreSums(outputs[..n], a);
      AddedQuantity(OutputTokens(outputs[..n]), outputs[n].assets, a);
      assert AssetsOut(outputs)[..n] == AssetsOut(outputs[..n]);
    }
  }

  function AssetsOut(outputs: seq<Output>): (r: seq<Assets>)
    ensures |r| == |outputs|
  {
    if outputs == [] then [] else AssetsOut(outputs[..|outputs| - 1]) + [outputs[|outputs| - 1].assets]
  }

  // ---- the plan ---------------------------------------------------------------------------------------------

  function CollateralOf(o: TidyOptions): nat {
    if o.collateralLovelace.Some? then o.collateralLovelace.value else 5_000_000
  }

  function MostInputs(o: TidyOptions): int {
    if o.maxInputs.Some? then o.maxInputs.value else 60
  }

  predicate OneCarrier(utxos: seq<Utxo>) {
    forall i, j | 0 <= i < j < |utxos| :: !(Carries(utxos[i].assets) && Carries(utxos[j].assets))
  }

  /** What the wallet's tokens need in one output; nothing, when it has none. */
  function NeededAda(utxos: seq<Utxo>, o: TidyOptions): nat {
    if exists i :: 0 <= i < |utxos| && Carries(utxos[i].assets)
    then o.minAda(AllTokens(AssetsOf(Carrying(utxos))))
    else 0
  }

  /**
   * One UTxO with tokens at most, no heavier than they need and a million, and one without that
   * holds the collateral.
   */
  predicate InOrder(utxos: seq<Utxo>, o: TidyOptions) {
    && OneCarrier(utxos)
    && (forall i | 0 <= i < |utxos| && Carries(utxos[i].assets) :: utxos[i].lovelace <= NeededAda(utxos, o) + 1_000_000)
    && (exists i :: 0 <= i < |utxos| && !Carries(utxos[i].assets) && utxos[i].lovelace >= CollateralOf(o))
  }

  predicate NoneCarries(utxos: seq<Utxo>) {
    forall i | 0 <= i < |utxos| :: !Carries(utxos[i].assets)
  }

  lemma OneCarrierMore(utxos: seq<Utxo>, u: Utxo)
    ensures OneCarrier(utxos + [u]) <==> if Carries(u.assets) then NoneCarries(utxos) else OneCarrier(utxos)
    ensures NoneCarries(utxos + [u]) <==> NoneCarries(utxos) && !Carries(u.assets)
    ensures NoneCarries(utxos) ==> OneCarrier(utxos)
  {
    var all := utxos + [u];
    assert all[|utxos|] == u && forall i | 0 <= i < |utxos| :: all[i] == utxos[i];
  }

  lemma {:induction false} CarryingIs(utxos: seq<Utxo>)
    ensures Carrying(utxos) == [] <==> NoneCarries(utxos)
    ensures |Carrying(utxos)| <= 1 <==> OneCarrier(utxos)
  {
    if utxos != [] {
      var before, last := utxos[..|utxos| - 1], utxos[|utxos| - 1];
      CarryingIs(before);
      HoldsIsCarries(last.assets);
      OneCarrierMore(before, last);
      assert utxos == before + [last];
    }
  }

  lemma {:induction false} CarryingHas(utxos: seq<Utxo>)
    ensures forall u :: u in Carrying(utxos) <==> u in utxos && Carries(u.assets)
  {
    if utxos != [] {
      var before, last := utxos[..|utxos| - 1], utxos[|utxos| - 1];
      CarryingHas(before);
      HoldsIsCarries(last.assets);
      assert utxos == before + [last];
    }
  }

  lemma {:induction false} LargestIs(utxos: seq<Utxo>, least: nat)
    ensures LargestAdaOnly(utxos).Some? && LargestAdaOnly(utxos).value >= least
       <==> exists i :: 0 <= i < |utxos| && !Carries(utxos[i].assets) && utxos[i].lovelace >= least
  {
    if utxos != [] {
      var n := |utxos| - 1;
      LargestIs(utxos[..n], least);
      HoldsIsCarries(utxos[n].assets);
      assert forall i | 0 <= i < n :: utxos[..n][i] == utxos[i];
      if i :| 0 <= i < n && !Carries(utxos[..n][i].assets) && utxos[..n][i].lovelace >= least {
        assert !Carries(utxos[i].assets) && utxos[i].lovelace >= least;
      }
    }
  }

  lemma LaidOutIs(utxos: seq<Utxo>, o: TidyOptions)
    ensures BadlyLaidOut(Carrying(utxos), TokenMin(utxos, o), LargestAdaOnly(utxos), CollateralOf(o))
            <==> !InOrder(utxos, o)
    ensures TokenMin(utxos, o) == NeededAda(utxos, o)
  {
    CarryingIs(utxos);
    CarryingHas(utxos);
    LargestIs(utxos, CollateralOf(o));
    var carrying := Carrying(utxos);
    if |carrying| == 1 {
      assert carrying[0] in carrying;
      forall i | 0 <= i < |utxos| && Carries(utxos[i].assets) ensures utxos[i] == carrying[0] {
        assert utxos[i] in carrying;
      }
    }
  }

  lemma PlannedBy(utxos: seq<Utxo>, o: TidyOptions, order: bool, needed: nat)
    ensures var plan := PlanFor(utxos, o, !order, needed);
            if !(2_000_000 <= CollateralOf(o) <= 5_000_000) then plan == Refused(BadCollateral)
            else if MostInputs(o) < 1 then plan == Refused(BadMaxInputs)
            else if utxos == [] then plan == Refused(NoUtxos)
            else if order then plan == AlreadyTidy
            else if |utxos| > MostInputs(o) then plan == Refused(TooManyUtxos)
            else if TotalLovelace(utxos) < CollateralOf(o) + needed + 2_000_000 then plan == Refused(TooLittle)
            else plan.Work?
  {
  }

  /** The planner has something to decide: options in range, and a wallet. */
  predicate Plannable(utxos: seq<Utxo>, o: TidyOptions) {
    2_000_000 <= CollateralOf(o) <= 5_000_000 && MostInputs(o) >= 1 && utxos != []
  }

  /**
   * What the planner answers. Options that are out of range and an empty wallet are refused. Otherwise
   * it is already tidy exactly when it is in order; and if not, refused for too many UTxOs or too
   * little lovelace, and planned for in every other case.
   */
  lemma PlansExactly(utxos: seq<Utxo>, o: TidyOptions)
    ensures PlanOf(utxos, o) == Refused(BadCollateral) <==> CollateralOf(o) < 2_000_000 || CollateralOf(o) > 5_000_000
    ensures PlanOf(utxos, o) == AlreadyTidy <==> Plannable(utxos, o) && InOrder(utxos, o)
    ensures PlanOf(utxos, o) == Refused(TooManyUtxos)
       <==> Plannable(utxos, o) && !InOrder(utxos, o) && |utxos| > MostInputs(o)
    ensures PlanOf(utxos, o) == Refused(TooLittle)
       <==> && Plannable(utxos, o) && !InOrder(utxos, o) && |utxos| <= MostInputs(o)
            && TotalLovelace(utxos) < CollateralOf(o) + NeededAda(utxos, o) + 2_000_000
    ensures PlanOf(utxos, o).Work?
       <==> && Plannable(utxos, o) && !InOrder(utxos, o) && |utxos| <= MostInputs(o)
            && TotalLovelace(utxos) >= CollateralOf(o) + NeededAda(utxos, o) + 2_000_000
  {
    LaidOutIs(utxos, o);
    PlannedBy(utxos, o, InOrder(utxos, o), NeededAda(utxos, o));
  }

  lemma {:induction false} NothingWhereNoneCarried(assets: Assets, a: string)
    requires !Carries(assets)
    ensures QuantityOf(assets, a) == 0
  {
    if assets != [] {
      assert forall k | 0 <= k < |assets| - 1 :: assets[..|assets| - 1][k] == assets[k];
      NothingWhereNoneCarried(assets[..|assets| - 1], a);
    }
  }

  lemma QuantityMore(holdings: seq<Assets>, assets: Assets, a: string)
    ensures QuantityIn(holdings + [assets], a) == QuantityIn(holdings, a) + QuantityOf(assets, a)
  {
    assert (holdings + [assets])[..|holdings|] == holdings;
  }

  /** The UTxOs that carry tokens carry all there are. */
  lemma {:induction false} CarryingHoldsAll(utxos: seq<Utxo>, a: string)
    ensures QuantityIn(AssetsOf(Carrying(utxos)), a) == QuantityIn(AssetsOf(utxos), a)
  {
    if utxos != [] {
      var before, u := utxos[..|utxos| - 1], utxos[|utxos| - 1];
      CarryingHoldsAll(before, a);
      QuantityMore(AssetsOf(before), u.assets, a);
      HoldsIsCarries(u.assets);
      if Carries(u.assets) {
        QuantityMore(AssetsOf(Carrying(before)), u.assets, a);
        assert (Carrying(before) + [u])[..|Carrying(before)|] == Carrying(before);
      } else {
        NothingWhereNoneCarried(u.assets, a);
      }
    }
  }

  /** The work planned is to spend every UTxO, with all the lovelace and all the tokens there are. */
  lemma WorkIs(utxos: seq<Utxo>, o: TidyOptions, a: string)
    requires PlanOf(utxos, o).Work?
    ensures var w := PlanOf(utxos, o).work;
            && |w.inputs| == |utxos| && (forall i | 0 <= i < |utxos| :: w.inputs[i] == utxos[i].ref)
            && Quantity(w.tokens, a) == QuantityIn(AssetsOf(utxos), a)
            && w.collateralLovelace == CollateralOf(o) && w.tokenMinAda == NeededAda(utxos, o)
            && w.totalLovelace == TotalLovelace(utxos)
  {
    LaidOutIs(utxos, o);
    TokensHeld(utxos, a);
  }

  lemma TokensHeld(utxos: seq<Utxo>, a: string)
    ensures Quantity(AllTokens(AssetsOf(Carrying(utxos))), a) == QuantityIn(AssetsOf(utxos), a)
  {
    TokensAreSums(AssetsOf(Carrying(utxos)), a);
    CarryingHoldsAll(utxos, a);
  }

  // ---- the read-back ----------------------------------------------------------------------------------------

  predicate NoneTwice(refs: seq<string>) {
    forall i, j | 0 <= i < j < |refs| :: refs[i] != refs[j]
  }

  lemma {:induction false} CountIsNoneTwice(refs: seq<string>)
    ensures |set r | r in refs| <= |refs|
    ensures |set r | r in refs| == |refs| <==> NoneTwice(refs)
  {
    if refs != [] {
      var before, last := refs[..|refs| - 1], refs[|refs| - 1];
      CountIsNoneTwice(before);
      assert refs == before + [last];
      assert (set r | r in refs) == (set r | r in before) + {last};
      if last in before {
        var i :| 0 <= i < |before| && before[i] == last;
        assert refs[i] == refs[|refs| - 1];
        assert (set r | r in refs) == (set r | r in before);
      } else {
        assert NoneTwice(refs) <==> NoneTwice(before);
      }
    }
  }

  /** Exactly the plan's inputs, each once, and nothing but a payment to this wallet within the fee. */
  ghost predicate PlainSpend(tx: DecodedTx, plan: TidyWork, own: string) {
    && (forall r :: r in tx.inputs <==> r in plan.inputs) && NoneTwice(tx.inputs)
    && tx.balanceChangingOperations == [] && tx.redeemerCount == 0 && tx.scriptWitnessCount == 0
    && (forall i | 0 <= i < |tx.outputs| :: tx.outputs[i].address == own)
    && tx.fee <= 1_000_000
  }

  /**
   * Every token of the plan, in one output that holds its minimum and a million at most; one output
   * for collateral; all the rest.
   */
  ghost predicate InPlace(tx: DecodedTx, plan: TidyWork) {
    && (forall a :: QuantityIn(AssetsOut(tx.outputs), a) == Quantity(plan.tokens, a))
    && |Holders(tx.outputs)| == (if exists a :: a in plan.tokens && plan.tokens[a] > 0 then 1 else 0)
    && (forall i | 0 <= i < |tx.outputs| && Carries(tx.outputs[i].assets) ::
          tx.outputs[i].coin <= plan.tokenMinAda + 1_000_000)
    && (exists i :: 0 <= i < |tx.outputs| && !Carries(tx.outputs[i].assets)
                    && tx.outputs[i].coin == plan.collateralLovelace)
    && TotalCoin(tx.outputs) + tx.fee == plan.totalLovelace
  }

  lemma {:induction false} HoldersAre(outputs: seq<Output>)
    ensures forall u :: u in Holders(outputs) <==> u in outputs && Carries(u.assets)
  {
    if outputs != [] {
      var before, last := outputs[..|outputs| - 1], outputs[|outputs| - 1];
      HoldersAre(before);
      HoldsIsCarries(last.assets);
      assert outputs == before + [last];
    }
  }

  lemma SameTokensIs(tx: DecodedTx, plan: TidyWork)
    ensures SameTokens(Wanted(plan), OutputTokens(tx.outputs))
       <==> forall a :: QuantityIn(AssetsOut(tx.outputs), a) == Quantity(plan.tokens, a)
  {
    forall a ensures Quantity(OutputTokens(tx.outputs), a) == QuantityIn(AssetsOut(tx.outputs), a) {
      OutputTokensAreSums(tx.outputs, a);
    }
    forall a ensures Quantity(Wanted(plan), a) == Quantity(plan.tokens, a) {
    }
    if SameTokens(Wanted(plan), OutputTokens(tx.outputs)) {
      forall a ensures QuantityIn(AssetsOut(tx.outputs), a) == Quantity(plan.tokens, a) {
        assert a in Wanted(plan).Keys + OutputTokens(tx.outputs).Keys
               ==> Quantity(Wanted(plan), a) == Quantity(OutputTokens(tx.outputs), a);
      }
    }
  }

  lemma HoldersFit(tx: DecodedTx, plan: TidyWork)
    requires |Holders(tx.outputs)| <= 1
    ensures (|Holders(tx.outputs)| == 1 ==> Holders(tx.outputs)[0].coin <= plan.tokenMinAda + 1_000_000)
       <==> forall i | 0 <= i < |tx.outputs| && Carries(tx.outputs[i].assets) ::
              tx.outputs[i].coin <= plan.tokenMinAda + 1_000_000
  {
    HoldersAre(tx.outputs);
    var holders := Holders(tx.outputs);
    if |holders| == 1 {
      assert holders[0] in holders;
      var k :| 0 <= k < |tx.outputs| && tx.outputs[k] == holders[0];
      forall i | 0 <= i < |tx.outputs| && Carries(tx.outputs[i].assets) ensures tx.outputs[i] == holders[0] {
        assert tx.outputs[i] in holders;
      }
    } else {
      forall i | 0 <= i < |tx.outputs| ensures !Carries(tx.outputs[i].assets) {
        assert tx.outputs[i] in tx.outputs;
      }
    }
  }

  lemma CollateralIs(tx: DecodedTx, plan: TidyWork)
    ensures HasCollateral(tx.outputs, plan.collateralLovelace)
       <==> exists i :: 0 <= i < |tx.outputs| && !Carries(tx.outputs[i].assets)
                        && tx.outputs[i].coin == plan.collateralLovelace
  {
    forall i | 0 <= i < |tx.outputs| ensures HoldsTokens(tx.outputs[i].assets) <==> Carries(tx.outputs[i].assets) {
      HoldsIsCarries(tx.outputs[i].assets);
    }
  }

  lemma SpentIs(tx: DecodedTx, plan: TidyWork)
    ensures (set i | i in tx.inputs) == (set i | i in plan.inputs) <==> forall r :: r in tx.inputs <==> r in plan.inputs
  {
    var spent, planned := set i | i in tx.inputs, set i | i in plan.inputs;
    assert forall r :: (r in spent <==> r in tx.inputs) && (r in planned <==> r in plan.inputs);
  }

  lemma WantsOne(plan: TidyWork)
    ensures Wanted(plan) != map[] <==> exists a :: a in plan.tokens && plan.tokens[a] > 0
  {
    if a :| a in plan.tokens && plan.tokens[a] > 0 { assert a in Wanted(plan); }
    if Wanted(plan) != map[] {
      var a :| a in Wanted(plan);
      assert a in plan.tokens && plan.tokens[a] > 0;
    }
  }

  /**
   * The read-back accepts a transaction exactly when it spends the plan's inputs plainly and puts
   * everything in its place.
   */
  lemma AcceptedExactly(tx: DecodedTx, plan: TidyWork, own: string)
    ensures ProblemOf(tx, plan, own).None? <==> PlainSpend(tx, plan, own) && InPlace(tx, plan)
  {
    SpentIs(tx, plan);
    CountIsNoneTwice(tx.inputs);
    SameTokensIs(tx, plan);
    CollateralIs(tx, plan);
    WantsOne(plan);
    if |Holders(tx.outputs)| <= 1 { HoldersFit(tx, plan); }
    if ProblemOf(tx, plan, own).None? { Passed(tx, plan, own); }
  }

  // ---- the automatic decision -------------------------------------------------------------------------------

  /** Tidied less than the interval ago; a last time that is still to come says nothing. */
  predicate TooRecent(i: AutoTidyInput) {
    i.lastAutoTidyAt.Some? && i.lastAutoTidyAt.value <= i.now < i.lastAutoTidyAt.value + i.minIntervalMs
  }

  /**
   * signerd tidies by itself exactly when that is turned on, no tidy runs, the last is long enough ago,
   * the wallet is settled, there is work planned, and what it leaves in ADA-only UTxOs, the fee counted
   * at its highest, is more than they hold.
   */
  lemma TidiesItselfExactly(i: AutoTidyInput)
    ensures AutoTidy(i).DoTidy?
       <==> && i.enabled && !i.tidyInFlight && !TooRecent(i) && (i.unsettled.None? || i.unsettled.value == "")
            && i.plan.Work?
            && i.plan.work.totalLovelace - i.plan.work.tokenMinAda - 1_000_000 > AdaOnlyLovelace(i.utxos)
  {
  }

  function AdaOf(utxos: seq<Utxo>): nat {
    if utxos == [] then 0
    else AdaOf(utxos[..|utxos| - 1])
         + if Carries(utxos[|utxos| - 1].assets) then 0 else utxos[|utxos| - 1].lovelace
  }

  /** ADA-only lovelace is what the UTxOs that carry no token hold. */
  lemma {:induction false} AdaOnlyIs(utxos: seq<Utxo>)
    ensures AdaOnlyLovelace(utxos) == AdaOf(utxos)
  {
    if utxos != [] {
      AdaOnlyIs(utxos[..|utxos| - 1]);
      HoldsIsCarries(utxos[|utxos| - 1].assets);
    }
  }
}
