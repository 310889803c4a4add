/**
 * What a tidy promises: every plan can be carried out, an accepted transaction keeps all but the fee
 * at the wallet, its outputs need no further tidy, and one signerd starts by itself frees ADA.
 */
module TidyProofs {
  import opened Text
  import opened Tidy
  import opened Wrappers

  // ---- tokens ------------------------------------------------------------------------------------------

  predicate Plain(tokens: Tokens) {
    forall a | a in tokens :: tokens[a] > 0 && ToLower(a) == a
  }

  lemma LowerTwice(s: string)
    ensures ToLower(ToLower(s)) == ToLower(s)
  {
  }

  lemma {:induction false} TokensAreLower(assets: Assets)
    ensures forall i | 0 <= i < |TokensOf(assets)| ::
              TokensOf(assets)[i].1 > 0 && ToLower(TokensOf(assets)[i].0) == TokensOf(assets)[i].0
  {
    if assets != [] {
      TokensAreLower(assets[..|assets| - 1]);
      LowerTwice(assets[|assets| - 1].0);
    }
  }

  lemma {:induction false} AddKeepsPlain(tokens: Tokens, ts: seq<(string, nat)>)
    requires Plain(tokens) && forall i | 0 <= i < |ts| :: ts[i].1 > 0 && ToLower(ts[i].0) == ts[i].0
    ensures Plain(AddTokens(tokens, ts))
    ensures ts != [] ==> AddTokens(tokens, ts) != map[]
  {
    if ts != [] {
      AddKeepsPlain(tokens, ts[..|ts| - 1]);
      assert ts[|ts| - 1].0 in AddTokens(tokens, ts);
    }
  }

  lemma {:induction false} AllTokensArePlain(holdings: seq<Assets>)
    ensures Plain(AllTokens(holdings))
    ensures (exists i | 0 <= i < |holdings| :: HoldsTokens(holdings[i])) ==> AllTokens(holdings) != map[]
  {
    if holdings != [] {
      var before, last := holdings[..|holdings| - 1], holdings[|holdings| - 1];
      AllTokensArePlain(before);
      TokensAreLower(last);
      AddKeepsPlain(AllTokens(before), TokensOf(last));
      AddKeepsKeys(AllTokens(before), TokensOf(last));
      if i :| 0 <= i < |holdings| && HoldsTokens(holdings[i]) {
        if i < |before| { assert HoldsTokens(before[i]); }
      }
    }
  }

  lemma {:induction false} AddKeepsKeys(tokens: Tokens, ts: seq<(string, nat)>)
    ensures tokens.Keys <= AddTokens(tokens, ts).Keys
  {
    if ts != [] { AddKeepsKeys(tokens, ts[..|ts| - 1]); }
  }

  /** The tokens of the outputs, seen as the UTxOs they become, are those of the ones that carry any. */
  lemma {:induction false} TokensAreCarried(outputs: seq<Output>, refs: seq<string>)
    requires |refs| == |outputs|
    ensures AllTokens(AssetsOf(Carrying(AsUtxos(outputs, refs)))) == OutputTokens(outputs)
  {
    if outputs != [] {
      var n := |outputs| - 1;
      TokensAreCarried(outputs[..n], refs[..n]);
      var before, u := AsUtxos(outputs[..n], refs[..n]), Utxo(refs[n], outputs[n].coin, outputs[n].assets);
      assert AsUtxos(outputs, refs)[..n] == before && AsUtxos(outputs, refs)[n] == u;
      if HoldsTokens(u.assets) {
        AllTokensSnoc(Carrying(before), u);
      } else {
        assert AddTokens(OutputTokens(outputs[..n]), TokensOf(outputs[n].assets)) == OutputTokens(outputs[..n]);
      }
    }
  }

  lemma {:induction false} OutputsAsUtxos(outputs: seq<Output>, refs: seq<string>)
    requires |refs| == |outputs|
    ensures var utxos := AsUtxos(outputs, refs);
            && (forall i | 0 <= i < |outputs| :: utxos[i] == Utxo(refs[i], outputs[i].coin, outputs[i].assets))
            && TotalLovelace(utxos) == TotalCoin(outputs)
            && |Carrying(utxos)| == |Holders(outputs)|
            && (forall i | 0 <= i < |Holders(outputs)| :: Carrying(utxos)[i].lovelace == Holders(outputs)[i].coin)
  {
    if outputs != [] {
      var n := |outputs| - 1;
      OutputsAsUtxos(outputs[..n], refs[..n]);
      var utxos := AsUtxos(outputs, refs);
      assert utxos[..n] == AsUtxos(outputs[..n], refs[..n]);
    }
  }

  lemma SameTokensAreEqual(x: Tokens, y: Tokens)
    requires SameTokens(x, y) && (forall a | a in x :: x[a] > 0) && (forall a | a in y :: y[a] > 0)
    ensures x == y
  {
    forall a | a in x ensures a in y && x[a] == y[a] { assert Quantity(x, a) == Quantity(y, a); }
    forall a | a in y ensures a in x { assert Quantity(x, a) == Quantity(y, a); }
  }

  lemma {:induction false} OutputTokensArePlain(outputs: seq<Output>)
    ensures Plain(OutputTokens(outputs))
  {
    if outputs != [] {
      OutputTokensArePlain(outputs[..|outputs| - 1]);
      TokensAreLower(outputs[|outputs| - 1].assets);
      AddKeepsPlain(OutputTokens(outputs[..|outputs| - 1]), TokensOf(outputs[|outputs| - 1].assets));
    }
  }

  /** What a plan of the planner's own looks like. */
  lemma PlanIsPlain(utxos: seq<Utxo>, o: TidyOptions, plan: TidyWork)
    requires PlanOf(utxos, o) == Work(plan)
    ensures plan.inputs == Refs(utxos) && plan.totalLovelace == TotalLovelace(utxos)
    ensures plan.tokens == AllTokens(AssetsOf(Carrying(utxos)))
    ensures plan.collateralLovelace == Or(o.collateralLovelace, DEFAULT_COLLATERAL)
    ensures COLLATERAL_FLOOR <= plan.collateralLovelace <= COLLATERAL_CEILING
            && Or(o.maxInputs, DEFAULT_MAX_INPUTS) >= 1
    ensures plan.totalLovelace >= plan.collateralLovelace + plan.tokenMinAda + TIDY_FEE_MAX + CHANGE_MIN
    ensures plan.tokenMinAda == if plan.tokens == map[] then 0 else o.minAda(plan.tokens)
  {
    TokensMeanCarriers(utxos);
  }

  lemma TokensMeanCarriers(utxos: seq<Utxo>)
    ensures Plain(AllTokens(AssetsOf(Carrying(utxos))))
    ensures Carrying(utxos) == [] <==> AllTokens(AssetsOf(Carrying(utxos))) == map[]
  {
    var carrying := Carrying(utxos);
    AllTokensArePlain(AssetsOf(carrying));
    if carrying != [] {
      assert AssetsOf(carrying)[|carrying| - 1] == carrying[|carrying| - 1].assets;
    }
  }

  lemma WantedIsAll(plan: TidyWork)
    requires Plain(plan.tokens)
    ensures Wanted(plan) == plan.tokens
  {
  }

  // ---- an accepted transaction keeps everything but the fee ------------------------------------------------

  /** The checks an accepted transaction has passed, one by one. */
  lemma Passed(tx: DecodedTx, plan: TidyWork, own: string)
    requires ProblemOf(tx, plan, own).None?
    ensures (set i | i in tx.inputs) == (set i | i in plan.inputs)
    ensures forall i | 0 <= i < |tx.outputs| :: tx.outputs[i].address == own
    ensures tx.fee <= TIDY_FEE_MAX && SameTokens(Wanted(plan), OutputTokens(tx.outputs))
    ensures |Holders(tx.outputs)| == if Wanted(plan) != map[] then 1 else 0
    ensures Holders(tx.outputs) != [] ==> Holders(tx.outputs)[0].coin <= plan.tokenMinAda + TOKEN_SLACK
    ensures HasCollateral(tx.outputs, plan.collateralLovelace)
    ensures TotalCoin(tx.outputs) + tx.fee == plan.totalLovelace
  {
  }

  /**
   * Of an accepted transaction every output is this wallet's, it spends exactly the wallet's UTxOs, and
   * its outputs hold every token and every lovelace they held, but the fee, which is at most the ceiling.
   */
  lemma AcceptedKeepsEverything(utxos: seq<Utxo>, o: TidyOptions, plan: TidyWork, tx: DecodedTx, own: string)
    requires PlanOf(utxos, o) == Work(plan) && ProblemOf(tx, plan, own).None?
    ensures forall i | 0 <= i < |tx.outputs| :: tx.outputs[i].address == own
    ensures (set i | i in tx.inputs) == (set i | i in Refs(utxos))
    ensures OutputTokens(tx.outputs) == AllTokens(AssetsOf(Carrying(utxos)))
    ensures TotalCoin(tx.outputs) + tx.fee == TotalLovelace(utxos) && tx.fee <= TIDY_FEE_MAX
  {
    PlanIsPlain(utxos, o, plan);
    TokensMeanCarriers(utxos);
    WantedIsAll(plan);
    Passed(tx, plan, own);
    OutputTokensArePlain(tx.outputs);
    SameTokensAreEqual(plan.tokens, OutputTokens(tx.outputs));
  }

  // ---- its outputs are tidy --------------------------------------------------------------------------------

  lemma {:induction false} LargestIsAtLeast(utxos: seq<Utxo>, i: nat)
    requires i < |utxos| && !HoldsTokens(utxos[i].assets)
    ensures LargestAdaOnly(utxos).Some? && LargestAdaOnly(utxos).value >= utxos[i].lovelace
  {
    if i < |utxos| - 1 { LargestIsAtLeast(utxos[..|utxos| - 1], i); }
  }

  /** The layout the planner is after: one token UTxO at most, not too heavy, and one ADA-only UTxO for collateral. */
  lemma TidyLayout(utxos: seq<Utxo>, o: TidyOptions, i: nat)
    requires COLLATERAL_FLOOR <= Or(o.collateralLovelace, DEFAULT_COLLATERAL) <= COLLATERAL_CEILING
             && Or(o.maxInputs, DEFAULT_MAX_INPUTS) >= 1
    requires i < |utxos| && !HoldsTokens(utxos[i].assets)
             && utxos[i].lovelace >= Or(o.collateralLovelace, DEFAULT_COLLATERAL)
    requires |Carrying(utxos)| <= 1
    requires |Carrying(utxos)| == 1
             ==> Carrying(utxos)[0].lovelace <= o.minAda(AllTokens(AssetsOf(Carrying(utxos)))) + TOKEN_SLACK
    ensures PlanOf(utxos, o) == AlreadyTidy
  {
    LargestIsAtLeast(utxos, i);
  }

  /** Planning again from the outputs of an accepted transaction, with the same options, finds nothing to do. */
  lemma OutputsAreTidy(utxos: seq<Utxo>, o: TidyOptions, plan: TidyWork, tx: DecodedTx, own: string, refs: seq<string>)
    requires PlanOf(utxos, o) == Work(plan) && ProblemOf(tx, plan, own).None? && |refs| == |tx.outputs|
    ensures PlanOf(AsUtxos(tx.outputs, refs), o) == AlreadyTidy
  {
    var after := AsUtxos(tx.outputs, refs);
    AcceptedKeepsEverything(utxos, o, plan, tx, own);
    PlanIsPlain(utxos, o, plan);
    TokensMeanCarriers(utxos);
    WantedIsAll(plan);
    Passed(tx, plan, own);
    OutputsAsUtxos(tx.outputs, refs);
    TokensAreCarried(tx.outputs, refs);
    var i :| 0 <= i < |tx.outputs| && !HoldsTokens(tx.outputs[i].assets)
      && tx.outputs[i].coin == plan.collateralLovelace;
    TidyLayout(after, o, i);
  }

  // ---- a tidy signerd starts by itself -----------------------------------------------------------------------

  function HeldWithTokens(outputs: seq<Output>): nat {
    TotalCoin(Holders(outputs))
  }

  lemma {:induction false} AdaOnlyIsTheRest(outputs: seq<Output>, refs: seq<string>)
    requires |refs| == |outputs|
    ensures AdaOnlyLovelace(AsUtxos(outputs, refs)) + HeldWithTokens(outputs) == TotalCoin(outputs)
  {
    if outputs != [] {
      var n := |outputs| - 1;
      AdaOnlyIsTheRest(outputs[..n], refs[..n]);
      var utxos := AsUtxos(outputs, refs);
      assert utxos[..n] == AsUtxos(outputs[..n], refs[..n]);
      if HoldsTokens(outputs[n].assets) {
        assert Holders(outputs)[..|Holders(outputs)| - 1] == Holders(outputs[..n]);
      }
    }
  }

  /**
   * When the decision is to tidy, an accepted transaction leaves strictly more lovelace in ADA-only
   * UTxOs than there was, less whatever the token output takes over its minimum; it takes no more
   * than the slack, and a token output at its minimum takes none.
   */
  lemma AutoTidyFreesAda(i: AutoTidyInput, o: TidyOptions, plan: TidyWork, tx: DecodedTx, own: string,
                         refs: seq<string>)
    requires AutoTidy(i).DoTidy? && i.plan == Work(plan) == PlanOf(i.utxos, o)
    requires ProblemOf(tx, plan, own).None? && |refs| == |tx.outputs|
    ensures var over := HeldWithTokens(tx.outputs) - plan.tokenMinAda;
            && over <= TOKEN_SLACK
            && AdaOnlyLovelace(AsUtxos(tx.outputs, refs)) > AdaOnlyLovelace(i.utxos) - over
            && (over <= 0 ==> AdaOnlyLovelace(AsUtxos(tx.outputs, refs)) > AdaOnlyLovelace(i.utxos))
  {
    PlanIsPlain(i.utxos, o, plan);
    AdaOnlyIsTheRest(tx.outputs, refs);
    HeldIsBounded(tx, plan, own);
    AutoTidyGains(i);
  }

  lemma AutoTidyGains(i: AutoTidyInput)
    requires AutoTidy(i).DoTidy?
    ensures i.plan.Work? && AdaOnlyLovelaceAfter(i.plan.work) > AdaOnlyLovelace(i.utxos)
  {
  }

  lemma HeldIsBounded(tx: DecodedTx, plan: TidyWork, own: string)
    requires ProblemOf(tx, plan, own).None?
    ensures HeldWithTokens(tx.outputs) <= plan.tokenMinAda + TOKEN_SLACK
    ensures TotalCoin(tx.outputs) + tx.fee == plan.totalLovelace && tx.fee <= TIDY_FEE_MAX
  {
    Passed(tx, plan, own);
    var holders := Holders(tx.outputs);
    if |holders| == 1 {
      assert holders[..0] == [] && holders[|holders| - 1] == holders[0];
      assert TotalCoin(holders) == TotalCoin(holders[..0]) + holders[0].coin;
    }
  }

  function CarriedLovelace(utxos: seq<Utxo>): nat {
    TotalLovelace(Carrying(utxos))
  }

  lemma {:induction false} AdaOnlyOrCarried(utxos: seq<Utxo>)
    ensures AdaOnlyLovelace(utxos) + CarriedLovelace(utxos) == TotalLovelace(utxos)
  {
    if utxos != [] {
      AdaOnlyOrCarried(utxos[..|utxos| - 1]);
      if HoldsTokens(utxos[|utxos| - 1].assets) {
        assert Carrying(utxos)[..|Carrying(utxos)| - 1] == Carrying(utxos[..|utxos| - 1]);
      }
    }
  }

  /** More lovelace in ADA-only UTxOs than before. */
  predicate Frees(utxos: seq<Utxo>, tx: DecodedTx, refs: seq<string>)
    requires |refs| == |tx.outputs|
  {
    AdaOnlyLovelace(AsUtxos(tx.outputs, refs)) > AdaOnlyLovelace(utxos)
  }

  /** An accepted transaction frees what the UTxOs with tokens held, less its fee and what its token output holds. */
  lemma FreedIs(utxos: seq<Utxo>, o: TidyOptions, plan: TidyWork, tx: DecodedTx, own: string, refs: seq<string>)
    requires PlanOf(utxos, o) == Work(plan) && ProblemOf(tx, plan, own).None? && |refs| == |tx.outputs|
    ensures Frees(utxos, tx, refs) <==> tx.fee + HeldWithTokens(tx.outputs) < CarriedLovelace(utxos)
    ensures tx.fee <= TIDY_FEE_MAX && HeldWithTokens(tx.outputs) <= plan.tokenMinAda + TOKEN_SLACK
  {
    PlanIsPlain(utxos, o, plan);
    AdaOnlyIsTheRest(tx.outputs, refs);
    HeldIsBounded(tx, plan, own);
    AdaOnlyOrCarried(utxos);
  }

  // ---- every plan can be carried out -----------------------------------------------------------------------

  /** A record that holds exactly these tokens. */
  lemma {:induction false} EntriesFor(tokens: Tokens) returns (assets: Assets)
    requires Plain(tokens)
    ensures AddTokens(map[], TokensOf(assets)) == tokens
    ensures tokens != map[] <==> HoldsTokens(assets)
    decreases |tokens|
  {
    if tokens == map[] {
      assets := [];
    } else {
      var a :| a in tokens;
      var rest := tokens - {a};
      var fewer := EntriesFor(rest);
      assets := fewer + [(a, tokens[a])];
      assert assets[..|fewer|] == fewer;
      var ts := TokensOf(assets);
      assert ts == TokensOf(fewer) + [(a, tokens[a])];
      assert ts[..|ts| - 1] == TokensOf(fewer);
      assert AddTokens(map[], ts) == AddToken(rest, (a, tokens[a]));
    }
  }

  /** The transaction the planner has in mind: the tokens with some ADA, the collateral, the change. */
  function Built(plan: TidyWork, own: string, assets: Assets, coin: nat, fee: nat, change: nat): DecodedTx {
    var plain := [Output(own, plan.collateralLovelace, []), Output(own, change, [])];
    DecodedTx(plan.inputs, if plan.tokens == map[] then plain else [Output(own, coin, assets)] + plain, fee, [], 0, 0)
  }

  predicate Distinct(refs: seq<string>) {
    forall i, j | 0 <= i < j < |refs| :: refs[i] != refs[j]
  }

  lemma {:induction false} DistinctCount(refs: seq<string>)
    requires Distinct(refs)
    ensures |set r | r in refs| == |refs|
  {
    if refs != [] {
      var before, last := refs[..|refs| - 1], refs[|refs| - 1];
      DistinctCount(before);
      assert last !in before;
      assert (set r | r in refs) == (set r | r in before) + {last};
    }
  }

  lemma PlainOutputsHoldNothing(outputs: seq<Output>, o: Output)
    requires o.assets == []
    ensures OutputTokens(outputs + [o]) == OutputTokens(outputs)
    ensures Holders(outputs + [o]) == Holders(outputs)
    ensures TotalCoin(outputs + [o]) == TotalCoin(outputs) + o.coin
  {
    assert (outputs + [o])[..|outputs|] == outputs;
  }

  lemma BuiltOutputs(plan: TidyWork, own: string, assets: Assets, coin: nat, fee: nat, change: nat)
    requires AddTokens(map[], TokensOf(assets)) == plan.tokens && (plan.tokens != map[] <==> HoldsTokens(assets))
    ensures var outputs := Built(plan, own, assets, coin, fee, change).outputs;
            && OutputTokens(outputs) == plan.tokens
            && Holders(outputs) == (if plan.tokens == map[] then [] else [Output(own, coin, assets)])
            && TotalCoin(outputs) == (if plan.tokens == map[] then 0 else coin) + plan.collateralLovelace + change
  {
    var first := if plan.tokens == map[] then [] else [Output(own, coin, assets)];
    if first != [] { assert first[..0] == []; }
    var collateral, rest := Output(own, plan.collateralLovelace, []), Output(own, change, []);
    PlainOutputsHoldNothing(first, collateral);
    PlainOutputsHoldNothing(first + [collateral], rest);
    assert Built(plan, own, assets, coin, fee, change).outputs == first + [collateral] + [rest];
  }

  /** A wallet's UTxOs are distinct, so every plan is one a transaction passes for, at any fee up to the ceiling. */
  lemma EveryPlanCanBeBuilt(utxos: seq<Utxo>, o: TidyOptions, plan: TidyWork, own: string, fee: nat)
    returns (tx: DecodedTx, change: nat)
    requires PlanOf(utxos, o) == Work(plan) && Distinct(Refs(utxos)) && fee <= TIDY_FEE_MAX
    ensures ProblemOf(tx, plan, own).None?
    ensures tx.fee == fee && change >= CHANGE_MIN && tx.outputs != []
    ensures tx.outputs[|tx.outputs| - 1] == Output(own, change, [])
  {
    PlanIsPlain(utxos, o, plan);
    TokensMeanCarriers(utxos);
    var assets := EntriesFor(plan.tokens);
    change := plan.totalLovelace - plan.tokenMinAda - plan.collateralLovelace - fee;
    tx := Built(plan, own, assets, plan.tokenMinAda, fee, change);
    BuiltPasses(plan, own, assets, plan.tokenMinAda, fee, change);
  }

  lemma BuiltPasses(plan: TidyWork, own: string, assets: Assets, coin: nat, fee: nat, change: nat)
    requires Plain(plan.tokens) && Distinct(plan.inputs) && fee <= TIDY_FEE_MAX
    requires AddTokens(map[], TokensOf(assets)) == plan.tokens && (plan.tokens != map[] <==> HoldsTokens(assets))
    requires coin <= plan.tokenMinAda + TOKEN_SLACK
    requires (if plan.tokens == map[] then 0 else coin) + plan.collateralLovelace + change + fee == plan.totalLovelace
    ensures ProblemOf(Built(plan, own, assets, coin, fee, change), plan, own).None?
  {
    var tx := Built(plan, own, assets, coin, fee, change);
    BuiltOutputs(plan, own, assets, coin, fee, change);
    DistinctCount(plan.inputs);
    WantedIsAll(plan);
    var at := |tx.outputs| - 2;
    assert tx.outputs[at] == Output(own, plan.collateralLovelace, []);
    assert HasCollateral(tx.outputs, plan.collateralLovelace);
  }

  // ---- when a tidy is sure to free ADA -----------------------------------------------------------------------

  /** The accepted transaction that frees least: the fee at its ceiling, the token output with all its slack. */
  lemma HeaviestPasses(utxos: seq<Utxo>, o: TidyOptions, plan: TidyWork, own: string) returns (tx: DecodedTx)
    requires PlanOf(utxos, o) == Work(plan) && Distinct(Refs(utxos))
    ensures ProblemOf(tx, plan, own).None? && tx.fee == TIDY_FEE_MAX
    ensures HeldWithTokens(tx.outputs) == if plan.tokens == map[] then 0 else plan.tokenMinAda + TOKEN_SLACK
  {
    PlanIsPlain(utxos, o, plan);
    TokensMeanCarriers(utxos);
    var assets := EntriesFor(plan.tokens);
    var coin := plan.tokenMinAda + TOKEN_SLACK;
    var change := plan.totalLovelace - (if plan.tokens == map[] then 0
                                        else coin) - plan.collateralLovelace - TIDY_FEE_MAX;
    tx := Built(plan, own, assets, coin, TIDY_FEE_MAX, change);
    BuiltPasses(plan, own, assets, coin, TIDY_FEE_MAX, change);
    BuiltOutputs(plan, own, assets, coin, TIDY_FEE_MAX, change);
    OneCoin(Output(own, coin, assets));
  }

  lemma OneCoin(o: Output)
    ensures TotalCoin([o]) == o.coin && TotalCoin([]) == 0
  {
    assert [o][..0] == [];
  }

  /** Every transaction the read-back accepts for this plan frees ADA. */
  ghost predicate SureToFree(utxos: seq<Utxo>, plan: TidyWork, own: string) {
    forall tx: DecodedTx, refs: seq<string> | ProblemOf(tx, plan, own).None?
    && |refs| == |tx.outputs| :: Frees(utxos, tx, refs)
  }

  /**
   * Whether a tidy is sure to free ADA, told from the listing and the plan before anything is built:
   * exactly when the UTxOs with tokens hold more than the token output's minimum, its slack and the
   * highest fee. A plan without tokens never is.
   */
  lemma FreesAdaExactlyWhen(utxos: seq<Utxo>, o: TidyOptions, plan: TidyWork, own: string)
    requires PlanOf(utxos, o) == Work(plan) && Distinct(Refs(utxos))
    ensures SureToFree(utxos, plan, own) <==> CarriedLovelace(utxos) > plan.tokenMinAda + TOKEN_SLACK + TIDY_FEE_MAX
  {
    var heaviest := HeaviestPasses(utxos, o, plan, own);
    var refs := seq(|heaviest.outputs|, _ => "");
    FreedIs(utxos, o, plan, heaviest, own, refs);
    PlanIsPlain(utxos, o, plan);
    TokensMeanCarriers(utxos);
    if SureToFree(utxos, plan, own) { assert Frees(utxos, heaviest, refs); }
    forall tx: DecodedTx, more: seq<string> |
        ProblemOf(tx, plan, own).None? && |more| == |tx.outputs|
        && CarriedLovelace(utxos) > plan.tokenMinAda + TOKEN_SLACK + TIDY_FEE_MAX
      ensures Frees(utxos, tx, more)
    {
      FreedIs(utxos, o, plan, tx, own, more);
    }
  }

  /** The automatic decision asks for less: it counts the token output at its minimum, without the slack. */
  lemma AutoTidyAsks(i: AutoTidyInput, o: TidyOptions, plan: TidyWork)
    requires AutoTidy(i).DoTidy? && i.plan == Work(plan) == PlanOf(i.utxos, o)
    ensures CarriedLovelace(i.utxos) > plan.tokenMinAda + TIDY_FEE_MAX
  {
    PlanIsPlain(i.utxos, o, plan);
    AdaOnlyOrCarried(i.utxos);
    AutoTidyGains(i);
  }

  /** What is in between, it starts though nothing may come of it: a transaction it would accept frees no ADA. */
  lemma AutoTidyFallsShort(i: AutoTidyInput, o: TidyOptions, plan: TidyWork, own: string) returns (tx: DecodedTx,
          refs: seq<string>)
    requires AutoTidy(i).DoTidy? && i.plan == Work(plan) == PlanOf(i.utxos, o) && Distinct(Refs(i.utxos))
    requires CarriedLovelace(i.utxos) <= plan.tokenMinAda + TOKEN_SLACK + TIDY_FEE_MAX
    ensures ProblemOf(tx, plan, own).None? && |refs| == |tx.outputs| && !Frees(i.utxos, tx, refs)
  {
    tx := HeaviestPasses(i.utxos, o, plan, own);
    refs := seq(|tx.outputs|, _ => "");
    FreedIs(i.utxos, o, plan, tx, own, refs);
    PlanIsPlain(i.utxos, o, plan);
    TokensMeanCarriers(i.utxos);
  }

  lemma OneMoreUtxo(utxos: seq<Utxo>, u: Utxo)
    ensures TotalLovelace(utxos + [u]) == TotalLovelace(utxos) + u.lovelace
    ensures Carrying(utxos + [u]) == if HoldsTokens(u.assets) then Carrying(utxos) + [u] else Carrying(utxos)
  {
    assert (utxos + [u])[..|utxos|] == utxos;
  }

  /** A wallet it does that for: two UTxOs with tokens, 3.5 ADA between them, where one needs 1.5. */
  lemma AutoTidyCanFallShort(own: string)
    returns (i: AutoTidyInput, o: TidyOptions, plan: TidyWork, tx: DecodedTx, refs: seq<string>)
    ensures AutoTidy(i).DoTidy? && i.plan == Work(plan) == PlanOf(i.utxos, o) && Distinct(Refs(i.utxos))
    ensures ProblemOf(tx, plan, own).None? && |refs| == |tx.outputs| && !Frees(i.utxos, tx, refs)
  {
    o := TidyOptions(None, None, _ => 1_500_000);
    var utxos := SmallWallet(o);
    plan := PlanOf(utxos, o).work;
    i := AutoTidyInput(true, false, 0, None, 0, None, Work(plan), utxos);
    AdaOnlyOrCarried(utxos);
    tx, refs := AutoTidyFallsShort(i, o, plan, own);
  }

  lemma SmallWallet(o: TidyOptions) returns (utxos: seq<Utxo>)
    requires o.collateralLovelace.None? && o.maxInputs.None? && forall ts: Tokens :: o.minAda(ts) == 1_500_000
    ensures PlanOf(utxos, o).Work? && PlanOf(utxos, o).work.tokenMinAda == 1_500_000
    ensures PlanOf(utxos, o).work.totalLovelace == TotalLovelace(utxos) == 13_500_000
    ensures CarriedLovelace(utxos) == 3_500_000 && Distinct(Refs(utxos))
  {
    var tokens: Assets := [("t", 1)];
    OneToken(tokens);
    utxos := ThreeUtxos(Utxo("a", 2_500_000, tokens), Utxo("b", 1_000_000, tokens), Utxo("c", 10_000_000, []));
    PlannedFor(utxos, o);
  }

  lemma OneToken(assets: Assets)
    requires |assets| == 1 && assets[0].1 > 0
    ensures HoldsTokens(assets)
  {
  }

  lemma ThreeUtxos(a: Utxo, b: Utxo, c: Utxo) returns (utxos: seq<Utxo>)
    requires HoldsTokens(a.assets) && HoldsTokens(b.assets) && !HoldsTokens(c.assets)
    requires a.ref != b.ref && b.ref != c.ref && a.ref != c.ref
    ensures |utxos| == 3 && Distinct(Refs(utxos)) && TotalLovelace(utxos) == a.lovelace + b.lovelace + c.lovelace
    ensures |Carrying(utxos)| == 2 && CarriedLovelace(utxos) == a.lovelace + b.lovelace
  {
    OneMoreUtxo([], a);
    OneMoreUtxo([a], b);
    OneMoreUtxo([a] + [b], c);
    utxos := [a] + [b] + [c];
    assert [] + [a] == [a];
    assert utxos[0] == a && utxos[1] == b && utxos[2] == c;
  }

  lemma PlannedFor(utxos: seq<Utxo>, o: TidyOptions)
    requires o.collateralLovelace.None? && o.maxInputs.None? && forall ts: Tokens :: o.minAda(ts) == 1_500_000
    requires |utxos| == 3 && |Carrying(utxos)| == 2 && TotalLovelace(utxos) == 13_500_000
    ensures PlanOf(utxos, o).Work? && PlanOf(utxos, o).work.tokenMinAda == 1_500_000
    ensures PlanOf(utxos, o).work.totalLovelace == TotalLovelace(utxos)
  {
  }
}
