/** Where the money in a channel step goes: `summaryProblem` of channelTx.ts. */
module ChannelTx {
  import opened Wrappers

  const FEE_MAX: nat := 2_000_000
  const COLLATERAL_MAX: nat := 5_000_000

  datatype ChannelStep = Open | TopUp | Refund | Close | End | Elapse

  datatype TxOutput = TxOutput(address: string, lovelace: nat, tokens: bool, atValidator: bool)

  datatype Collateral = Collateral(inputs: seq<string>, total: Option<nat>, returnTo: Option<string>)

  datatype TxSummary = TxSummary(fee: nat, inputs: seq<string>, outputs: seq<TxOutput>, collateral: Option<Collateral>,
                                 extras: bool)

  datatype Sponsor = Sponsor(input: string, lovelace: nat)

  datatype Expected = Expected(
    wallet: string,
    payTo: Option<string>,
    maxPayout: Option<nat>,
    sponsor: Option<Sponsor>,
    channelLovelace: Option<nat>)

  datatype Problem =
    | Extras | FeeTooHigh | NeverSponsored | CollateralOnOpen | CollateralUnstated | CollateralTooHigh
    | CollateralNotTheOffer | CollateralReturnElsewhere | NoCollateral | OfferSpent | OfferNotSpent
    | ValidatorOutputs(found: nat) | TokensToSeller | Strangers(addresses: set<string>) | WalletWouldPay | PayoutTooHigh

  function Or(o: Option<nat>, default: nat): nat {
    if o.Some? then o.value else default
  }

  function AtValidator(outputs: seq<TxOutput>): (n: nat)
  {
    if outputs == [] then 0
    else AtValidator(outputs[..|outputs| - 1]) + (if outputs[|outputs| - 1].atValidator then 1 else 0)
  }

  function Kept(outputs: seq<TxOutput>): nat {
    if outputs == [] then 0
    else Kept(outputs[..|outputs| - 1])
         + (if outputs[|outputs| - 1].atValidator then outputs[|outputs| - 1].lovelace else 0)
  }

  predicate KeepsChannel(step: ChannelStep) {
    step.Open? || step.TopUp? || step.Close?
  }

  /** What is wrong before any output is looked at on its own. */
  function ShapeProblem(step: ChannelStep, s: TxSummary, want: Expected): Option<Problem> {
    var sp := want.sponsor;
    if s.extras then Some(Extras)
    else if s.fee > FEE_MAX then Some(FeeTooHigh)
    else if sp.Some? && !step.Open? && !step.TopUp? && !step.Refund? then Some(NeverSponsored)
    else if s.collateral.Some? && step.Open? then Some(CollateralOnOpen)
    else if s.collateral.Some? && s.collateral.value.total.None? then Some(CollateralUnstated)
    else if s.collateral.Some? && s.collateral.value.total.value > COLLATERAL_MAX then Some(CollateralTooHigh)
    else if s.collateral.Some? && sp.Some?
    && s.collateral.value.inputs != [sp.value.input] then Some(CollateralNotTheOffer)
    else if s.collateral.Some? && sp.None? && s.collateral.value.returnTo.Some?
    && s.collateral.value.returnTo.value != want.wallet then Some(CollateralReturnElsewhere)
    else if s.collateral.None? && sp.Some? && step.Refund? then Some(NoCollateral)
    else if sp.Some? && step.Refund? && sp.value.input in s.inputs then Some(OfferSpent)
    else if sp.Some? && !step.Refund? && sp.value.input !in s.inputs then Some(OfferNotSpent)
    else if KeepsChannel(step) && AtValidator(s.outputs) != 1 then Some(ValidatorOutputs(AtValidator(s.outputs)))
    else if !KeepsChannel(step) && AtValidator(s.outputs) != 0 then Some(ValidatorOutputs(AtValidator(s.outputs)))
    else None
  }

  /** An output that is neither the channel's nor this wallet's. */
  predicate GoesElsewhere(o: TxOutput, want: Expected) {
    !o.atValidator && o.address != want.wallet
  }

  predicate MayGoToSeller(step: ChannelStep, o: TxOutput, want: Expected) {
    (step.Refund? || want.sponsor.Some?) && want.payTo == Some(o.address)
  }

  /** The pass over the outputs: what the seller is paid and who else is, or an output it must not be paid. */
  datatype Walk = Stopped | Walked(paid: nat, strangers: set<string>)

  function WalkOutput(step: ChannelStep, want: Expected, w: Walk, o: TxOutput): Walk {
    if w.Stopped? || !GoesElsewhere(o, want) then w
    else if !MayGoToSeller(step, o, want) then w.(strangers := w.strangers + {o.address})
    else if o.tokens then Stopped
    else w.(paid := w.paid + o.lovelace)
  }

  function WalkOf(step: ChannelStep, want: Expected, outputs: seq<TxOutput>): Walk {
    if outputs == [] then Walked(0, {})
    else WalkOutput(step, want, WalkOf(step, want, outputs[..|outputs| - 1]), outputs[|outputs| - 1])
  }

  /** What the offer, when the step spends it, and the channel bring. */
  function Brought(step: ChannelStep, want: Expected): nat
    requires want.sponsor.Some?
  {
    (if step.Refund? then 0 else want.sponsor.value.lovelace) + Or(want.channelLovelace, 0)
  }

  function ProblemOf(step: ChannelStep, s: TxSummary, want: Expected): Option<Problem> {
    var w := WalkOf(step, want, s.outputs);
    if ShapeProblem(step, s, want).Some? then ShapeProblem(step, s, want)
    else if w.Stopped? then Some(TokensToSeller)
    else if w.strangers != {} then Some(Strangers(w.strangers))
    else if want.sponsor.Some? then
      if Kept(s.outputs) + w.paid + s.fee > Brought(step, want) then Some(WalletWouldPay) else None
    else if w.paid > Or(want.maxPayout, 0) then Some(PayoutTooHigh)
    else None
  }

  lemma {:induction false} StoppedStays(step: ChannelStep, want: Expected, outputs: seq<TxOutput>, n: nat)
    requires n <= |outputs| && WalkOf(step, want, outputs[..n]).Stopped?
    ensures WalkOf(step, want, outputs).Stopped?
    decreases |outputs|
  {
    if n < |outputs| {
      assert outputs[..|outputs| - 1][..n] == outputs[..n];
      StoppedStays(step, want, outputs[..|outputs| - 1], n);
    } else {
      assert outputs[..n] == outputs;
    }
  }

  /**
   * `summaryProblem`: the loop over the outputs updates what is paid and to whom, and stops at the
   * first token for the seller.
   */
  method SummaryProblem(step: ChannelStep, s: TxSummary, want: Expected) returns (problem: Option<Problem>)
    ensures problem == ProblemOf(step, s, want)
  {
    problem := ShapeProblem(step, s, want);
    if problem.Some? { return; }
    var paid: nat, strangers: set<string> := 0, {};
    var n := 0;
    while n < |s.outputs|
      invariant n <= |s.outputs|
      invariant WalkOf(step, want, s.outputs[..n]) == Walked(paid, strangers)
    {
      var o := s.outputs[n];
      assert s.outputs[..n + 1][..n] == s.outputs[..n];
      if GoesElsewhere(o, want) {
        if MayGoToSeller(step, o, want) {
          if o.tokens {
            StoppedStays(step, want, s.outputs, n + 1);
            return Some(TokensToSeller);
          }
          paid := paid + o.lovelace;
        } else {
          strangers := strangers + {o.address};
        }
      }
      n := n + 1;
    }
    assert s.outputs[..n] == s.outputs;
    if strangers != {} { return Some(Strangers(strangers)); }
    if want.sponsor.Some? {
      problem := if Kept(s.outputs) + paid + s.fee > Brought(step, want) then Some(WalletWouldPay) else None;
    } else {
      problem := if paid > Or(want.maxPayout, 0) then Some(PayoutTooHigh) else None;
    }
  }

  // ---- what the wallet gets back -----------------------------------------------------------------------

  function Total(outputs: seq<TxOutput>): nat {
    if outputs == [] then 0 else Total(outputs[..|outputs| - 1]) + outputs[|outputs| - 1].lovelace
  }

  function Returned(outputs: seq<TxOutput>, wallet: string): nat {
    if outputs == [] then 0
    else
      var o := outputs[|outputs| - 1];
      Returned(outputs[..|outputs| - 1], wallet) + (if !o.atValidator && o.address == wallet then o.lovelace else 0)
  }

  lemma {:induction false} NoStrangersBefore(step: ChannelStep, want: Expected, outputs: seq<TxOutput>)
    requires outputs != [] && WalkOf(step, want, outputs).Walked? && WalkOf(step, want, outputs).strangers == {}
    ensures WalkOf(step, want, outputs[..|outputs| - 1]).Walked?
            && WalkOf(step, want, outputs[..|outputs| - 1]).strangers == {}
  {
    var w, o := WalkOf(step, want, outputs[..|outputs| - 1]), outputs[|outputs| - 1];
    assert w.Walked? ==> o.address in w.strangers + {o.address};
    assert w.Walked? ==> w.strangers <= WalkOf(step, want, outputs).strangers;
  }

  /** With no strangers, every lovelace is the channel's, the wallet's or the seller's. */
  lemma {:induction false} EveryOutputIsCounted(step: ChannelStep, want: Expected, outputs: seq<TxOutput>)
    requires WalkOf(step, want, outputs).Walked? && WalkOf(step, want, outputs).strangers == {}
    ensures Total(outputs) == Kept(outputs) + Returned(outputs, want.wallet) + WalkOf(step, want, outputs).paid
  {
    if outputs != [] {
      NoStrangersBefore(step, want, outputs);
      EveryOutputIsCounted(step, want, outputs[..|outputs| - 1]);
      var o := outputs[|outputs| - 1];
      assert o.address in {o.address};
    }
  }

  /**
   * What a step's inputs bring: this wallet's own UTxOs, the channel where the step spends it, and the
   * offer unless the step is a refund, which only puts it up.
   */
  predicate Conserves(s: TxSummary, own: nat, channel: nat, offer: nat) {
    own + channel + offer == Total(s.outputs) + s.fee
  }

  /** A sponsored step that passes costs this wallet nothing: its ADA comes back whole. */
  lemma SponsoredPassesThrough(step: ChannelStep, s: TxSummary, want: Expected, own: nat)
    requires ProblemOf(step, s, want).None? && want.sponsor.Some?
    requires Conserves(s, own, Or(want.channelLovelace, 0), if step.Refund? then 0 else want.sponsor.value.lovelace)
    ensures Returned(s.outputs, want.wallet) >= own
    ensures Returned(s.outputs, want.wallet) - own
         == Brought(step, want) - Kept(s.outputs) - WalkOf(step, want, s.outputs).paid - s.fee
  {
    EveryOutputIsCounted(step, want, s.outputs);
  }

  /** An unsponsored one costs at most the fee, what the channel grew by, and what a refund may pay the seller. */
  lemma UnsponsoredLossIsBounded(step: ChannelStep, s: TxSummary, want: Expected, own: nat, channel: nat)
    requires ProblemOf(step, s, want).None? && want.sponsor.None?
    requires Conserves(s, own, channel, 0)
    ensures own - Returned(s.outputs, want.wallet) <= s.fee + (Kept(s.outputs) - channel) + Or(want.maxPayout, 0)
    ensures s.fee <= FEE_MAX
    ensures !step.Refund? ==> own - Returned(s.outputs, want.wallet) == s.fee + (Kept(s.outputs) - channel)
  {
    EveryOutputIsCounted(step, want, s.outputs);
    if !step.Refund? { OnlyRefundsPay(step, want, s.outputs); }
  }

  lemma {:induction false} OnlyRefundsPay(step: ChannelStep, want: Expected, outputs: seq<TxOutput>)
    requires !step.Refund? && want.sponsor.None? && WalkOf(step, want, outputs).Walked?
    ensures WalkOf(step, want, outputs).paid == 0
  {
    if outputs != [] { OnlyRefundsPay(step, want, outputs[..|outputs| - 1]); }
  }

  // ---- what is accepted --------------------------------------------------------------------------------------

  /**
   * Collateral: the seller's offer alone on a sponsored refund, and otherwise little and coming
   * back; none on an opening.
   */
  predicate CollateralFine(step: ChannelStep, s: TxSummary, want: Expected) {
    if s.collateral.None? then !(want.sponsor.Some? && step.Refund?)
    else
      var c := s.collateral.value;
      && !step.Open? && c.total.Some? && c.total.value <= 5_000_000
      && (want.sponsor.Some? ==> |c.inputs| == 1 && c.inputs[0] == want.sponsor.value.input)
      && (want.sponsor.None? && c.returnTo.Some? ==> c.returnTo.value == want.wallet)
  }

  /** A sponsored opening or top-up spends the offer, a sponsored refund does not, and nothing else is sponsored. */
  predicate OfferFine(step: ChannelStep, s: TxSummary, want: Expected) {
    want.sponsor.Some? ==>
      && (step.Open? || step.TopUp? || step.Refund?)
      && ((exists i :: 0 <= i < |s.inputs| && s.inputs[i] == want.sponsor.value.input) <==> !step.Refund?)
  }

  /** One output at the validator when the step keeps the channel, and none when it does not. */
  predicate ChannelFine(step: ChannelStep, s: TxSummary) {
    if step.Open? || step.TopUp? || step.Close?
    then
      exists i :: 0 <= i < |s.outputs| && s.outputs[i].atValidator
                  && forall j | 0 <= j < |s.outputs| && j != i :: !s.outputs[j].atValidator
    else forall i | 0 <= i < |s.outputs| :: !s.outputs[i].atValidator
  }

  /**
   * Whatever is neither the channel's nor this wallet's goes to the seller, in ADA, on a refund or
   * where it sponsors.
   */
  predicate OutputFine(step: ChannelStep, want: Expected, o: TxOutput) {
    || o.atValidator || o.address == want.wallet
    || ((step.Refund? || want.sponsor.Some?) && want.payTo.Some? && o.address == want.payTo.value && !o.tokens)
  }

  function ToSeller(want: Expected, outputs: seq<TxOutput>): nat {
    if outputs == [] then 0
    else
      var o := outputs[|outputs| - 1];
      ToSeller(want, outputs[..|outputs| - 1])
      + if !o.atValidator && o.address != want.wallet && want.payTo == Some(o.address) then o.lovelace else 0
  }

  predicate AmountsFine(step: ChannelStep, s: TxSummary, want: Expected) {
    var paid := ToSeller(want, s.outputs);
    if want.sponsor.Some? then
      Kept(s.outputs) + paid + s.fee
      <= (if step.Refund? then 0 else want.sponsor.value.lovelace)
          + (if want.channelLovelace.Some? then want.channelLovelace.value else 0)
    else step.Refund? ==> paid <= (if want.maxPayout.Some? then want.maxPayout.value else 0)
  }

  lemma {:induction false} CountAtValidator(outputs: seq<TxOutput>)
    ensures AtValidator(outputs) == 0 <==> forall i | 0 <= i < |outputs| :: !outputs[i].atValidator
    ensures AtValidator(outputs) == 1
       <==> exists i :: 0 <= i < |outputs| && outputs[i].atValidator
                        && forall j | 0 <= j < |outputs| && j != i :: !outputs[j].atValidator
  {
    if outputs != [] {
      var n := |outputs| - 1;
      var before := outputs[..n];
      CountAtValidator(before);
      assert forall i | 0 <= i < n :: before[i] == outputs[i];
      if outputs[n].atValidator {
        if AtValidator(before) == 0 {
          assert outputs[n].atValidator && forall j | 0 <= j < |outputs| && j != n :: !outputs[j].atValidator;
        }
      } else if i :| 0 <= i < n && before[i].atValidator && forall j | 0 <= j < n && j != i :: !before[j].atValidator {
        assert outputs[i].atValidator && forall j | 0 <= j < |outputs| && j != i :: !outputs[j].atValidator;
      }
    }
  }

  lemma {:induction false} WalkIs(step: ChannelStep, want: Expected, outputs: seq<TxOutput>)
    ensures var w := WalkOf(step, want, outputs);
            && (w.Walked? && w.strangers == {} <==> forall i | 0 <= i < |outputs| :: OutputFine(step, want, outputs[i]))
            && (w.Walked? && w.strangers == {} ==> w.paid == ToSeller(want, outputs))
  {
    if outputs != [] {
      var n := |outputs| - 1;
      WalkIs(step, want, outputs[..n]);
      assert forall i | 0 <= i < n :: outputs[..n][i] == outputs[i];
    }
  }

  lemma CollateralTested(step: ChannelStep, s: TxSummary, want: Expected)
    ensures CollateralFine(step, s, want)
       <==> && !(s.collateral.Some? && step.Open?)
            && !(s.collateral.Some? && s.collateral.value.total.None?)
            && !(s.collateral.Some? && s.collateral.value.total.value > COLLATERAL_MAX)
            && !(s.collateral.Some? && want.sponsor.Some? && s.collateral.value.inputs != [want.sponsor.value.input])
            && !(s.collateral.Some? && want.sponsor.None? && s.collateral.value.returnTo.Some?
                 && s.collateral.value.returnTo.value != want.wallet)
            && !(s.collateral.None? && want.sponsor.Some? && step.Refund?)
  {
    if s.collateral.Some? {
      assert |s.collateral.value.inputs| == 1 ==> s.collateral.value.inputs == [s.collateral.value.inputs[0]];
    }
  }

  lemma OfferTested(step: ChannelStep, s: TxSummary, want: Expected)
    ensures OfferFine(step, s, want)
       <==> && !(want.sponsor.Some? && !step.Open? && !step.TopUp? && !step.Refund?)
            && !(want.sponsor.Some? && step.Refund? && want.sponsor.value.input in s.inputs)
            && !(want.sponsor.Some? && !step.Refund? && want.sponsor.value.input !in s.inputs)
  {
  }

  lemma ChannelTested(step: ChannelStep, s: TxSummary)
    ensures ChannelFine(step, s) <==> AtValidator(s.outputs) == if KeepsChannel(step) then 1 else 0
  {
    CountAtValidator(s.outputs);
  }

  lemma ShapeIs(step: ChannelStep, s: TxSummary, want: Expected)
    ensures ShapeProblem(step, s, want).None?
       <==> && !s.extras && s.fee <= 2_000_000
            && CollateralFine(step, s, want) && OfferFine(step, s, want) && ChannelFine(step, s)
  {
    CollateralTested(step, s, want);
    OfferTested(step, s, want);
    ChannelTested(step, s);
  }

  lemma AmountsAre(step: ChannelStep, s: TxSummary, want: Expected)
    requires forall i | 0 <= i < |s.outputs| :: OutputFine(step, want, s.outputs[i])
    ensures AmountsFine(step, s, want)
       <==> if want.sponsor.Some? then Kept(s.outputs) + ToSeller(want, s.outputs) + s.fee <= Brought(step, want)
            else ToSeller(want, s.outputs) <= Or(want.maxPayout, 0)
  {
    if want.sponsor.None? && !step.Refund? { NothingToSeller(step, want, s.outputs); }
  }

  /**
   * A step is signed exactly when it is plain, cheap, and its collateral, offer, channel, payees
   * and amounts are what they should be.
   */
  lemma SignedExactly(step: ChannelStep, s: TxSummary, want: Expected)
    ensures ProblemOf(step, s, want).None?
       <==> && !s.extras && s.fee <= 2_000_000
            && CollateralFine(step, s, want) && OfferFine(step, s, want) && ChannelFine(step, s)
            && (forall i | 0 <= i < |s.outputs| :: OutputFine(step, want, s.outputs[i]))
            && AmountsFine(step, s, want)
  {
    ShapeIs(step, s, want);
    WalkIs(step, want, s.outputs);
    if forall i | 0 <= i < |s.outputs| :: OutputFine(step, want, s.outputs[i]) { AmountsAre(step, s, want); }
  }

  lemma {:induction false} NothingToSeller(step: ChannelStep, want: Expected, outputs: seq<TxOutput>)
    requires want.sponsor.None? && !step.Refund? && forall i | 0 <= i < |outputs| :: OutputFine(step, want, outputs[i])
    ensures ToSeller(want, outputs) == 0
  {
    if outputs != [] {
      assert OutputFine(step, want, outputs[|outputs| - 1]);
      NothingToSeller(step, want, outputs[..|outputs| - 1]);
    }
  }
}
