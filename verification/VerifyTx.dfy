/**
 * Reading back what was signed: verifyTx.ts. The lovelace a transaction's inputs held is given beside
 * it, since the ledger's conservation rule is what ties it to the outputs and the fee.
 */
module VerifyTx {
  import opened Policy
  import opened Text
  import opened Wrappers

  datatype Output = Output(address: string, coin: nat, assets: map<string, nat>)

  datatype SignedTransaction = SignedTransaction(
    inputs: seq<string>,
    outputs: seq<Output>,
    fee: nat,
    balanceChangingOperations: seq<string>)

  datatype Authorised = Authorised(
    payTo: string,
    asset: string,
    amount: nat,
    changeTo: string,
    nonce: string,
    maxFeeLovelace: nat,
    maxRideLovelace: nat)

  datatype Mismatch = WrongNonce | BalanceChanging | FeeTooHigh | Underpaid | RideTooHigh | Strangers

  function CoinTo(outputs: seq<Output>, address: string): nat {
    if outputs == [] then 0
    else (if outputs[0].address == address then outputs[0].coin else 0) + CoinTo(outputs[1..], address)
  }

  function Held(o: Output, key: string): nat {
    if key == LOVELACE then o.coin else if key in o.assets then o.assets[key] else 0
  }

  function PaidTo(outputs: seq<Output>, address: string, key: string): nat {
    if outputs == [] then 0
    else (if outputs[0].address == address then Held(outputs[0], key) else 0) + PaidTo(outputs[1..], address, key)
  }

  function PayeeLovelace(tx: SignedTransaction, payTo: string): nat {
    CoinTo(tx.outputs, payTo)
  }

  predicate PaysLovelace(want: Authorised) {
    ToLower(want.asset) == LOVELACE
  }

  function RideOf(tx: SignedTransaction, want: Authorised): nat {
    if want.payTo == want.changeTo then 0
    else
      var authorised := if PaysLovelace(want) then want.amount else 0;
      var ride := PayeeLovelace(tx, want.payTo) - authorised;
      if ride > 0 then ride else 0
  }

  function OverheadOf(tx: SignedTransaction, want: Authorised): nat {
    tx.fee + RideOf(tx, want)
  }

  predicate PaysStrangers(tx: SignedTransaction, want: Authorised) {
    exists i | 0 <= i < |tx.outputs| :: tx.outputs[i].address != want.payTo && tx.outputs[i].address != want.changeTo
  }

  function MismatchOf(tx: SignedTransaction, want: Authorised): Option<Mismatch> {
    if want.nonce !in tx.inputs then Some(WrongNonce)
    else if tx.balanceChangingOperations != [] then Some(BalanceChanging)
    else if tx.fee > want.maxFeeLovelace then Some(FeeTooHigh)
    else if PaidTo(tx.outputs, want.payTo, ToLower(want.asset)) < want.amount then Some(Underpaid)
    else if RideOf(tx, want) > want.maxRideLovelace then Some(RideTooHigh)
    else if PaysStrangers(tx, want) then Some(Strangers)
    else None
  }

  // ---- what leaves the wallet --------------------------------------------------------------------------

  function TotalCoin(outputs: seq<Output>): nat {
    if outputs == [] then 0 else outputs[0].coin + TotalCoin(outputs[1..])
  }

  /** The ledger's rule, for a transaction that spends only this wallet's inputs. */
  predicate Conserves(tx: SignedTransaction, held: nat) {
    held == TotalCoin(tx.outputs) + tx.fee
  }

  /** The lovelace the wallet held in the inputs and does not hold in the outputs. */
  function Leaves(tx: SignedTransaction, held: nat, own: string): int {
    held - CoinTo(tx.outputs, own)
  }

  lemma {:induction false} NothingElsewhere(outputs: seq<Output>, payTo: string, changeTo: string)
    requires forall i | 0 <= i < |outputs| :: outputs[i].address == payTo || outputs[i].address == changeTo
    ensures TotalCoin(outputs) == CoinTo(outputs, changeTo) + if payTo == changeTo then 0 else CoinTo(outputs, payTo)
  {
    if outputs != [] { NothingElsewhere(outputs[1..], payTo, changeTo); }
  }

  lemma {:induction false} PaidInLovelace(outputs: seq<Output>, address: string)
    ensures PaidTo(outputs, address, LOVELACE) == CoinTo(outputs, address)
  {
    if outputs != [] { PaidInLovelace(outputs[1..], address); }
  }

  /**
   * What is judged and recorded is what leaves. For a payment to someone else, the ADA that leaves the
   * wallet is exactly the overhead, and for a payment in lovelace the amount besides. A payment to the
   * wallet itself costs its fee, which the record only over-counts.
   */
  lemma AccountingIsExact(tx: SignedTransaction, want: Authorised, held: nat)
    requires MismatchOf(tx, want).None? && Conserves(tx, held)
    ensures want.payTo != want.changeTo ==>
              Leaves(tx, held, want.changeTo) == OverheadOf(tx, want) + (if PaysLovelace(want) then want.amount else 0)
    ensures want.payTo == want.changeTo ==> Leaves(tx, held, want.changeTo) == tx.fee == OverheadOf(tx, want)
    ensures 0 <= Leaves(tx, held, want.changeTo)
         <= want.maxFeeLovelace + want.maxRideLovelace + (if PaysLovelace(want) then want.amount else 0)
  {
    NothingElsewhere(tx.outputs, want.payTo, want.changeTo);
    PaidInLovelace(tx.outputs, want.payTo);
  }

  /** Tokens are bounded from below only: a transaction that hands the payee any more of them is accepted too. */
  lemma TokensMayBeOverpaid(want: Authorised, extra: nat) returns (tx: SignedTransaction)
    requires !PaysLovelace(want)
    ensures MismatchOf(tx, want).None?
    ensures PaidTo(tx.outputs, want.payTo, ToLower(want.asset)) == want.amount + extra
  {
    var key := ToLower(want.asset);
    var output := Output(want.payTo, 0, map[key := want.amount + extra]);
    var outputs := [output];
    tx := SignedTransaction([want.nonce], outputs, 0, []);
    assert outputs[0] == output && outputs[1..] == [];
    assert CoinTo(outputs[1..], want.payTo) == 0 && PaidTo(outputs[1..], want.payTo, key) == 0;
    assert CoinTo(outputs, want.payTo) == 0;
    assert Held(output, key) == want.amount + extra;
  }

  // ---- what is accepted --------------------------------------------------------------------------------------

  /** An output more is counted when it is at the address: its lovelace, or its quantity of the token. */
  lemma {:induction false} PaidMore(outputs: seq<Output>, o: Output, address: string, key: string)
    ensures PaidTo(outputs + [o], address, key) == PaidTo(outputs, address, key)
         + if o.address != address then 0
           else if key == "lovelace" then o.coin
           else if key in o.assets then o.assets[key] else 0
    ensures PaidTo([], address, key) == 0
  {
    if outputs == [] {
      assert [] + [o] == [o] && [o][1..] == [];
    } else {
      assert (outputs + [o])[1..] == outputs[1..] + [o];
      PaidMore(outputs[1..], o, address, key);
    }
  }

  /** One thing wrong with a transaction. */
  predicate Wrong(tx: SignedTransaction, want: Authorised, m: Mismatch) {
    match m
    case WrongNonce => forall i | 0 <= i < |tx.inputs| :: tx.inputs[i] != want.nonce
    case BalanceChanging => tx.balanceChangingOperations != []
    case FeeTooHigh => tx.fee > want.maxFeeLovelace
    case Underpaid => PaidTo(tx.outputs, want.payTo, ToLower(want.asset)) < want.amount
    case RideTooHigh =>
      && want.payTo != want.changeTo
      && PaidTo(tx.outputs, want.payTo, "lovelace") > want.maxRideLovelace
          + (if ToLower(want.asset) == "lovelace" then want.amount else 0)
    case Strangers =>
      exists i :: 0 <= i < |tx.outputs| && tx.outputs[i].address != want.payTo && tx.outputs[i].address != want.changeTo
  }

  function Order(m: Mismatch): nat {
    match m
    case WrongNonce => 0
    case BalanceChanging => 1
    case FeeTooHigh => 2
    case Underpaid => 3
    case RideTooHigh => 4
    case Strangers => 5
  }

  /**
   * A transaction is handed over exactly when nothing is wrong with it: it spends the nonce, moves no
   * value but by its outputs, its fee is within bounds, it pays the payee at least the amount, no more
   * than the allowed ADA rides along, and it pays nobody else. Otherwise the first of these is named.
   */
  lemma MatchesExactly(tx: SignedTransaction, want: Authorised, m: Mismatch)
    ensures MismatchOf(tx, want).None? <==> forall w: Mismatch | Order(w) <= 5 :: !Wrong(tx, want, w)
    ensures MismatchOf(tx, want) == Some(m)
            <==> Wrong(tx, want, m) && forall w: Mismatch | Order(w) < Order(m) :: !Wrong(tx, want, w)
  {
    PaidInLovelace(tx.outputs, want.payTo);
    assert Order(WrongNonce) == 0 && Order(BalanceChanging) == 1 && Order(FeeTooHigh) == 2;
    assert Order(Underpaid) == 3 && Order(RideTooHigh) == 4 && Order(Strangers) == 5;
  }
}
