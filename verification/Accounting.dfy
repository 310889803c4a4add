/** What the ledger records of a payment is what leaves the wallet with it. */
module Accounting {
  import opened Wrappers
  import opened Policy
  import opened Text
  import opened Daemon
  import opened Recovery
  import opened Caps
  import opened Budget
  import V = VerifyTx

  /** The transaction read back was built for this request, and this is what `sign` made of it. */
  predicate ReadBack(ask: Ask, built: Built, tx: V.SignedTransaction, want: V.Authorised) {
    && want.asset == ask.req.asset && want.amount == AmountOf(ask) && want.payTo == ask.req.payTo
    && V.MismatchOf(tx, want).None? && built.overhead == V.OverheadOf(tx, want)
  }

  /** What the records of a payment add, in any asset, to what its agent has spent. */
  lemma PaymentAddsUp(ask: Ask, built: Built, ts: int, asset: string)
    ensures DaySpent(Payment(ask, built, ts), ask.req.agentId, asset, ts)
         == (if asset == ask.req.asset then AmountOf(ask) else 0) + (if asset == LOVELACE then built.overhead else 0)
  {
    var rs := Payment(ask, built, ts);
    if |rs| > 1 {
      assert rs == [rs[0]] + [rs[1]];
      DaySpentConcat([rs[0]], [rs[1]], ask.req.agentId, asset, ts);
      assert [rs[1]][1..] == [];
    }
    assert [rs[0]][1..] == [];
  }

  lemma LovelaceOfPayment(ask: Ask, built: Built, ts: int)
    ensures DaySpent(Payment(ask, built, ts), ask.req.agentId, LOVELACE, ts)
         == built.overhead + if ask.req.asset == LOVELACE then AmountOf(ask) else 0
  {
    PaymentAddsUp(ask, built, ts, LOVELACE);
  }

  /**
   * For a payment to someone else, from this wallet's inputs, the lovelace recorded is exactly the
   * lovelace that leaves, whatever asset of an agent's policy is paid. The read-back folds the case of
   * an asset and the caps do not; the policy's own keys are the same either way.
   */
  lemma RecordedIsWhatLeaves(policy: Policy, ask: Ask, built: Built, tx: V.SignedTransaction, want: V.Authorised,
                             held: nat, ts: int)
    requires Parsed(policy) && ask.req.agentId in policy.agents
             && ask.req.asset in policy.agents[ask.req.agentId].perTxMax
    requires ReadBack(ask, built, tx, want) && V.Conserves(tx, held) && want.payTo != want.changeTo
    ensures DaySpent(Payment(ask, built, ts), ask.req.agentId, LOVELACE, ts) == V.Leaves(tx, held, want.changeTo)
  {
    V.AccountingIsExact(tx, want, held);
    LovelaceOfPayment(ask, built, ts);
    OnlyLovelaceFolds(ask.req.asset);
  }

  /** So it is for every payment that any run is building: what it is about to record is what is about to leave. */
  lemma EveryPaymentIsExact(env: Env, begun: int, moves: seq<Move>, agent: string, built: Built,
                            tx: V.SignedTransaction, want: V.Authorised, held: nat, ts: int)
    requires Parsed(env.policy)
    requires var s := After(env, begun, moves);
             && Busy(s, agent) && TaskOf(s, agent).Building?
             && ReadBack(TaskOf(s, agent).ask, built, tx, want) && V.Conserves(tx, held) && want.payTo != want.changeTo
    ensures DaySpent(Payment(TaskOf(After(env, begun, moves), agent).ask, built, ts), agent, LOVELACE, ts)
         == V.Leaves(tx, held, want.changeTo)
  {
    EveryRunAgrees(env, begun, moves);
    EveryRunKeeps(env, begun, moves);
    BuildingIsOfPolicy(env, After(env, begun, moves), agent);
    RecordedIsWhatLeaves(env.policy, TaskOf(After(env, begun, moves), agent).ask, built, tx, want, held, ts);
  }

  lemma BuildingIsOfPolicy(env: Env, s: State, agent: string)
    requires Within(env, s) && WellTasked(s) && Busy(s, agent) && TaskOf(s, agent).Building?
    ensures var ask := TaskOf(s, agent).ask;
            ask.req.agentId == agent && agent in env.policy.agents && ask.req.asset in env.policy.agents[agent].perTxMax
  {
    var m := s.up.value;
    assert GoodTask(agent, m.tasks[agent]);
    assert AgentOk(env.policy, s.books.ledger, m.held, m.tasks, agent, s.now);
  }

  /** A payment to the wallet itself is over-counted by its amount at most, never under-counted. */
  lemma SelfPaymentOverCounts(ask: Ask, built: Built, tx: V.SignedTransaction, want: V.Authorised, held: nat, ts: int)
    requires ReadBack(ask, built, tx, want) && V.Conserves(tx, held) && want.payTo == want.changeTo
    ensures V.Leaves(tx, held, want.changeTo) == built.overhead == tx.fee
    ensures DaySpent(Payment(ask, built, ts), ask.req.agentId, LOVELACE, ts) == V.Leaves(tx, held, want.changeTo)
            + if ask.req.asset == LOVELACE then AmountOf(ask) else 0
  {
    V.AccountingIsExact(tx, want, held);
    LovelaceOfPayment(ask, built, ts);
  }
}
