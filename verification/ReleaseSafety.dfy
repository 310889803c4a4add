/**
 * Release safety: no budget comes back for money that leaves. What the daemon gives back is never in
 * a block, so the spends of any 24 hours that have landed or still can are within the cap.
 */
module ReleaseSafety {
  import opened Wrappers
  import opened Policy
  import opened Replay
  import opened LogView
  import opened Journal
  import opened History
  import opened Expiry
  import opened Daemon
  import opened Recovery
  import opened CrashRecovery
  import opened Budget

  /** The transaction of this spend is never in a block. */
  predicate NeverLands(world: World, r: SpendRecord) {
    r.tx.Some? && world(r.tx.value).None?
  }

  predicate AllNeverLand(world: World, rs: seq<SpendRecord>) {
    forall i | 0 <= i < |rs| :: NeverLands(world, rs[i])
  }

  predicate AllTtlHold(world: World, rs: seq<SpendRecord>) {
    forall i | 0 <= i < |rs| :: TtlHolds(world, rs[i])
  }

  predicate Safe(env: Env, s: State) {
    && AllNeverLand(env.world, s.books.gone) && AllTtlHold(env.world, s.books.ledger)
    && (s.up.Some? ==> AllNeverLand(env.world, s.up.value.absent))
  }

  lemma FreeIsSafe(world: World, b: Books, absent: SpendRecord)
    requires AllNeverLand(world, b.gone) && AllTtlHold(world, b.ledger) && NeverLands(world, absent)
    ensures AllNeverLand(world, History.Free(b, absent.tx.value).gone)
            && AllTtlHold(world, History.Free(b, absent.tx.value).ledger)
  {
  }

  lemma SpendIsSafe(world: World, b: Books, rs: seq<SpendRecord>, at: int)
    requires AllTtlHold(world, b.ledger) && AllTtlHold(world, rs)
    ensures AllTtlHold(world, Spend(b, rs).ledger) && AllTtlHold(world, Pruned(Spend(b, rs), at).ledger)
  {
  }

  lemma PaymentIsSafe(env: Env, s: State, a: Action, ts: int)
    requires a.Commit? && Placed(env, s, a) && Assumed(env, s, a)
    ensures AllTtlHold(env.world, Payment(TaskOf(s, a.agent).ask, a.built, ts))
  {
  }

  lemma BooksAreSafe(env: Env, s: State, a: Action)
    requires Safe(env, s) && Agree(env, s) && Placed(env, s, a) && Assumed(env, s, a) && Restores(env, s, a)
    ensures AllNeverLand(env.world, BooksOf(env, s, a).gone) && AllTtlHold(env.world, BooksOf(env, s, a).ledger)
    ensures AllNeverLand(env.world, BooksByLog(env, s, a).gone) && AllTtlHold(env.world, BooksByLog(env, s, a).ledger)
  {
    match a
    case Commit(agent, built, _, signedAt, prunedAt, at) =>
      var ask := TaskOf(s, agent).ask;
      PaymentIsSafe(env, s, a, signedAt);
      PaymentIsSafe(env, s, a, at);
      SpendIsSafe(env.world, s.books, Payment(ask, built, signedAt), prunedAt);
      SpendIsSafe(env.world, s.books, Payment(ask, built, at), at);
    case Draw(ask, _, _, pushedAt, prunedAt, at) =>
      SpendIsSafe(env.world, s.books, [SpendFor(ask, pushedAt)], prunedAt);
      SpendIsSafe(env.world, s.books, [SpendFor(ask, at)], at);
    case Release(absent, _) => FreeIsSafe(env.world, s.books, absent);
    case Start(_, _, _) => StartBooks(env, s, a);
    case _ =>
  }

  /** What a pass over the ledger calls absent never lands. */
  lemma PassIsSafe(env: Env, ledger: seq<SpendRecord>, tip: int, answers: map<string, bool>, p: Pass)
    requires AllTtlHold(env.world, ledger) && Honest(env.world, tip, env.margin, answers) && p.margin == env.margin
    ensures AllNeverLand(env.world, Reconcile(ledger, tip, answers, p).absent)
  {
    var absent := Reconcile(ledger, tip, answers, p).absent;
    forall i | 0 <= i < |absent| ensures NeverLands(env.world, absent[i]) {
      assert absent[i] in absent && absent[i] in ledger;
      AbsentNeverLands(env.world, ledger, tip, answers, p, absent[i]);
    }
  }

  lemma AbsentIsSafe(env: Env, s: State, a: Action)
    requires Safe(env, s) && Placed(env, s, a) && HonestStep(env, a)
    ensures AllNeverLand(env.world, MemoryOf(env, s, a).absent)
  {
    if a.Reconciled? { PassIsSafe(env, s.books.ledger, a.tip, a.answers, a.pass); }
  }

  lemma MovedIsSafe(env: Env, s: State, m: Move)
    requires Safe(env, s) && Agree(env, s) && WellTasked(s) && (m.Full? ==> HonestStep(env, m.a))
    ensures Safe(env, Moved(env, s, m))
  {
    if CanMove(env, s, m) {
      StartedRestores(env, s, m.a);
      BooksAreSafe(env, s, m.a);
      match m
      case Cut(a, n, _) =>
        AgreeIsSavable(env, s);
        CutLearns(env, s, a, n);
      case Full(a) => AbsentIsSafe(env, s, a);
    }
  }

  lemma {:induction false} EveryRunIsSafe(env: Env, begun: int, moves: seq<Move>)
    requires HonestRun(env, moves)
    ensures Safe(env, After(env, begun, moves))
  {
    if moves != [] {
      EveryRunIsSafe(env, begun, moves[..|moves| - 1]);
      EveryRunAgrees(env, begun, moves[..|moves| - 1]);
      MovedIsSafe(env, After(env, begun, moves[..|moves| - 1]), moves[|moves| - 1]);
    }
  }

  /** What the spends of 24 hours that may still leave the wallet, or have, come to. */
  function LandableWeight(world: World, a: string, x: string, from: int): SpendRecord -> nat {
    r => if InSpan(r, a, x, from) && !NeverLands(world, r) then r.amount else 0
  }

  lemma {:induction false} NothingLands(world: World, rs: seq<SpendRecord>, a: string, x: string, from: int)
    requires AllNeverLand(world, rs)
    ensures Weight(rs, LandableWeight(world, a, x, from)) == 0
  {
    if rs != [] { NothingLands(world, rs[..|rs| - 1], a, x, from); }
  }

  lemma {:induction false} LandableIsLess(world: World, rs: seq<SpendRecord>, a: string, x: string, from: int)
    ensures Weight(rs, LandableWeight(world, a, x, from)) <= Weight(rs, SpanWeight(a, x, from))
  {
    if rs != [] { LandableIsLess(world, rs[..|rs| - 1], a, x, from); }
  }

  /**
   * Release safety. If no block past a transaction's TTL holds it, and a provider's "no" is true up to
   * the margin before the tip it reported, then nothing that was ever given back lands; and of every
   * spend ever recorded, in any 24 hours, those that have landed or still can come to at most the cap.
   * Crashes and starts included: a restart forgets the pass, never a release.
   */
  lemma LandableIsCapped(env: Env, begun: int, moves: seq<Move>, a: string, x: string, from: int)
    requires HonestRun(env, moves)
    requires a in env.policy.agents && x in env.policy.agents[a].perTxMax
    ensures var b := After(env, begun, moves).books;
            && AllNeverLand(env.world, b.gone)
            && Weight(b.all, LandableWeight(env.world, a, x, from)) <= DailyCap(env.policy.agents[a], x)
  {
    var b, w := After(env, begun, moves).books, LandableWeight(env.world, a, x, from);
    EveryRunIsSafe(env, begun, moves);
    EveryRunAgrees(env, begun, moves);
    AnyDayIsCapped(env, begun, moves, a, x, from);
    NothingLands(env.world, b.gone, a, x, from);
    LandableIsLess(env.world, b.past + b.ledger, a, x, from);
    WeightConcat(b.past, b.ledger, w);
    assert Weight(b.all, w) == Weight(b.gone, w) + Weight(b.past, w) + Weight(b.ledger, w);
  }

  /**
   * A payment comes back whole. While what it recorded stands in the ledger, a pass gives back all of
   * it, the payment and the ADA that left with it, exactly when the chain has moved past its slot, its
   * transaction was asked about and the provider said no; and none of it otherwise.
   */
  lemma PaymentComesBackWhole(ledger: seq<SpendRecord>, ask: Ask, built: Built, ts: int, tip: int,
                              answers: map<string, bool>, p: Pass)
    requires forall r | r in Payment(ask, built, ts) :: r in ledger
    ensures forall r | r in Payment(ask, built, ts) ::
              r in Reconcile(ledger, tip, answers, p).absent <==>
              && built.tx.Some? && IsTxHash(Str(built.tx.value)) && built.slot.Some? && IsSlot(Num(built.slot.value))
              && tip > built.slot.value + p.margin && built.tx.value !in p.settled
              && built.tx.value in Question(ledger, tip, p) && built.tx.value in answers && !answers[built.tx.value]
  {
    forall r | r in Payment(ask, built, ts)
      ensures r in Reconcile(ledger, tip, answers, p).absent <==>
              && PastItsSlot(r, tip, p.margin, p.settled)
              && r.tx.value in Question(ledger, tip, p) && r.tx.value in answers && !answers[r.tx.value]
    {
      ComesBackExactly(ledger, tip, answers, p, r, "");
      assert r in multiset(Reconcile(ledger, tip, answers, p).absent)
             <==> r in Reconcile(ledger, tip, answers, p).absent;
      assert r in multiset(ledger);
    }
  }
}
