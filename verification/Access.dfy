/**
 * The policy's rules over whole runs: whatever is being built, queued or drawn is something the policy
 * permits, what no human approved is below the threshold, and no one payment takes more than its cap.
 */
module Access {
  import opened Wrappers
  import opened Policy
  import opened PolicyRules
  import opened Replay
  import opened LogView
  import opened Journal
  import opened History
  import opened Daemon
  import opened Recovery
  import opened CrashRecovery
  import opened Budget
  import opened Accounting
  import V = VerifyTx

  predicate TaskLicensed(policy: Policy, t: Task) {
    match t
    case Building(ask, approving) => Permits(policy, ask.req) && (approving.None? ==> !Above(policy, ask.req))
    case Asking(ask) => Permits(policy, ask.req) && Above(policy, ask.req)
    case _ => true
  }

  predicate TasksLicensed(policy: Policy, tasks: map<string, Task>) {
    forall agent | agent in tasks :: TaskLicensed(policy, tasks[agent])
  }

  predicate QueueLicensed(policy: Policy, queue: map<string, Ask>) {
    forall id | id in queue :: Permits(policy, queue[id].req) && Above(policy, queue[id].req)
  }

  predicate Licensed(env: Env, s: State) {
    s.up.Some? ==> TasksLicensed(env.policy, s.up.value.tasks) && QueueLicensed(env.policy, s.up.value.queue)
  }

  lemma OneMoreLicensed(policy: Policy, tasks: map<string, Task>, agent: string, t: Task)
    requires TasksLicensed(policy, tasks) && TaskLicensed(policy, t)
    ensures TasksLicensed(policy, tasks[agent := t])
  {
  }

  lemma MemoryStaysLicensed(env: Env, s: State, a: Action)
    requires Licensed(env, s) && Placed(env, s, a) && Admitted(env, s, a)
    ensures TasksLicensed(env.policy, MemoryOf(env, s, a).tasks) && QueueLicensed(env.policy, MemoryOf(env, s, a).queue)
  {
    if s.up.Some? {
      var m := s.up.value;
      match a
      case Begin(ask, at) =>
        DecidesExactly(env.policy, Judged(s.books.ledger, m.held, None), ask.req, at);
        OneMoreLicensed(env.policy, m.tasks, ask.req.agentId, Building(ask, None));
      case AskHuman(ask, at) =>
        DecidesExactly(env.policy, Judged(s.books.ledger, m.held, None), ask.req, at);
        OneMoreLicensed(env.policy, m.tasks, ask.req.agentId, Asking(ask));
      case Enqueue(agent, id, heldAt, _) => assert TaskLicensed(env.policy, m.tasks[agent]);
      case Approve(id, _) =>
        OneMoreLicensed(env.policy, m.tasks, m.queue[id].req.agentId, Building(m.queue[id], Some(id)));
      case Commit(agent, _, _, _, _, _) =>
        if m.tasks[agent].approving.Some? {
          OneMoreLicensed(env.policy, m.tasks, agent, Recorded(m.tasks[agent].approving.value));
        }
      case _ =>
    }
  }

  lemma MovedStaysLicensed(env: Env, s: State, m: Move)
    requires Licensed(env, s)
    ensures Licensed(env, Moved(env, s, m))
  {
    if CanMove(env, s, m) && m.Full? { MemoryStaysLicensed(env, s, m.a); }
  }

  lemma {:induction false} EveryRunIsLicensed(env: Env, begun: int, moves: seq<Move>)
    ensures Licensed(env, After(env, begun, moves))
  {
    if moves != [] {
      EveryRunIsLicensed(env, begun, moves[..|moves| - 1]);
      MovedStaysLicensed(env, After(env, begun, moves[..|moves| - 1]), moves[|moves| - 1]);
    }
  }

  // ---- the promises ----------------------------------------------------------------------------------------

  /**
   * In every state of every run: what a task is building for an agent is a payment its policy permits,
   * to a payee on its list, and unless a human approved it, below the threshold; and what is queued for
   * a human is permitted, and above it.
   */
  lemma OnlyThePermitted(env: Env, begun: int, moves: seq<Move>, agent: string, id: string)
    ensures var s := After(env, begun, moves);
            && (Busy(s, agent) && TaskOf(s, agent).Building? ==>
                  && Permits(env.policy, TaskOf(s, agent).ask.req)
                  && (TaskOf(s, agent).approving.None? ==> !Above(env.policy, TaskOf(s, agent).ask.req)))
            && (s.up.Some? && id in s.up.value.queue ==>
                  Permits(env.policy, s.up.value.queue[id].req) && Above(env.policy, s.up.value.queue[id].req))
  {
    EveryRunIsLicensed(env, begun, moves);
    var s := After(env, begun, moves);
    if Busy(s, agent) { assert TaskLicensed(env.policy, s.up.value.tasks[agent]); }
  }

  /**
   * And a voucher that any run records is one the policy permits, for a provider key on its list, and
   * above the threshold only where a human was shown a voucher of its payee, asset and amount.
   */
  lemma OnlyPermittedVouchers(env: Env, begun: int, moves: seq<Move>, a: Action)
    requires a.Draw? && Enabled(env, After(env, begun, moves), a)
    ensures Permits(env.policy, a.ask.req)
    ensures Above(env.policy, a.ask.req) ==>
              var t := TaskOf(After(env, begun, moves), a.ask.req.agentId);
              t.shown.Some? && SameAsk(t.shown.value, a.ask)
  {
    var s := After(env, begun, moves);
    var t := TaskOf(s, a.ask.req.agentId);
    DecidesExactly(env.policy, Judged(s.books.ledger, s.up.value.held, t.approving), a.ask.req, a.judgedAt);
  }

  // ---- the cap on one payment -------------------------------------------------------------------------------

  /** One spend is within the cap on one payment of its asset; only an overhead may be of an asset with none. */
  predicate SpendSized(policy: Policy, r: SpendRecord) {
    && r.agentId in policy.agents
    && (r.asset in policy.agents[r.agentId].perTxMax ==> r.amount <= policy.agents[r.agentId].perTxMax[r.asset])
    && (!r.overhead ==> r.asset in policy.agents[r.agentId].perTxMax)
  }

  predicate AllSized(policy: Policy, rs: seq<SpendRecord>) {
    forall i | 0 <= i < |rs| :: SpendSized(policy, rs[i])
  }

  lemma PaymentIsSized(policy: Policy, ledger: seq<SpendRecord>, ask: Ask, built: Built, now: int, ts: int)
    requires WellAsked(ask) && Permits(policy, ask.req)
             && DecideOverhead(policy, ledger, OverheadAsked(ask, built), now).Allow?
    ensures AllSized(policy, Payment(ask, built, ts))
    ensures var ap := policy.agents[ask.req.agentId];
            if LOVELACE in ap.perTxMax
            then DaySpent(Payment(ask, built, ts), ask.req.agentId, LOVELACE, ts) <= ap.perTxMax[LOVELACE]
            else !(ask.req.mainnet && ask.req.asset != LOVELACE)
  {
    OverheadExactly(policy, ledger, OverheadAsked(ask, built), now);
    LovelaceOfPayment(ask, built, ts);
  }

  lemma CommitIsSized(env: Env, s: State, a: Action, ts: int)
    requires a.Commit? && Licensed(env, s) && WellTasked(s) && Placed(env, s, a) && Admitted(env, s, a)
    ensures var ask := TaskOf(s, a.agent).ask;
            && ask.req.agentId == a.agent && a.agent in env.policy.agents
            && AllSized(env.policy, Payment(ask, a.built, ts))
            && var ap := env.policy.agents[a.agent];
            if LOVELACE in ap.perTxMax
            then DaySpent(Payment(ask, a.built, ts), a.agent, LOVELACE, ts) <= ap.perTxMax[LOVELACE]
            else !(ask.req.mainnet && ask.req.asset != LOVELACE)
  {
    var t := TaskOf(s, a.agent);
    assert GoodTask(a.agent, t) && TaskLicensed(env.policy, t);
    PaymentIsSized(env.policy, Judged(s.books.ledger, s.up.value.held, t.approving), t.ask, a.built, a.judgedAt, ts);
  }

  lemma DrawIsSized(env: Env, s: State, a: Action, ts: int)
    requires a.Draw? && Placed(env, s, a) && Admitted(env, s, a)
    ensures AllSized(env.policy, [SpendFor(a.ask, ts)])
  {
    var t := TaskOf(s, a.ask.req.agentId);
    DecidesExactly(env.policy, Judged(s.books.ledger, s.up.value.held, t.approving), a.ask.req, a.judgedAt);
  }

  lemma BooksStaySized(env: Env, s: State, a: Action)
    requires AllSized(env.policy, s.books.all) && Licensed(env, s) && WellTasked(s) && Placed(env, s, a)
             && Admitted(env, s, a)
    ensures AllSized(env.policy, BooksOf(env, s, a).all) && AllSized(env.policy, BooksByLog(env, s, a).all)
  {
    match a
    case Commit(_, _, _, signedAt, _, at) =>
      CommitIsSized(env, s, a, signedAt);
      CommitIsSized(env, s, a, at);
    case Draw(_, _, _, pushedAt, _, at) =>
      DrawIsSized(env, s, a, pushedAt);
      DrawIsSized(env, s, a, at);
    case _ =>
  }

  lemma MovedStaysSized(env: Env, s: State, m: Move)
    requires AllSized(env.policy, s.books.all) && Licensed(env, s) && Agree(env, s) && WellTasked(s)
    ensures AllSized(env.policy, Moved(env, s, m).books.all)
  {
    if CanMove(env, s, m) {
      BooksStaySized(env, s, m.a);
      if m.Cut? {
        AgreeIsSavable(env, s);
        CutLearns(env, s, m.a, m.written);
      }
    }
  }

  /** Of every spend any run ever records, none is above the cap on one payment of its asset. */
  lemma {:induction false} NoSpendAboveItsCap(env: Env, begun: int, moves: seq<Move>)
    ensures AllSized(env.policy, After(env, begun, moves).books.all)
  {
    if moves != [] {
      var before := moves[..|moves| - 1];
      NoSpendAboveItsCap(env, begun, before);
      EveryRunIsLicensed(env, begun, before);
      EveryRunAgrees(env, begun, before);
      MovedStaysSized(env, After(env, begun, before), moves[|moves| - 1]);
    }
  }

  /**
   * The lovelace that leaves with any one payment a run commits, its fee and what rides to the payee
   * included, is within the agent's cap on one payment in lovelace; and on mainnet there is such a cap.
   */
  lemma OnePaymentIsCapped(env: Env, begun: int, moves: seq<Move>, a: Action, tx: V.SignedTransaction,
                           want: V.Authorised, held: nat)
    requires Parsed(env.policy) && a.Commit? && Enabled(env, After(env, begun, moves), a)
    requires ReadBack(TaskOf(After(env, begun, moves), a.agent).ask, a.built, tx, want)
    requires V.Conserves(tx, held) && want.payTo != want.changeTo
    ensures a.agent in env.policy.agents
    ensures var ap := env.policy.agents[a.agent];
            && (LOVELACE in ap.perTxMax ==> V.Leaves(tx, held, want.changeTo) <= ap.perTxMax[LOVELACE])
            && (TaskOf(After(env, begun, moves), a.agent).ask.req.mainnet ==> LOVELACE in ap.perTxMax)
  {
    EveryRunIsLicensed(env, begun, moves);
    EveryRunAgrees(env, begun, moves);
    OneCommitIsCapped(env, After(env, begun, moves), a, tx, want, held);
  }

  lemma OneCommitIsCapped(env: Env, s: State, a: Action, tx: V.SignedTransaction, want: V.Authorised, held: nat)
    requires Parsed(env.policy) && Licensed(env, s) && WellTasked(s) && a.Commit? && Placed(env, s, a)
             && Admitted(env, s, a)
    requires ReadBack(TaskOf(s, a.agent).ask, a.built, tx, want) && V.Conserves(tx, held) && want.payTo != want.changeTo
    ensures a.agent in env.policy.agents
    ensures var ap := env.policy.agents[a.agent];
            && (LOVELACE in ap.perTxMax ==> V.Leaves(tx, held, want.changeTo) <= ap.perTxMax[LOVELACE])
            && (TaskOf(s, a.agent).ask.req.mainnet ==> LOVELACE in ap.perTxMax)
  {
    var ask := TaskOf(s, a.agent).ask;
    CommitIsSized(env, s, a, a.at);
    assert TaskLicensed(env.policy, TaskOf(s, a.agent));
    RecordedIsWhatLeaves(env.policy, ask, a.built, tx, want, held, a.at);
  }
}
