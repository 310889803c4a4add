/** The daemon's methods take the state machine's steps: what each leaves is what the machine's action does. */
module Refinement {
  import opened Wrappers
  import opened Policy
  import opened Replay
  import opened LogView
  import opened Journal
  import opened History
  import opened Daemon
  import opened Recovery
  import opened Spending

  /** A step the policy and the clock let the daemon take, and where it leads. */
  predicate Takes(env: Env, s: State, a: Action, s': State) {
    Placed(env, s, a) && Clocked(s, a) && Admitted(env, s, a) && s' == Do(env, s, a)
  }

  /** Judge: `/sign` begins to build, turns to a human, or refuses. */
  lemma JudgeTakesStep(env: Env, s: State, ask: Ask, at: int)
    requires Unlocked(s, ask.req.agentId) && s.now <= at && WellAsked(ask) && !IsBatch(ask)
    ensures var d, m := DecideAsk(env, s, ask, None, at), s.up.value;
            && (d.Allow? ==> Takes(env, s, Begin(ask, at),
                                   Stepped(env, s, at, [], false, s.books,
                                           Working(m, ask.req.agentId, Building(ask, None)))))
            && (d.NeedsApproval?
                ==> Takes(env, s, AskHuman(ask, at),
                          Stepped(env, s, at, [], false, s.books, Working(m, ask.req.agentId, Asking(ask)))))
            && (d.Deny? ==> Takes(env, s, Note(at, DeniedNote(ask)),
                                  Stepped(env, s, at, [Timed(at, DeniedNote(ask))], false, s.books, m)))
  {
  }

  /** RecordPayment: the payment and its overhead are recorded, or refused. */
  lemma PaymentTakesStep(env: Env, s: State, ask: Ask, approving: Option<string>, built: Built, judgedAt: int,
                         signedAt: int, prunedAt: int, at: int)
    requires Busy(s, ask.req.agentId) && TaskOf(s, ask.req.agentId) == Building(ask, approving)
    requires s.now <= judgedAt <= signedAt <= prunedAt <= at
    ensures var m, agent := s.up.value, ask.req.agentId;
            var cost := DecideOverhead(env.policy, Judged(s.books.ledger, m.held, approving), OverheadAsked(ask, built),
                                       judgedAt);
            && (cost.Allow? ==>
                  Takes(env, s, Commit(agent, built, judgedAt, signedAt, prunedAt, at),
                        Stepped(env, s, at, [Timed(at, SignedNote(ask, built))], true,
                                Pruned(Spend(s.books, Payment(ask, built, signedAt)), prunedAt),
                                Committed(m, agent, approving))))
            && (!cost.Allow? ==> Takes(env, s, Note(at, DeniedNote(ask)),
                                       Stepped(env, s, at, [Timed(at, DeniedNote(ask))], false, s.books, m)))
  {
  }

  /** RecordVoucher: the increment is recorded where it is allowed, or a human allowed it. */
  lemma VoucherTakesStep(env: Env, s: State, ask: Ask, approving: Option<string>, shown: Option<Ask>, spent: bool,
                         step: Option<Entry>, judgedAt: int, pushedAt: int, prunedAt: int, at: int)
    requires Busy(s, ask.req.agentId) && TaskOf(s, ask.req.agentId) == Drawing(approving, spent, shown)
    requires WellAsked(ask) && IsBatch(ask) && (step.Some? ==> step.value.event.AnyOther?)
    requires s.now <= judgedAt <= pushedAt <= prunedAt <= at
    requires Goes(DecideAsk(env, s, ask, approving, judgedAt), shown, ask)
    ensures Takes(env, s, Draw(ask, step, judgedAt, pushedAt, prunedAt, at),
                  Stepped(env, s, at, VoucherNotes(step, ask, at), true,
                          Pruned(Spend(s.books, [SpendFor(ask, pushedAt)]), prunedAt),
                          Working(s.up.value, ask.req.agentId, Drawing(approving, true, shown))))
  {
  }

  /** GiveBack */
  lemma GiveBackTakesStep(env: Env, s: State, absent: SpendRecord, at: int)
    requires Unlocked(s, absent.agentId) && absent in s.up.value.absent && absent.tx.Some? && s.now <= at
    ensures var i := FindTx(s.books.ledger, absent.tx.value);
            Takes(env, s, Release(absent, at),
                  if i < |s.books.ledger|
                  then Stepped(env, s, at, [Timed(at, ReleasedNote(s.books.ledger[i], absent))], true,
                               History.Free(s.books, absent.tx.value), s.up.value)
                  else Stepped(env, s, at, [], false, s.books, s.up.value))
  {
  }

  /** QueueUp */
  lemma QueueUpTakesStep(env: Env, s: State, ask: Ask, id: string, heldAt: int, at: int)
    requires Busy(s, ask.req.agentId) && TaskOf(s, ask.req.agentId) == Asking(ask) && s.now <= heldAt <= at
    ensures var m := s.up.value;
            Takes(env, s, Enqueue(ask.req.agentId, id, heldAt, at),
                  Stepped(env, s, at, [Timed(at, PendingNote(id, ask))], false, s.books,
                          Queued(m, ask, id, heldAt)))
  {
  }

  /** ClosePending, for whichever reason a request leaves the queue unsigned. */
  lemma CloseTakesStep(env: Env, s: State, id: string, how: Terminal, at: int)
    requires s.up.Some? && id in s.up.value.queue && !how.Approved? && !how.ApprovalSignError? && s.now <= at
    ensures var m := s.up.value;
            Takes(env, s, Answer(id, how, at),
                  Stepped(env, s, at, [Timed(at, ClosedNote(id, m.queue[id], how))], false, s.books,
                          m.(queue := m.queue - {id}, held := Without(m.held, id))))
  {
    var a := Answer(id, how, at);
    assert Placed(env, s, a) && NotesOf(env, s, a) == [Timed(at, ClosedNote(id, s.up.value.queue[id], how))];
  }

  /** ApproveExact, when the policy still allows it; when it does not, it is CloseTakesStep's. */
  lemma ApproveTakesStep(env: Env, s: State, id: string, at: int)
    requires s.up.Some? && id in s.up.value.queue && !IsBatch(s.up.value.queue[id])
             && Unlocked(s, s.up.value.queue[id].req.agentId) && s.now <= at
    requires !DecideAsk(env, s, s.up.value.queue[id], Some(id), at).Deny?
    ensures var m := s.up.value;
            Takes(env, s, Approve(id, at),
                  Stepped(env, s, at, [], false, s.books,
                          Working(m, m.queue[id].req.agentId,
                                  Building(m.queue[id], Some(id))).(queue := m.queue - {id})))
  {
  }

  /** FinishApproval */
  lemma FinishTakesStep(env: Env, s: State, agent: string, id: string, how: Terminal, at: int)
    requires Busy(s, agent) && Claim(TaskOf(s, agent)) == Some(id) && (how.Approved? ==> !TaskOf(s, agent).Building?)
             && s.now <= at
    ensures var m := s.up.value;
            Takes(env, s, Finish(agent, how, at),
                  Stepped(env, s, at, [Timed(at, AnsweredNote(id, agent, Undefined, how))], false, s.books,
                          Idle(m, agent).(held := Without(m.held, id))))
  {
  }

  /** Start: on any disk the daemon leaves, at any time, a start is the machine's and goes through. */
  lemma StartTakesStep(env: Env, s: State, readAt: int, at: int)
    requires Agree(env, s) && s.up.None? && s.now <= readAt <= at
    ensures var r := Startup(env.codec, s.disk, readAt - DAY);
            && r.Some? && Daemon.Started(env, s, Start(readAt, r.value, at))
            && Takes(env, s, Start(readAt, r.value, at), Restarted(env, s, readAt, r.value, at))
  {
    var r := Startup(env.codec, s.disk, readAt - DAY);
    IsStarted(env, s, readAt, at, r);
    FoundTakesStep(env, s, readAt, r.value, at);
  }

  lemma IsStarted(env: Env, s: State, readAt: int, at: int, r: Option<Replay>)
    requires Kept(env.codec, s.disk) && r == Startup(env.codec, s.disk, readAt - DAY)
    ensures r.Some? && Daemon.Started(env, s, Start(readAt, r.value, at))
  {
    StartFinds(env.codec, s.disk, readAt - DAY);
  }

  lemma FoundTakesStep(env: Env, s: State, readAt: int, found: Replay, at: int)
    requires s.up.None? && s.now <= readAt <= at
    ensures Takes(env, s, Start(readAt, found, at), Restarted(env, s, readAt, found, at))
  {
  }

  // ---- the methods take the steps ------------------------------------------------------------------------

  /** `/sign`, with the agent's lock just taken. */
  method SignStep(d: Signerd, ask: Ask, at: int) returns (verdict: Decision)
    requires d.Serving() && d.now <= at && Unlocked(d.Snapshot(), ask.req.agentId) && WellAsked(ask) && !IsBatch(ask)
    modifies d
    ensures d.Serving()
    ensures Takes(d.env, old(d.Snapshot()),
                  if verdict.Allow? then Begin(ask, at) else if verdict.NeedsApproval? then AskHuman(ask, at)
                  else Note(at, DeniedNote(ask)),
                  d.Snapshot())
  {
    JudgeTakesStep(d.env, d.Snapshot(), ask, at);
    verdict := d.Judge(ask, at);
  }

  /** The end of `sign`, in the task that built the payment. */
  method PaymentStep(d: Signerd, ask: Ask, approving: Option<string>, built: Built, judgedAt: int, signedAt: int,
                     prunedAt: int, at: int)
    returns (cost: Decision)
    requires d.Serving() && Busy(d.Snapshot(), ask.req.agentId)
             && TaskOf(d.Snapshot(), ask.req.agentId) == Building(ask, approving)
    requires d.now <= judgedAt <= signedAt <= prunedAt <= at
    modifies d
    ensures d.Serving()
    ensures Takes(d.env, old(d.Snapshot()),
                  if cost.Allow? then Commit(ask.req.agentId, built, judgedAt, signedAt, prunedAt, at)
                  else Note(at, DeniedNote(ask)),
                  d.Snapshot())
  {
    PaymentTakesStep(d.env, d.Snapshot(), ask, approving, built, judgedAt, signedAt, prunedAt, at);
    cost := d.RecordPayment(ask, approving, built, judgedAt, signedAt, prunedAt, at);
  }

  /** `commitVoucher`, in the task that runs the channel client: it takes the draw, or changes nothing. */
  method VoucherStep(d: Signerd, ask: Ask, approving: Option<string>, shown: Option<Ask>, ghost spent: bool,
                     step: Option<Entry>, judgedAt: int, pushedAt: int, prunedAt: int, at: int)
    returns (verdict: Decision)
    requires d.Serving() && Busy(d.Snapshot(), ask.req.agentId)
             && TaskOf(d.Snapshot(), ask.req.agentId) == Drawing(approving, spent, shown)
    requires WellAsked(ask) && IsBatch(ask) && (step.Some? ==> step.value.event.AnyOther?)
    requires d.now <= judgedAt <= pushedAt <= prunedAt <= at
    modifies d
    ensures d.Serving()
    ensures verdict == DecideAsk(d.env, old(d.Snapshot()), ask, approving, judgedAt)
    ensures if Goes(verdict, shown, ask)
            then Takes(d.env, old(d.Snapshot()), Draw(ask, step, judgedAt, pushedAt, prunedAt, at), d.Snapshot())
            else d.Snapshot() == old(d.Snapshot())
  {
    if Goes(DecideAsk(d.env, d.Snapshot(), ask, approving, judgedAt), shown, ask) {
      VoucherTakesStep(d.env, d.Snapshot(), ask, approving, shown, spent, step, judgedAt, pushedAt, prunedAt, at);
    }
    verdict := d.RecordVoucher(ask, approving, shown, step, judgedAt, pushedAt, prunedAt, at);
  }

  /** A release, with the agent's lock just taken. */
  method ReleaseStep(d: Signerd, absent: SpendRecord, at: int)
    requires d.Serving() && d.now <= at && Unlocked(d.Snapshot(), absent.agentId) && absent in d.absent
             && absent.tx.Some?
    modifies d
    ensures d.Serving() && Takes(d.env, old(d.Snapshot()), Release(absent, at), d.Snapshot())
  {
    GiveBackTakesStep(d.env, d.Snapshot(), absent, at);
    d.GiveBack(absent, at);
  }

  method EnqueueStep(d: Signerd, ask: Ask, id: string, heldAt: int, at: int)
    requires d.Serving() && Busy(d.Snapshot(), ask.req.agentId) && TaskOf(d.Snapshot(), ask.req.agentId) == Asking(ask)
    requires d.now <= heldAt <= at
    modifies d
    ensures d.Serving() && Takes(d.env, old(d.Snapshot()), Enqueue(ask.req.agentId, id, heldAt, at), d.Snapshot())
  {
    QueueUpTakesStep(d.env, d.Snapshot(), ask, id, heldAt, at);
    d.QueueUp(ask, id, heldAt, at);
  }

  /** A denial, a timeout, a withdrawal or a shutdown: an answer, or nothing when the request was answered already. */
  method CloseStep(d: Signerd, id: string, how: Terminal, at: int) returns (closed: bool)
    requires d.Serving() && d.now <= at && !how.Approved? && !how.ApprovalSignError?
    modifies d
    ensures d.Serving() && closed == (id in old(d.pending))
    ensures if closed then Takes(d.env, old(d.Snapshot()), Answer(id, how, at), d.Snapshot())
            else d.Snapshot() == old(d.Snapshot())
  {
    if id in d.pending { CloseTakesStep(d.env, d.Snapshot(), id, how, at); }
    closed := d.ClosePending(id, how, at);
  }

  /** `/approve` of an `exact` payment, with the agent's lock just taken: under way, or closed as stale. */
  method ApproveStep(d: Signerd, id: string, at: int) returns (verdict: Decision)
    requires d.Serving() && d.now <= at && id in d.pending
    requires !IsBatch(d.pending[id]) && Unlocked(d.Snapshot(), d.pending[id].req.agentId)
    modifies d
    ensures d.Serving()
    ensures Takes(d.env, old(d.Snapshot()), if verdict.Deny? then Answer(id, ApprovalStale, at)
                  else Approve(id, at), d.Snapshot())
  {
    if DecideAsk(d.env, d.Snapshot(), d.pending[id], Some(id), at).Deny? {
      CloseTakesStep(d.env, d.Snapshot(), id, ApprovalStale, at);
    } else {
      ApproveTakesStep(d.env, d.Snapshot(), id, at);
    }
    verdict := d.ApproveExact(id, at);
  }

  method FinishStep(d: Signerd, agent: string, id: string, how: Terminal, at: int)
    requires d.Serving() && d.now <= at && Busy(d.Snapshot(), agent) && Claim(TaskOf(d.Snapshot(), agent)) == Some(id)
    requires how.Approved? ==> !TaskOf(d.Snapshot(), agent).Building?
    modifies d
    ensures d.Serving() && Takes(d.env, old(d.Snapshot()), Finish(agent, how, at), d.Snapshot())
  {
    FinishTakesStep(d.env, d.Snapshot(), agent, id, how, at);
    d.FinishApproval(agent, id, how, at);
  }

  /** A start, from any disk that a run of the daemon leaves. */
  method StartStep(d: Signerd, readAt: int, at: int) returns (served: bool)
    requires !d.running && d.now <= readAt <= at && Agree(d.env, d.Snapshot())
    modifies d
    ensures served && d.Serving()
    ensures var r := Startup(d.env.codec, old(d.disk), readAt - DAY);
            && r.Some? && Daemon.Started(d.env, old(d.Snapshot()), Start(readAt, r.value, at))
            && Takes(d.env, old(d.Snapshot()), Start(readAt, r.value, at), d.Snapshot())
  {
    StartTakesStep(d.env, d.Snapshot(), readAt, at);
    served := d.Start(readAt, at);
  }

  /** Runs exist: the first start, with no log and no checkpoint, is always possible and leaves the daemon serving. */
  lemma FirstStartRuns(env: Env, begun: int) returns (found: Replay)
    ensures var s := First(begun);
            && Enabled(env, s, Start(begun, found, begun))
            && Do(env, s, Start(begun, found, begun)).up.Some?
            && Do(env, s, Start(begun, found, begun)).books.ledger == []
  {
    var s, r := First(begun), Startup(env.codec, First(begun).disk, begun - DAY);
    EveryRunAgrees(env, begun, []);
    FirstFinds(env.codec, begun - DAY, r);
    found := r.value;
    NothingToWrite(env, begun, found);
  }

  lemma FirstFinds(codec: Codec, cutoff: int, r: Option<Replay>)
    requires r == Startup(codec, Disk([], "", None), cutoff) && Kept(codec, Disk([], "", None))
    ensures Accepts(r) && r.value.spends == [] && r.value.openApprovals == []
  {
    StartFinds(codec, Disk([], "", None), cutoff);
  }

  lemma NothingToWrite(env: Env, begun: int, found: Replay)
    requires found.openApprovals == []
    ensures Ordered(env, First(begun), Start(begun, found, begun))
  {
  }
}
