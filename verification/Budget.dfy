/**
 * The caps in the daemon's own state: the invariant every step keeps, and what follows for every run.
 */
module Budget {
  import opened Wrappers
  import opened Policy
  import opened Replay
  import opened LogView
  import opened Journal
  import opened History
  import opened Expiry
  import opened Daemon
  import opened Recovery
  import opened CrashRecovery
  import opened Caps

  /** The reservation whose spend is in the ledger already: the two overlap until it is dropped. */
  function Overlap(tasks: map<string, Task>, a: string): Option<string> {
    if a in tasks then
      match tasks[a]
      case Recorded(id) => Some(id)
      case Drawing(approving, spent, _) => if spent then approving else None
      case _ => None
    else None
  }

  /** What an agent has spent and what the queue holds for it are within its caps. */
  ghost predicate AgentFits(policy: Policy, ledger: seq<SpendRecord>, held: seq<Held>, tasks: map<string, Task>,
                            a: string, now: int) {
    a in policy.agents ==> Fits(policy.agents[a], Judged(ledger, held, Overlap(tasks, a)), a, now)
  }

  /** And there is room for what the agent's own task is still to record, or to queue. */
  ghost predicate Promised(policy: Policy, ledger: seq<SpendRecord>, held: seq<Held>, t: Task, now: int) {
    match t
    case Building(ask, approving) => Room(policy, Judged(ledger, held, approving), SpendFor(ask, now))
    case Asking(ask) => Room(policy, Judged(ledger, held, None), SpendFor(ask, now))
    case _ => true
  }

  ghost predicate AgentOk(policy: Policy, ledger: seq<SpendRecord>, held: seq<Held>, tasks: map<string, Task>,
                          a: string, now: int) {
    AgentFits(policy, ledger, held, tasks, a, now) && (a in tasks ==> Promised(policy, ledger, held, tasks[a], now))
  }

  ghost predicate Within(env: Env, s: State) {
    && Rolling(env.policy, s.books.past + s.books.ledger)
    && (s.up.Some? ==> forall a :: AgentOk(env.policy, s.books.ledger, s.up.value.held, s.up.value.tasks, a, s.now))
  }

  // ---- reservations weigh no more when some are dropped --------------------------------------------

  lemma {:induction false} WithoutIsUnder(held: seq<Held>, id: string, b: string)
    ensures Under(Spends(Without(held, id)), Spends(held), b)
  {
    UnderSelf(Spends(held), b);
    if held != [] {
      var before, last := held[..|held| - 1], held[|held| - 1];
      WithoutIsUnder(before, id, b);
      UnderNothing([last.spend], b);
      UnderSelf([last.spend], b);
      if last.id == id {
        UnderConcat(Spends(Without(before, id)), Spends(before), [], [last.spend], b);
        assert Spends(Without(before, id)) + [] == Spends(Without(before, id));
      } else {
        UnderConcat(Spends(Without(before, id)), Spends(before), [last.spend], [last.spend], b);
      }
    }
  }

  lemma UnderNothing(xs: seq<SpendRecord>, b: string)
    ensures Under([], xs, b)
  {
    forall x, v, t ensures UnderAt([], xs, b, x, v, t) {
    }
  }

  lemma {:induction false} WithoutCommutes(held: seq<Held>, id: string, other: string)
    ensures Without(Without(held, id), other) == Without(Without(held, other), id)
  {
    if held != [] {
      var before, last := held[..|held| - 1], held[|held| - 1];
      WithoutCommutes(before, id, other);
      assert (Without(before, id) + [last])[..|Without(before, id)|] == Without(before, id);
      assert (Without(before, other) + [last])[..|Without(before, other)|] == Without(before, other);
    }
  }

  /** One ledger and queue weigh no more for an agent than another, whatever is left out of both. */
  ghost predicate Lighter(ledger': seq<SpendRecord>, held': seq<Held>, ledger: seq<SpendRecord>, held: seq<Held>,
                          b: string) {
    forall out :: Under(Judged(ledger', held', out), Judged(ledger, held, out), b)
  }

  lemma LighterLedger(ledger': seq<SpendRecord>, ledger: seq<SpendRecord>, held: seq<Held>, b: string)
    requires Under(ledger', ledger, b)
    ensures Lighter(ledger', held, ledger, held, b)
  {
    forall out ensures Under(Judged(ledger', held, out), Judged(ledger, held, out), b) {
      UnderSelf(Spends(Leaving(held, out)), b);
      UnderConcat(ledger', ledger, Spends(Leaving(held, out)), Spends(Leaving(held, out)), b);
    }
  }

  lemma LighterHeld(ledger: seq<SpendRecord>, held: seq<Held>, id: string, b: string)
    ensures Lighter(ledger, Without(held, id), ledger, held, b)
  {
    forall out: Option<string> ensures Under(Judged(ledger, Without(held, id), out), Judged(ledger, held, out), b) {
      if out.Some? { WithoutCommutes(held, id, out.value); }
      WithoutIsUnder(Leaving(held, out), id, b);
      UnderSelf(ledger, b);
      UnderConcat(ledger, ledger, Spends(Without(Leaving(held, out), id)), Spends(Leaving(held, out)), b);
    }
  }

  lemma LeavingMore(held: seq<Held>, h: Held, out: Option<string>)
    ensures Leaving(held + [h], out) == if out == Some(h.id) then Leaving(held, out) else Leaving(held, out) + [h]
    ensures Spends(held + [h]) == Spends(held) + [h.spend]
  {
    assert (held + [h])[..|held|] == held;
  }

  lemma OtherIsUnder(spends: seq<SpendRecord>, r: SpendRecord, b: string)
    requires r.agentId != b
    ensures Under(spends + [r], spends, b)
  {
    OthersWeighNothing([r], b);
    UnderSelf(spends, b);
    UnderConcat(spends, spends, [r], [], b);
    assert spends + [] == spends;
  }

  lemma LighterOthers(ledger: seq<SpendRecord>, held: seq<Held>, h: Held, b: string)
    requires h.spend.agentId != b
    ensures Lighter(ledger, held + [h], ledger, held, b)
  {
    forall out: Option<string> ensures Under(Judged(ledger, held + [h], out), Judged(ledger, held, out), b) {
      var kept := Leaving(held, out);
      LeavingMore(held, h, out);
      LeavingMore(kept, h, None);
      OtherIsUnder(Spends(kept), h.spend, b);
      UnderSelf(Spends(kept), b);
      UnderSelf(ledger, b);
      UnderConcat(ledger, ledger, Spends(Leaving(held + [h], out)), Spends(kept), b);
    }
  }

  lemma LighterKeeps(policy: Policy, ledger': seq<SpendRecord>, held': seq<Held>, ledger: seq<SpendRecord>,
                     held: seq<Held>,
                     tasks': map<string, Task>, tasks: map<string, Task>, b: string, now: int, later: int)
    requires AgentOk(policy, ledger, held, tasks, b, now) && Lighter(ledger', held', ledger, held, b) && now <= later
    requires (b in tasks' <==> b in tasks) && (b in tasks ==> tasks'[b] == tasks[b] && GoodTask(b, tasks[b]))
    ensures AgentOk(policy, ledger', held', tasks', b, later)
  {
    var out := Overlap(tasks, b);
    assert Under(Judged(ledger', held', out), Judged(ledger, held, out), b);
    if b in policy.agents {
      FitsUnder(policy.agents[b], Judged(ledger', held', out), Judged(ledger, held, out), b, now, later);
    }
    if b in tasks {
      match tasks[b]
      case Building(ask, approving) =>
        assert Under(Judged(ledger', held', approving), Judged(ledger, held, approving), b);
        RoomLater(policy, Judged(ledger, held, approving), Judged(ledger', held', approving), SpendFor(ask, now),
                  later);
      case Asking(ask) =>
        assert Under(Judged(ledger', held', None), Judged(ledger, held, None), b);
        RoomLater(policy, Judged(ledger, held, None), Judged(ledger', held', None), SpendFor(ask, now), later);
      case _ =>
    }
  }

  // ---- the steps -------------------------------------------------------------------------------------

  /** A step in which this agent's own task stands still and nothing is spent for it. */
  lemma OthersKeep(env: Env, s: State, s': State, b: string)
    requires Within(env, s) && s.up.Some? && s'.up.Some? && WellTasked(s) && s.now <= s'.now
    requires Lighter(s'.books.ledger, s'.up.value.held, s.books.ledger, s.up.value.held, b)
    requires (b in s'.up.value.tasks <==> b in s.up.value.tasks)
             && (b in s.up.value.tasks ==> s'.up.value.tasks[b] == s.up.value.tasks[b])
    ensures AgentOk(env.policy, s'.books.ledger, s'.up.value.held, s'.up.value.tasks, b, s'.now)
  {
    LighterKeeps(env.policy, s'.books.ledger, s'.up.value.held, s.books.ledger, s.up.value.held, s'.up.value.tasks,
                 s.up.value.tasks, b, s.now, s'.now);
  }

  lemma SameIsLighter(ledger: seq<SpendRecord>, held: seq<Held>, b: string)
    ensures Lighter(ledger, held, ledger, held, b)
  {
    UnderSelf(ledger, b);
    LighterLedger(ledger, ledger, held, b);
  }

  /** What fits with nothing left out fits with an approval left out, and later. */
  lemma FitsLeaving(policy: Policy, ledger: seq<SpendRecord>, held: seq<Held>, a: string, out: Option<string>, now: int,
                    later: int)
    requires a in policy.agents && Fits(policy.agents[a], Judged(ledger, held, None), a, now) && now <= later
    ensures Fits(policy.agents[a], Judged(ledger, held, out), a, later)
  {
    UnderSelf(ledger, a);
    UnderSelf(Spends(held), a);
    if out.Some? { WithoutIsUnder(held, out.value, a); }
    UnderConcat(ledger, ledger, Spends(Leaving(held, out)), Spends(held), a);
    FitsUnder(policy.agents[a], Judged(ledger, held, out), Judged(ledger, held, None), a, now, later);
  }

  /** Beginning a task: the reservations it leaves out are only those it is to make good. */
  lemma BeginKeeps(policy: Policy, ledger: seq<SpendRecord>, held: seq<Held>, tasks: map<string, Task>,
                   tasks': map<string, Task>, a: string, now: int, later: int)
    requires AgentOk(policy, ledger, held, tasks, a, now) && now <= later
    requires Overlap(tasks, a).None? && a in tasks' && Overlap(tasks', a).None? && GoodTask(a, tasks'[a])
    requires match tasks'[a]
             case Building(ask, approving) => !Decide(policy, Judged(ledger, held, approving), ask.req, later).Deny?
             case Asking(ask) => !Decide(policy, Judged(ledger, held, None), ask.req, later).Deny?
             case _ => true
    ensures AgentOk(policy, ledger, held, tasks', a, later)
  {
    if a in policy.agents { FitsLeaving(policy, ledger, held, a, None, now, later); }
    match tasks'[a]
    case Building(ask, approving) =>
      if a in policy.agents { FitsLeaving(policy, ledger, held, a, approving, now, later); }
      AdmittedHasRoom(policy, Judged(ledger, held, approving), ask, later);
    case Asking(ask) => AdmittedHasRoom(policy, Judged(ledger, held, None), ask, later);
    case _ =>
  }

  /** One spend, or two of them, that there is room for one after the other. */
  ghost predicate RoomForAll(policy: Policy, base: seq<SpendRecord>, rs: seq<SpendRecord>) {
    && 1 <= |rs| <= 2
    && Room(policy, base, rs[0])
    && (|rs| > 1 ==> Room(policy, base + [rs[0]], rs[1]) && rs[1].agentId == rs[0].agentId && rs[1].ts == rs[0].ts)
  }

  lemma LedgerIsUnder(ledger: seq<SpendRecord>, more: seq<SpendRecord>, a: string)
    ensures Under(ledger, ledger + more, a)
  {
    UnderSelf(ledger, a);
    UnderNothing(more, a);
    UnderConcat(ledger, ledger, [], more, a);
    assert ledger + [] == ledger;
  }

  lemma RoomRolls(policy: Policy, b: Books, held: seq<SpendRecord>, rs: seq<SpendRecord>, now: int)
    requires Rolling(policy, b.past + b.ledger) && Aged(b.past, now)
    requires RoomForAll(policy, b.ledger + held, rs) && now <= rs[0].ts
    ensures Rolling(policy, b.past + (b.ledger + rs))
  {
    var full, a, base := b.past + b.ledger, rs[0].agentId, b.ledger + held;
    LedgerIsUnder(b.ledger, held, a);
    RoomIsFitted(policy, b, base, rs[0], now);
    RollingMore(policy, full, rs[0]);
    if |rs| > 1 {
      var c := b.(ledger := b.ledger + [rs[0]]);
      UnderSelf([rs[0]], a);
      UnderConcat(b.ledger, base, [rs[0]], [rs[0]], a);
      RoomIsFitted(policy, c, base + [rs[0]], rs[1], now);
      assert c.past + c.ledger == full + [rs[0]];
      RollingMore(policy, full + [rs[0]], rs[1]);
      assert full + [rs[0]] + [rs[1]] == b.past + (b.ledger + rs);
    } else {
      assert full + [rs[0]] == b.past + (b.ledger + rs);
    }
  }

  lemma RoomFits(policy: Policy, ledger: seq<SpendRecord>, held: seq<SpendRecord>, rs: seq<SpendRecord>, later: int)
    requires RoomForAll(policy, ledger + held, rs) && rs[0].ts <= later
    ensures Fits(policy.agents[rs[0].agentId], ledger + rs + held, rs[0].agentId, later)
  {
    var a, ap := rs[0].agentId, policy.agents[rs[0].agentId];
    assert ledger + held + rs == if |rs| > 1 then ledger + held + [rs[0]] + [rs[1]] else ledger + held + [rs[0]];
    UnderSwap(ledger, rs, held, a);
    FitsUnder(ap, ledger + rs + held, ledger + held + rs, a, rs[0].ts, later);
  }

  /** Spending what there is room for, with the reservation it makes good left out from then on. */
  lemma SpendKeepsAgent(policy: Policy, ledger: seq<SpendRecord>, held: seq<Held>, rs: seq<SpendRecord>,
                        approving: Option<string>, tasks': map<string, Task>, later: int)
    requires RoomForAll(policy, Judged(ledger, held, approving), rs) && rs[0].ts <= later
    requires Overlap(tasks', rs[0].agentId) == approving
    requires rs[0].agentId in tasks' ==> !tasks'[rs[0].agentId].Building? && !tasks'[rs[0].agentId].Asking?
    ensures AgentOk(policy, ledger + rs, held, tasks', rs[0].agentId, later)
  {
    RoomFits(policy, ledger, Spends(Leaving(held, approving)), rs, later);
  }

  lemma {:induction false} SpendIsLighterForOthers(ledger: seq<SpendRecord>, rs: seq<SpendRecord>, held: seq<Held>,
                                                   b: string)
    requires forall i | 0 <= i < |rs| :: rs[i].agentId != b
    ensures Lighter(ledger + rs, held, ledger, held, b)
  {
    OthersWeighNothing(rs, b);
    UnderSelf(ledger, b);
    UnderConcat(ledger, ledger, rs, [], b);
    assert ledger + [] == ledger;
    LighterLedger(ledger + rs, ledger, held, b);
  }

  lemma LighterTwice(l2: seq<SpendRecord>, l1: seq<SpendRecord>, l0: seq<SpendRecord>, held: seq<Held>, b: string)
    requires Lighter(l2, held, l1, held, b) && Lighter(l1, held, l0, held, b)
    ensures Lighter(l2, held, l0, held, b)
  {
    forall out ensures Under(Judged(l2, held, out), Judged(l0, held, out), b) {
      assert Under(Judged(l2, held, out), Judged(l1, held, out), b)
             && Under(Judged(l1, held, out), Judged(l0, held, out), b);
      forall x, v, t ensures UnderAt(Judged(l2, held, out), Judged(l0, held, out), b, x, v, t) {
        assert UnderAt(Judged(l2, held, out), Judged(l1, held, out), b, x, v, t)
               && UnderAt(Judged(l1, held, out), Judged(l0, held, out), b, x, v, t);
      }
    }
  }

  lemma PrunedIsLighter(b: Books, at: int, held: seq<Held>, a: string)
    ensures Lighter(Pruned(b, at).ledger, held, b.ledger, held, a)
  {
    SuffixIsUnder(b.ledger, Expired(b.ledger, at - DAY), a);
    LighterLedger(Pruned(b, at).ledger, b.ledger, held, a);
  }

  lemma SpendRolls(policy: Policy, b: Books, held: seq<SpendRecord>, rs: seq<SpendRecord>, now: int, prunedAt: int)
    requires Rolling(policy, b.past + b.ledger) && Aged(b.past, now)
    requires RoomForAll(policy, b.ledger + held, rs) && now <= rs[0].ts
    ensures var c := Pruned(Spend(b, rs), prunedAt); Rolling(policy, c.past + c.ledger)
  {
    RoomRolls(policy, b, held, rs, now);
    var spent := Spend(b, rs);
    var n := Expired(spent.ledger, prunedAt - DAY);
    assert spent.ledger == spent.ledger[..n] + spent.ledger[n..];
    assert b.past + spent.ledger[..n] + spent.ledger[n..] == b.past + (b.ledger + rs);
  }

  /** Only this agent's task moves. */
  ghost predicate OnlyMoves(tasks': map<string, Task>, tasks: map<string, Task>, a: string) {
    forall b | b != a :: SameTask(tasks', tasks, b)
  }

  predicate SameTask(tasks': map<string, Task>, tasks: map<string, Task>, b: string) {
    (b in tasks' <==> b in tasks) && (b in tasks ==> tasks'[b] == tasks[b])
  }

  lemma SpendKeepsOther(env: Env, s: State, s': State, rs: seq<SpendRecord>, prunedAt: int, b: string)
    requires Within(env, s) && s.up.Some? && s'.up.Some? && WellTasked(s) && s.now <= s'.now
    requires s'.books == Pruned(Spend(s.books, rs), prunedAt) && s'.up.value.held == s.up.value.held
    requires SameTask(s'.up.value.tasks, s.up.value.tasks, b) && forall i | 0 <= i < |rs| :: rs[i].agentId != b
    ensures AgentOk(env.policy, s'.books.ledger, s'.up.value.held, s'.up.value.tasks, b, s'.now)
  {
    var held, spent := s.up.value.held, Spend(s.books, rs);
    PrunedIsLighter(spent, prunedAt, held, b);
    SpendIsLighterForOthers(s.books.ledger, rs, held, b);
    LighterTwice(s'.books.ledger, spent.ledger, s.books.ledger, held, b);
    OthersKeep(env, s, s', b);
  }

  lemma SpendKeepsOwn(policy: Policy, b: Books, held: seq<Held>, rs: seq<SpendRecord>, approving: Option<string>,
                      tasks': map<string, Task>, prunedAt: int, later: int)
    requires RoomForAll(policy, Judged(b.ledger, held, approving), rs) && rs[0].ts <= later
    requires Overlap(tasks', rs[0].agentId) == approving
    requires rs[0].agentId in tasks' ==> !tasks'[rs[0].agentId].Building? && !tasks'[rs[0].agentId].Asking?
    ensures AgentOk(policy, Pruned(Spend(b, rs), prunedAt).ledger, held, tasks', rs[0].agentId, later)
  {
    var a := rs[0].agentId;
    PrunedIsLighter(Spend(b, rs), prunedAt, held, a);
    SpendKeepsAgent(policy, b.ledger, held, rs, approving, tasks', rs[0].ts);
    LighterKeeps(policy, Pruned(Spend(b, rs), prunedAt).ledger, held, b.ledger + rs, held, tasks', tasks', a, rs[0].ts,
                 later);
  }

  /** A step that spends: its own agent's task moves on, everyone else's stands still. */
  lemma SpendKeeps(env: Env, s: State, s': State, rs: seq<SpendRecord>, approving: Option<string>, prunedAt: int)
    requires Within(env, s) && s.up.Some? && s'.up.Some? && WellTasked(s) && Aged(s.books.past, s.now)
    requires RoomForAll(env.policy, Judged(s.books.ledger, s.up.value.held, approving), rs)
             && s.now <= rs[0].ts <= prunedAt <= s'.now
    requires s'.books == Pruned(Spend(s.books, rs), prunedAt) && s'.up.value.held == s.up.value.held
    requires OnlyMoves(s'.up.value.tasks, s.up.value.tasks, rs[0].agentId)
             && Overlap(s'.up.value.tasks, rs[0].agentId) == approving
    requires rs[0].agentId in s'.up.value.tasks
             ==> !s'.up.value.tasks[rs[0].agentId].Building? && !s'.up.value.tasks[rs[0].agentId].Asking?
    ensures Within(env, s')
  {
    var held := s.up.value.held;
    SpendRolls(env.policy, s.books, Spends(Leaving(held, approving)), rs, s.now, prunedAt);
    forall b ensures AgentOk(env.policy, s'.books.ledger, s'.up.value.held, s'.up.value.tasks, b, s'.now) {
      if b == rs[0].agentId {
        SpendKeepsOwn(env.policy, s.books, held, rs, approving, s'.up.value.tasks, prunedAt, s'.now);
      } else {
        assert SameTask(s'.up.value.tasks, s.up.value.tasks, b);
        SpendKeepsOther(env, s, s', rs, prunedAt, b);
      }
    }
  }

  /** A payment that was admitted and whose overhead is. */
  lemma PaymentRoom(policy: Policy, base: seq<SpendRecord>, ask: Ask, b: Built, now: int, judgedAt: int, signedAt: int)
    requires WellAsked(ask) && !IsBatch(ask) && Room(policy, base, SpendFor(ask, now)) && now <= judgedAt <= signedAt
    requires DecideOverhead(policy, base, OverheadAsked(ask, b), judgedAt).Allow?
    ensures RoomForAll(policy, base, Payment(ask, b, signedAt))
  {
    UnderSelf(base, ask.req.agentId);
    RoomLater(policy, base, base, SpendFor(ask, now), judgedAt);
    OverheadHasRoom(policy, base, ask, b, judgedAt, signedAt);
  }

  lemma CommitKeeps(env: Env, s: State, a: Action)
    requires a.Commit? && Within(env, s) && WellTasked(s) && Aged(s.books.past, s.now)
    requires Placed(env, s, a) && Clocked(s, a) && Admitted(env, s, a)
    ensures Within(env, Do(env, s, a))
  {
    var t := TaskOf(s, a.agent);
    CommitRoom(env, s, a, a.signedAt);
    CommitMoves(env, s, a);
    SpendKeeps(env, s, Do(env, s, a), Payment(t.ask, a.built, a.signedAt), t.approving, a.prunedAt);
  }

  lemma CommitRoom(env: Env, s: State, a: Action, ts: int)
    requires a.Commit? && Within(env, s) && WellTasked(s) && a.judgedAt <= ts
    requires Placed(env, s, a) && Clocked(s, a) && Admitted(env, s, a)
    ensures var t := TaskOf(s, a.agent);
            RoomForAll(env.policy, Judged(s.books.ledger, s.up.value.held, t.approving), Payment(t.ask, a.built, ts))
  {
    var m, t := s.up.value, TaskOf(s, a.agent);
    assert GoodTask(a.agent, t);
    assert AgentOk(env.policy, s.books.ledger, m.held, m.tasks, a.agent, s.now);
    PaymentRoom(env.policy, Judged(s.books.ledger, m.held, t.approving), t.ask, a.built, s.now, a.judgedAt, ts);
  }

  lemma CommitMoves(env: Env, s: State, a: Action)
    requires a.Commit? && WellTasked(s) && Placed(env, s, a)
    ensures var t, s' := TaskOf(s, a.agent), Do(env, s, a);
            && OnlyMoves(s'.up.value.tasks, s.up.value.tasks, a.agent)
            && Overlap(s'.up.value.tasks, a.agent) == t.approving
            && (a.agent in s'.up.value.tasks ==> s'.up.value.tasks[a.agent].Recorded?)
            && t.ask.req.agentId == a.agent && s'.up.value.held == s.up.value.held
  {
    assert GoodTask(a.agent, TaskOf(s, a.agent));
  }

  lemma DrawRoom(env: Env, s: State, a: Action, ts: int)
    requires a.Draw? && Within(env, s) && a.judgedAt <= ts
    requires Placed(env, s, a) && Clocked(s, a) && Admitted(env, s, a)
    ensures RoomForAll(env.policy, Judged(s.books.ledger, s.up.value.held, TaskOf(s, a.ask.req.agentId).approving),
                       [SpendFor(a.ask, ts)])
  {
    var m, agent := s.up.value, a.ask.req.agentId;
    assert AgentOk(env.policy, s.books.ledger, m.held, m.tasks, agent, s.now);
    DrawFits(env.policy, s.books.ledger, m.held, m.tasks, agent, s.now, a.judgedAt);
    var base := Judged(s.books.ledger, m.held, m.tasks[agent].approving);
    AdmittedHasRoom(env.policy, base, a.ask, a.judgedAt);
    UnderSelf(base, agent);
    RoomLater(env.policy, base, base, SpendFor(a.ask, a.judgedAt), ts);
  }

  lemma DrawFits(policy: Policy, ledger: seq<SpendRecord>, held: seq<Held>, tasks: map<string, Task>, agent: string,
                 now: int, later: int)
    requires AgentFits(policy, ledger, held, tasks, agent, now) && agent in tasks && tasks[agent].Drawing?
             && now <= later
    ensures agent in policy.agents
            ==> Fits(policy.agents[agent], Judged(ledger, held, tasks[agent].approving), agent, later)
  {
    var base := Judged(ledger, held, tasks[agent].approving);
    if agent in policy.agents {
      if tasks[agent].spent {
        UnderSelf(base, agent);
        FitsUnder(policy.agents[agent], base, base, agent, now, later);
      } else {
        FitsLeaving(policy, ledger, held, agent, tasks[agent].approving, now, later);
      }
    }
  }

  lemma DrawMoves(env: Env, s: State, a: Action)
    requires a.Draw? && Placed(env, s, a)
    ensures var t, s', agent := TaskOf(s, a.ask.req.agentId), Do(env, s, a), a.ask.req.agentId;
            && OnlyMoves(s'.up.value.tasks, s.up.value.tasks, agent) && Overlap(s'.up.value.tasks, agent) == t.approving
            && agent in s'.up.value.tasks && s'.up.value.tasks[agent].Drawing? && s'.up.value.held == s.up.value.held
  {
  }

  lemma DrawKeeps(env: Env, s: State, a: Action)
    requires a.Draw? && Within(env, s) && WellTasked(s) && Aged(s.books.past, s.now)
    requires Placed(env, s, a) && Clocked(s, a) && Admitted(env, s, a)
    ensures Within(env, Do(env, s, a))
  {
    var t := TaskOf(s, a.ask.req.agentId);
    DrawRoom(env, s, a, a.pushedAt);
    DrawMoves(env, s, a);
    SpendKeeps(env, s, Do(env, s, a), [SpendFor(a.ask, a.pushedAt)], t.approving, a.prunedAt);
  }

  /** A step that leaves the ledger and the queue as they are, and moves one agent's task at most. */
  lemma TaskKeeps(env: Env, s: State, s': State, agent: string)
    requires Within(env, s) && s.up.Some? && s'.up.Some? && WellTasked(s) && s.now <= s'.now
    requires s'.books == s.books && s'.up.value.held == s.up.value.held
    requires OnlyMoves(s'.up.value.tasks, s.up.value.tasks, agent)
    requires AgentOk(env.policy, s'.books.ledger, s'.up.value.held, s'.up.value.tasks, agent, s'.now)
    ensures Within(env, s')
  {
    forall b ensures AgentOk(env.policy, s'.books.ledger, s'.up.value.held, s'.up.value.tasks, b, s'.now) {
      if b != agent {
        assert SameTask(s'.up.value.tasks, s.up.value.tasks, b);
        SameIsLighter(s.books.ledger, s.up.value.held, b);
        OthersKeep(env, s, s', b);
      }
    }
  }

  predicate Starts(a: Action) {
    a.Begin? || a.AskHuman? || a.Approve? || a.ApproveDraw? || a.BeginDraw?
  }

  function Agent(s: State, a: Action): string
    requires Starts(a) && (a.Approve? || a.ApproveDraw? ==> s.up.Some? && a.id in s.up.value.queue)
  {
    match a
    case Begin(ask, _) => ask.req.agentId
    case AskHuman(ask, _) => ask.req.agentId
    case Approve(id, _) => s.up.value.queue[id].req.agentId
    case ApproveDraw(id, _) => s.up.value.queue[id].req.agentId
    case BeginDraw(agent, _) => agent
    case _ => ""
  }

  lemma StartsKeep(env: Env, s: State, a: Action)
    requires Starts(a) && Within(env, s) && WellTasked(s)
    requires Placed(env, s, a) && Clocked(s, a) && Admitted(env, s, a)
    ensures Within(env, Do(env, s, a))
  {
    var m, agent, s' := s.up.value, Agent(s, a), Do(env, s, a);
    assert AgentOk(env.policy, s.books.ledger, m.held, m.tasks, agent, s.now);
    BeginKeeps(env.policy, s.books.ledger, m.held, m.tasks, s'.up.value.tasks, agent, s.now, s'.now);
    TaskKeeps(env, s, s', agent);
  }

  /** A step that leaves every task as it is, and only lightens what is counted. */
  lemma LighterStep(env: Env, s: State, s': State)
    requires Within(env, s) && s.up.Some? && s'.up.Some? && WellTasked(s) && s.now <= s'.now
    requires s'.up.value.tasks == s.up.value.tasks
    requires Rolling(env.policy, s'.books.past + s'.books.ledger)
    requires forall b :: Lighter(s'.books.ledger, s'.up.value.held, s.books.ledger, s.up.value.held, b)
    ensures Within(env, s')
  {
    forall b ensures AgentOk(env.policy, s'.books.ledger, s'.up.value.held, s'.up.value.tasks, b, s'.now) {
      OthersKeep(env, s, s', b);
    }
  }

  lemma AnswerKeeps(env: Env, s: State, a: Action)
    requires a.Answer? && Within(env, s) && WellTasked(s) && Placed(env, s, a) && Clocked(s, a)
    ensures Within(env, Do(env, s, a))
  {
    forall b { LighterHeld(s.books.ledger, s.up.value.held, a.id, b); }
    LighterStep(env, s, Do(env, s, a));
  }

  lemma RemoveFromSecond(xs: seq<SpendRecord>, ys: seq<SpendRecord>, i: nat)
    requires i < |ys|
    ensures RemoveAt(xs + ys, |xs| + i) == xs + RemoveAt(ys, i)
  {
  }

  lemma FreeRolls(policy: Policy, b: Books, tx: string)
    requires Rolling(policy, b.past + b.ledger)
    ensures Rolling(policy, History.Free(b, tx).past + History.Free(b, tx).ledger)
  {
    var i := FindTx(b.ledger, tx);
    if i < |b.ledger| {
      RollingLess(policy, b.past + b.ledger, |b.past| + i);
      RemoveFromSecond(b.past, b.ledger, i);
    }
  }

  lemma ReleaseKeeps(env: Env, s: State, a: Action)
    requires a.Release? && Within(env, s) && WellTasked(s) && Placed(env, s, a) && Clocked(s, a)
    ensures Within(env, Do(env, s, a))
  {
    var s' := Do(env, s, a);
    var i := FindTx(s.books.ledger, a.absent.tx.value);
    FreeRolls(env.policy, s.books, a.absent.tx.value);
    forall b ensures Lighter(s'.books.ledger, s.up.value.held, s.books.ledger, s.up.value.held, b) {
      if i < |s.books.ledger| {
        RemovedIsUnder(s.books.ledger, i, b);
        LighterLedger(s'.books.ledger, s.books.ledger, s.up.value.held, b);
      } else {
        SameIsLighter(s.books.ledger, s.up.value.held, b);
      }
    }
    LighterStep(env, s, s');
  }

  lemma IdleKeeps(env: Env, s: State, a: Action)
    requires (a.Tick? || a.Note? || a.Reconciled?) && Within(env, s) && WellTasked(s) && Placed(env, s, a)
             && Clocked(s, a)
    ensures Within(env, Do(env, s, a))
  {
    if s.up.Some? {
      forall b { SameIsLighter(s.books.ledger, s.up.value.held, b); }
      LighterStep(env, s, Do(env, s, a));
    }
  }

  lemma QueuedFits(policy: Policy, ledger: seq<SpendRecord>, held: seq<Held>, id: string, ask: Ask, now: int,
                   heldAt: int, later: int)
    requires Room(policy, Judged(ledger, held, None), SpendFor(ask, now)) && now <= heldAt <= later
    ensures Fits(policy.agents[ask.req.agentId], Judged(ledger, held + [Held(id, SpendFor(ask, heldAt))], None),
                 ask.req.agentId, later)
  {
    var base, a, h := Judged(ledger, held, None), ask.req.agentId, Held(id, SpendFor(ask, heldAt));
    UnderSelf(base, a);
    RoomLater(policy, base, base, SpendFor(ask, now), heldAt);
    LeavingMore(held, h, None);
    assert Judged(ledger, held + [h], None) == base + [h.spend];
    UnderSelf(base + [h.spend], a);
    FitsUnder(policy.agents[a], base + [h.spend], base + [h.spend], a, heldAt, later);
  }

  lemma EnqueueKeeps(env: Env, s: State, a: Action)
    requires a.Enqueue? && Within(env, s) && WellTasked(s) && Placed(env, s, a) && Clocked(s, a)
    ensures Within(env, Do(env, s, a))
  {
    var m, s' := s.up.value, Do(env, s, a);
    var ask := TaskOf(s, a.agent).ask;
    assert GoodTask(a.agent, TaskOf(s, a.agent));
    forall b ensures AgentOk(env.policy, s'.books.ledger, s'.up.value.held, s'.up.value.tasks, b, s'.now) {
      assert AgentOk(env.policy, s.books.ledger, m.held, m.tasks, b, s.now);
      if b == a.agent {
        QueuedFits(env.policy, s.books.ledger, m.held, a.id, ask, s.now, a.heldAt, a.at);
      } else {
        LighterOthers(s.books.ledger, m.held, Held(a.id, SpendFor(ask, a.heldAt)), b);
        OthersKeep(env, s, s', b);
      }
    }
  }

  lemma FinishKeeps(env: Env, s: State, a: Action)
    requires a.Finish? && Within(env, s) && WellTasked(s) && Placed(env, s, a) && Clocked(s, a)
    ensures Within(env, Do(env, s, a))
  {
    var m, s' := s.up.value, Do(env, s, a);
    var m', claim := s'.up.value, Claim(m.tasks[a.agent]);
    forall b ensures AgentOk(env.policy, s'.books.ledger, m'.held, m'.tasks, b, s'.now) {
      assert AgentOk(env.policy, s.books.ledger, m.held, m.tasks, b, s.now);
      if b == a.agent {
        if b in env.policy.agents {
          if Overlap(m.tasks, b).None? {
            FitsLeaving(env.policy, s.books.ledger, m.held, b, claim, s.now, s'.now);
          } else {
            UnderSelf(Judged(s.books.ledger, m.held, claim), b);
            FitsUnder(env.policy.agents[b], Judged(s.books.ledger, m.held, claim),
                      Judged(s.books.ledger, m.held, claim), b, s.now, s'.now);
          }
        }
      } else {
        if claim.Some? {
          LighterHeld(s.books.ledger, m.held, claim.value, b);
        } else {
          SameIsLighter(s.books.ledger, m.held, b);
        }
        OthersKeep(env, s, s', b);
      }
    }
  }

  // ---- crashes and starts ------------------------------------------------------------------------------

  /** The caps hold of a history at rest: nothing queued, no task. */
  lemma RestedFits(policy: Policy, b: Books, a: string, now: int)
    requires Rolling(policy, b.past + b.ledger) && NotAfter(b.past + b.ledger, now)
    ensures AgentOk(policy, b.ledger, [], map[], a, now)
  {
    if a in policy.agents {
      var full := b.past + b.ledger;
      assert Judged(b.ledger, [], None) == b.ledger;
      SuffixIsUnder(full, |b.past|, a);
      assert full[|b.past|..] == b.ledger;
      forall x | x in policy.agents[a].perTxMax ensures DaySpent(b.ledger, a, x, now) <= DailyCap(policy.agents[a], x) {
        assert UnderAt(b.ledger, full, a, x, false, now);
        DayNeverExceeds(policy, full, a, x, now);
      }
      forall v ensures HourCount(b.ledger, a, v, now) <= PerHour(policy.agents[a], v) {
        assert UnderAt(b.ledger, full, a, "", v, now);
        HourNeverExceeds(policy, full, a, v, now);
      }
    }
  }

  lemma StartKeeps(env: Env, s: State, a: Action)
    requires a.Start? && Within(env, s) && Agree(env, s) && Placed(env, s, a) && Clocked(s, a) && Restores(env, s, a)
    ensures Within(env, Do(env, s, a))
  {
    StartBooks(env, s, a);
    PruneInTime(s.books, s.now, a.readAt, a.at);
    var b := Pruned(s.books, a.readAt);
    forall x ensures AgentOk(env.policy, b.ledger, [], map[], x, a.at) {
      RestedFits(env.policy, b, x, a.at);
    }
  }

  lemma ByLogRolls(env: Env, s: State, a: Action)
    requires Within(env, s) && WellTasked(s) && Aged(s.books.past, s.now) && Placed(env, s, a) && Clocked(s, a)
             && Admitted(env, s, a)
    ensures var b := BooksByLog(env, s, a); Rolling(env.policy, b.past + b.ledger)
  {
    if a.Commit? {
      var t := TaskOf(s, a.agent);
      CommitRoom(env, s, a, a.at);
      RoomRolls(env.policy, s.books, Spends(Leaving(s.up.value.held, t.approving)), Payment(t.ask, a.built, a.at),
                s.now);
    } else if a.Draw? {
      var t := TaskOf(s, a.ask.req.agentId);
      DrawRoom(env, s, a, a.at);
      RoomRolls(env.policy, s.books, Spends(Leaving(s.up.value.held, t.approving)), [SpendFor(a.ask, a.at)], s.now);
    } else if a.Release? {
      FreeRolls(env.policy, s.books, a.absent.tx.value);
    }
  }

  lemma CutKeeps(env: Env, s: State, a: Action, n: nat, torn: string)
    requires Within(env, s) && Agree(env, s) && WellTasked(s) && Ordered(env, s, a) && Admitted(env, s, a)
    requires n <= |NotesOf(env, s, a)|
    ensures Within(env, CutShort(env, s, a, n, torn))
  {
    AgreeIsSavable(env, s);
    CutLearns(env, s, a, n);
    ByLogRolls(env, s, a);
  }

  lemma DoKeeps(env: Env, s: State, a: Action)
    requires Within(env, s) && Agree(env, s) && WellTasked(s) && Placed(env, s, a) && Clocked(s, a)
             && Admitted(env, s, a) && Restores(env, s, a)
    ensures Within(env, Do(env, s, a))
  {
    if Starts(a) {
      StartsKeep(env, s, a);
    } else {
      match a
      case Commit(_, _, _, _, _, _) => CommitKeeps(env, s, a);
      case Draw(_, _, _, _, _, _) => DrawKeeps(env, s, a);
      case Enqueue(_, _, _, _) => EnqueueKeeps(env, s, a);
      case Answer(_, _, _) => AnswerKeeps(env, s, a);
      case Finish(_, _, _) => FinishKeeps(env, s, a);
      case Release(_, _) => ReleaseKeeps(env, s, a);
      case Start(_, _, _) => StartKeeps(env, s, a);
      case _ => IdleKeeps(env, s, a);
    }
  }

  lemma MovedKeeps(env: Env, s: State, m: Move)
    requires Within(env, s) && Agree(env, s) && WellTasked(s)
    ensures Within(env, Moved(env, s, m))
  {
    if CanMove(env, s, m) {
      StartedRestores(env, s, m.a);
      match m
      case Cut(a, n, torn) => CutKeeps(env, s, a, n, torn);
      case Full(a) => DoKeeps(env, s, a);
    }
  }

  lemma {:induction false} EveryRunKeeps(env: Env, begun: int, moves: seq<Move>)
    ensures Within(env, After(env, begun, moves))
  {
    if moves != [] {
      EveryRunKeeps(env, begun, moves[..|moves| - 1]);
      EveryRunAgrees(env, begun, moves[..|moves| - 1]);
      MovedKeeps(env, After(env, begun, moves[..|moves| - 1]), moves[|moves| - 1]);
    }
  }

  // ---- the promises ------------------------------------------------------------------------------------

  /**
   * The caps, at every instant of every run. In any interleaving of requests, approvals, refusals,
   * vouchers, releases, crashes and starts, what the ledger counts for an agent over the last day is
   * within each of its daily caps and what it counts over the last hour within its rates, at every
   * time until the next step. While the daemon runs that holds with the queue's reservations counted
   * too, but for the one whose spend the ledger has and that is about to be dropped.
   */
  lemma CapsAlwaysHold(env: Env, begun: int, moves: seq<Move>, a: string, x: string, v: bool, at: int)
    requires var s := After(env, begun, moves); s.now <= at
    requires a in env.policy.agents && x in env.policy.agents[a].perTxMax
    ensures var s, ap := After(env, begun, moves), env.policy.agents[a];
            && DaySpent(s.books.ledger, a, x, at) <= DailyCap(ap, x)
            && HourCount(s.books.ledger, a, v, at) <= PerHour(ap, v)
            && (s.up.Some? ==>
                  var counted := Judged(s.books.ledger, s.up.value.held, Overlap(s.up.value.tasks, a));
                  DaySpent(counted, a, x, at) <= DailyCap(ap, x) && HourCount(counted, a, v, at) <= PerHour(ap, v))
  {
    var s, ap := After(env, begun, moves), env.policy.agents[a];
    EveryRunAgrees(env, begun, moves);
    EveryRunKeeps(env, begun, moves);
    RestedFits(env.policy, s.books, a, s.now);
    assert Judged(s.books.ledger, [], None) == s.books.ledger;
    WindowsShrink(s.books.ledger, a, x, v, s.now, at);
    if s.up.Some? {
      var counted := Judged(s.books.ledger, s.up.value.held, Overlap(s.up.value.tasks, a));
      assert AgentOk(env.policy, s.books.ledger, s.up.value.held, s.up.value.tasks, a, s.now);
      WindowsShrink(counted, a, x, v, s.now, at);
    }
  }

  /** And in any 24 hours of the whole history, pruned spends included, not only in those that end now. */
  lemma AnyDayIsCapped(env: Env, begun: int, moves: seq<Move>, a: string, x: string, from: int)
    requires a in env.policy.agents && x in env.policy.agents[a].perTxMax
    ensures var b := After(env, begun, moves).books;
            Weight(b.past + b.ledger, SpanWeight(a, x, from)) <= DailyCap(env.policy.agents[a], x)
  {
    EveryRunKeeps(env, begun, moves);
    var b := After(env, begun, moves).books;
    NoSpanExceeds(env.policy, b.past + b.ledger, a, x, from);
  }

  /**
   * The bounded ledger refines the full history: at every point of every run, whatever is left out of
   * the queue, each decision is the one that the history never pruned would give, now and later.
   */
  lemma PruningNeverShows(env: Env, begun: int, moves: seq<Move>, approving: Option<string>, req: PaymentRequest,
                          o: OverheadRequest, later: int)
    requires var s := After(env, begun, moves); s.up.Some? && s.now <= later
    ensures var s := After(env, begun, moves);
            var counted, full := Judged(s.books.ledger, s.up.value.held, approving),
              Judged(s.books.past + s.books.ledger, s.up.value.held, approving);
            && Decide(env.policy, counted, req, later) == Decide(env.policy, full, req, later)
            && DecideOverhead(env.policy, counted, o, later) == DecideOverhead(env.policy, full, o, later)
            && TimeSorted(s.books.past + s.books.ledger)
  {
    var s := After(env, begun, moves);
    EveryRunAgrees(env, begun, moves);
    PrunedDecidesAlike(env.policy, s.books, Spends(Leaving(s.up.value.held, approving)), req, o, s.now, later);
  }
}
