/**
 * The caps over whole runs: what each agent has spent, together with what the queue and its own task
 * have promised it, is within its policy at every instant, however requests interleave.
 */
module Caps {
  import opened Wrappers
  import opened Decimal
  import opened Policy
  import opened Replay
  import opened LogView
  import opened Journal
  import opened History
  import opened Daemon

  // ---- room for a spend ------------------------------------------------------------------------------

  /** The agent's caps hold with this spend added to a ledger, at the time it is dated. */
  ghost predicate Room(policy: Policy, base: seq<SpendRecord>, r: SpendRecord) {
    && r.agentId in policy.agents
    && (!r.overhead ==> r.asset in policy.agents[r.agentId].perTxMax)
    && Fits(policy.agents[r.agentId], base + [r], r.agentId, r.ts)
  }

  lemma OneWeighs(r: SpendRecord, a: string, x: string, v: bool, now: int)
    ensures DaySpent([r], a, x, now) == if InDay(r, a, x, now) then r.amount else 0
    ensures HourCount([r], a, v, now) == if InHour(r, a, v, now) then 1 else 0
  {
    assert [r][1..] == [];
  }

  lemma AddingFits(ap: AgentPolicy, base: seq<SpendRecord>, r: SpendRecord, now: int)
    requires Fits(ap, base, r.agentId, now)
    requires r.asset in ap.perTxMax ==> DaySpent(base, r.agentId, r.asset, now) + r.amount <= DailyCap(ap, r.asset)
    requires !r.overhead ==> HourCount(base, r.agentId, r.voucher, now) + 1 <= PerHour(ap, r.voucher)
    ensures Fits(ap, base + [r], r.agentId, now)
  {
    var a := r.agentId;
    forall x | x in ap.perTxMax ensures DaySpent(base + [r], a, x, now) <= DailyCap(ap, x) {
      DaySpentConcat(base, [r], a, x, now);
      OneWeighs(r, a, x, false, now);
    }
    forall v ensures HourCount(base + [r], a, v, now) <= PerHour(ap, v) {
      HourCountConcat(base, [r], a, v, now);
      OneWeighs(r, a, "", v, now);
    }
  }

  /** What `decide` admits, it leaves room for. */
  lemma AdmittedHasRoom(policy: Policy, base: seq<SpendRecord>, ask: Ask, now: int)
    requires WellAsked(ask) && !Decide(policy, base, ask.req, now).Deny?
    requires ask.req.agentId in policy.agents ==> Fits(policy.agents[ask.req.agentId], base, ask.req.agentId, now)
    ensures Room(policy, base, SpendFor(ask, now))
  {
    AdmittedFits(policy, base, ask.req, now);
    AddingFits(policy.agents[ask.req.agentId], base, SpendFor(ask, now), now);
  }

  /** A spend weighs the same at its own time, whenever that is. */
  lemma RoomLater(policy: Policy, base: seq<SpendRecord>, less: seq<SpendRecord>, r: SpendRecord, later: int)
    requires Room(policy, base, r) && r.ts <= later && Under(less, base, r.agentId)
    ensures Room(policy, less, r.(ts := later))
  {
    var ap, a, q := policy.agents[r.agentId], r.agentId, r.(ts := later);
    forall x | x in ap.perTxMax ensures DaySpent(less + [q], a, x, later) <= DailyCap(ap, x) {
      DaySpentConcat(less, [q], a, x, later);
      DaySpentConcat(base, [r], a, x, r.ts);
      OneWeighs(q, a, x, false, later);
      OneWeighs(r, a, x, false, r.ts);
      assert UnderAt(less, base, a, x, false, later);
      WindowsShrink(base, a, x, false, r.ts, later);
    }
    forall v ensures HourCount(less + [q], a, v, later) <= PerHour(ap, v) {
      HourCountConcat(less, [q], a, v, later);
      HourCountConcat(base, [r], a, v, r.ts);
      OneWeighs(q, a, "", v, later);
      OneWeighs(r, a, "", v, r.ts);
      assert UnderAt(less, base, a, "", v, later);
      WindowsShrink(base, a, "", v, r.ts, later);
    }
  }

  /** Room in a ledger is room in the history it is the end of. */
  lemma RoomIsFitted(policy: Policy, b: Books, base: seq<SpendRecord>, r: SpendRecord, now: int)
    requires Room(policy, base, r) && Under(b.ledger, base, r.agentId) && Aged(b.past, now) && now <= r.ts
    ensures FittedAt(policy, b.past + b.ledger, r)
  {
    var a, x, v := r.agentId, r.asset, r.voucher;
    DaySpentConcat(b.past, b.ledger, a, x, r.ts);
    HourCountConcat(b.past, b.ledger, a, v, r.ts);
    ExpiredWeighsNothing(b.past, a, x, v, r.ts);
    assert UnderAt(b.ledger, base, a, x, v, r.ts);
    DaySpentConcat(base, [r], a, x, r.ts);
    HourCountConcat(base, [r], a, v, r.ts);
    OneWeighs(r, a, x, v, r.ts);
  }

  // ---- payments with their overhead --------------------------------------------------------------------

  /** What `decideOverhead` admits: the overhead, on top of a payment there is room for. */
  lemma OverheadHasRoom(policy: Policy, base: seq<SpendRecord>, ask: Ask, b: Built, now: int, ts: int)
    requires WellAsked(ask) && !IsBatch(ask) && Room(policy, base, SpendFor(ask, now)) && now <= ts
    requires DecideOverhead(policy, base, OverheadAsked(ask, b), now).Allow?
    ensures var rs := Payment(ask, b, ts);
            && Room(policy, base, rs[0])
            && (|rs| > 1 ==> |rs| == 2 && Room(policy, base + [rs[0]], rs[1]))
  {
    var ap, a, rs := policy.agents[ask.req.agentId], ask.req.agentId, Payment(ask, b, ts);
    PaymentWeighs(policy, base, ask, b, now, ts);
    if |rs| > 1 {
      DaySpentConcat(base, [rs[0]], a, LOVELACE, ts);
      OneWeighs(rs[0], a, LOVELACE, false, ts);
      WindowsShrink(base, a, LOVELACE, false, now, ts);
      if LOVELACE in ap.perTxMax { OverheadFits(policy, base, OverheadAsked(ask, b), now); }
      AddingFits(ap, base + [rs[0]], rs[1], ts);
    }
  }

  lemma UnderSelf(xs: seq<SpendRecord>, a: string)
    ensures Under(xs, xs, a)
  {
    forall x, v, t ensures UnderAt(xs, xs, a, x, v, t) {
    }
  }

  /** The payment itself weighs what its request was judged to. */
  lemma PaymentWeighs(policy: Policy, base: seq<SpendRecord>, ask: Ask, b: Built, now: int, ts: int)
    requires !IsBatch(ask) && Room(policy, base, SpendFor(ask, now)) && now <= ts
    ensures Room(policy, base, Payment(ask, b, ts)[0])
  {
    var p, q := SpendFor(ask, ts), Payment(ask, b, ts)[0];
    var ap, a := policy.agents[ask.req.agentId], ask.req.agentId;
    UnderSelf(base, a);
    RoomLater(policy, base, base, SpendFor(ask, now), ts);
    forall x, v, t ensures UnderAt([q], [p], a, x, v, t) {
      OneWeighs(p, a, x, v, t);
      OneWeighs(q, a, x, v, t);
    }
    UnderConcat(base, base, [q], [p], a);
    FitsUnder(ap, base + [q], base + [p], a, ts, ts);
  }
}
