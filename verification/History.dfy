/**
 * The ledger beside the history it is the end of: what was ever recorded, what was given back, and
 * what has been pruned. Only `ledger` exists in the daemon; the rest says what it stands for.
 */
module History {
  import opened Wrappers
  import opened Policy
  import opened Replay
  import opened LogView
  import opened Journal

  /** `all` is every spend recorded, `gone` those given back; the others are in `past`, then `ledger`. */
  datatype Books = Books(all: seq<SpendRecord>, gone: seq<SpendRecord>, past: seq<SpendRecord>,
                         ledger: seq<SpendRecord>)

  const EMPTY := Books([], [], [], [])

  function Spend(b: Books, rs: seq<SpendRecord>): Books {
    b.(all := b.all + rs, ledger := b.ledger + rs)
  }

  /** The first spend of this transaction is given back; none, when it has left the window. */
  function Free(b: Books, tx: string): Books {
    var i := FindTx(b.ledger, tx);
    if i < |b.ledger| then b.(gone := b.gone + [b.ledger[i]], ledger := RemoveAt(b.ledger, i)) else b
  }

  /** How many of the first spends are older than this: where pruneLedger's loop stops. */
  function Expired(xs: seq<SpendRecord>, cutoff: int): (n: nat)
    ensures n <= |xs| && (forall i | 0 <= i < n :: xs[i].ts < cutoff) && (n < |xs| ==> xs[n].ts >= cutoff)
  {
    if xs == [] || xs[0].ts >= cutoff then 0 else 1 + Expired(xs[1..], cutoff)
  }

  function Pruned(b: Books, at: int): Books {
    var n := Expired(b.ledger, at - DAY);
    b.(past := b.past + b.ledger[..n], ledger := b.ledger[n..])
  }

  /** What a record of the log says happened. */
  function Learn(b: Books, e: Entry): Books {
    if IsSpend(e) && e.ts.Num? then Spend(b, ReadLogged(e).records)
    else if e.event.SpendReleased? && IsTxHash(e.tx) then Free(b, e.tx.s)
    else b
  }

  function LearnAll(b: Books, es: seq<Entry>): Books {
    if es == [] then b else Learn(LearnAll(b, es[..|es| - 1]), es[|es| - 1])
  }

  lemma LearnSteps(b: Books, e: Entry)
    ensures Learn(b, e).ledger == Step(b.ledger, e)
  {
  }

  // ---- what stays true of the history -------------------------------------------------------------

  function Weight(xs: seq<SpendRecord>, w: SpendRecord -> nat): nat {
    if xs == [] then 0 else Weight(xs[..|xs| - 1], w) + w(xs[|xs| - 1])
  }

  lemma {:induction false} WeightConcat(xs: seq<SpendRecord>, ys: seq<SpendRecord>, w: SpendRecord -> nat)
    ensures Weight(xs + ys, w) == Weight(xs, w) + Weight(ys, w)
  {
    if ys == [] {
      assert xs + ys == xs;
    } else {
      assert (xs + ys)[..|xs| + |ys| - 1] == xs + ys[..|ys| - 1];
      WeightConcat(xs, ys[..|ys| - 1], w);
    }
  }

  /** Nothing is lost: however spends are weighed, all of them are those given back and those still counted. */
  ghost predicate Conserved(b: Books) {
    forall w :: Weight(b.all, w) == Weight(b.gone, w) + Weight(b.past, w) + Weight(b.ledger, w)
  }

  lemma SpendConserves(b: Books, rs: seq<SpendRecord>)
    requires Conserved(b)
    ensures Conserved(Spend(b, rs))
  {
    forall w ensures Weight(b.all + rs, w) == Weight(b.gone, w) + Weight(b.past, w) + Weight(b.ledger + rs, w) {
      WeightConcat(b.all, rs, w);
      WeightConcat(b.ledger, rs, w);
    }
  }

  lemma FreeConserves(b: Books, tx: string)
    requires Conserved(b)
    ensures Conserved(Free(b, tx))
  {
    var i := FindTx(b.ledger, tx);
    if i < |b.ledger| {
      var r, before, after := b.ledger[i], b.ledger[..i], b.ledger[i + 1..];
      assert b.ledger == before + [r] + after;
      forall w ensures Weight(b.all, w) == Weight(b.gone + [r], w) + Weight(b.past, w) + Weight(before + after, w) {
        WeightConcat(b.gone, [r], w);
        WeightConcat(before, [r], w);
        WeightConcat(before + [r], after, w);
        WeightConcat(before, after, w);
      }
    }
  }

  lemma PruneConserves(b: Books, at: int)
    requires Conserved(b)
    ensures Conserved(Pruned(b, at))
  {
    var n := Expired(b.ledger, at - DAY);
    assert b.ledger == b.ledger[..n] + b.ledger[n..];
    forall w ensures Weight(b.all, w) == Weight(b.gone, w) + Weight(b.past + b.ledger[..n], w)
        + Weight(b.ledger[n..], w) {
      WeightConcat(b.past, b.ledger[..n], w);
      WeightConcat(b.ledger[..n], b.ledger[n..], w);
    }
  }

  predicate Aged(xs: seq<SpendRecord>, now: int) {
    forall i | 0 <= i < |xs| :: now - xs[i].ts > DAY
  }

  /** In time order up to now, with nothing of the last day pruned. */
  predicate InTime(b: Books, now: int) {
    TimeSorted(b.past + b.ledger) && NotAfter(b.past + b.ledger, now) && Aged(b.past, now)
  }

  lemma LedgerInTime(b: Books, now: int)
    requires InTime(b, now)
    ensures NotAfter(b.ledger, now) && TimeSorted(b.ledger)
  {
    assert forall i | 0 <= i < |b.ledger| :: (b.past + b.ledger)[|b.past| + i] == b.ledger[i];
  }

  lemma SpendInTime(b: Books, rs: seq<SpendRecord>, now: int, ts: int, later: int)
    requires InTime(b, now) && now <= ts <= later && forall i | 0 <= i < |rs| :: rs[i].ts == ts
    ensures InTime(Spend(b, rs), later)
  {
    assert b.past + (b.ledger + rs) == b.past + b.ledger + rs;
  }

  lemma FreeInTime(b: Books, tx: string, now: int, later: int)
    requires InTime(b, now) && now <= later
    ensures InTime(Free(b, tx), later)
  {
    var i := FindTx(b.ledger, tx);
    if i < |b.ledger| {
      var full, left := b.past + b.ledger, b.past + RemoveAt(b.ledger, i);
      assert forall k | 0 <= k < |left| :: left[k] == full[if k < |b.past| + i then k else k + 1];
    }
  }

  lemma PruneInTime(b: Books, now: int, at: int, later: int)
    requires InTime(b, now) && now <= at <= later
    ensures InTime(Pruned(b, at), later)
    ensures Pruned(b, at).past + Pruned(b, at).ledger == b.past + b.ledger
  {
  }

  /** In time order, what has expired is a prefix: pruning is exactly what replay's window does. */
  lemma {:induction false} PrunedIsWindow(xs: seq<SpendRecord>, cutoff: int)
    requires TimeSorted(xs)
    ensures xs[Expired(xs, cutoff)..] == InWindow(xs, cutoff)
  {
    var n := Expired(xs, cutoff);
    assert xs == xs[..n] + xs[n..];
    WindowConcat(xs[..n], xs[n..], cutoff);
    WindowEmpty(xs[..n], cutoff);
    WindowWhole(xs[n..], cutoff);
  }

  // ---- what the policy sees of it ------------------------------------------------------------------

  /**
   * The pruned ledger answers for the whole history: with anything held besides, at any time from
   * now on, each decision is the one the full history would give.
   */
  lemma PrunedDecidesAlike(policy: Policy, b: Books, held: seq<SpendRecord>, req: PaymentRequest, o: OverheadRequest,
                           now: int, later: int)
    requires InTime(b, now) && now <= later
    ensures Decide(policy, b.ledger + held, req, later) == Decide(policy, b.past + b.ledger + held, req, later)
    ensures DecideOverhead(policy, b.ledger + held, o, later)
            == DecideOverhead(policy, b.past + b.ledger + held, o, later)
  {
    assert b.past + b.ledger + held == b.past + (b.ledger + held);
    DaySpentConcat(b.past, b.ledger + held, req.agentId, req.asset, later);
    DaySpentConcat(b.past, b.ledger + held, o.agentId, LOVELACE, later);
    ExpiredWeighsNothing(b.past, req.agentId, req.asset, false, later);
    ExpiredWeighsNothing(b.past, o.agentId, LOVELACE, false, later);
    var batch := Or(req.scheme, "exact") == BATCH;
    HourCountConcat(b.past, b.ledger + held, req.agentId, batch, later);
    ExpiredWeighsNothing(b.past, req.agentId, req.asset, batch, later);
  }

  /** One list weighs no more than another in any window of an agent. */
  ghost predicate Under(xs: seq<SpendRecord>, ys: seq<SpendRecord>, a: string) {
    forall x, v, t :: UnderAt(xs, ys, a, x, v, t)
  }

  predicate UnderAt(xs: seq<SpendRecord>, ys: seq<SpendRecord>, a: string, x: string, v: bool, t: int) {
    DaySpent(xs, a, x, t) <= DaySpent(ys, a, x, t) && HourCount(xs, a, v, t) <= HourCount(ys, a, v, t)
  }

  lemma UnderConcat(xs: seq<SpendRecord>, ys: seq<SpendRecord>, p: seq<SpendRecord>, q: seq<SpendRecord>, a: string)
    requires Under(xs, ys, a) && Under(p, q, a)
    ensures Under(xs + p, ys + q, a)
  {
    forall x, v, t ensures UnderAt(xs + p, ys + q, a, x, v, t) {
      assert UnderAt(xs, ys, a, x, v, t) && UnderAt(p, q, a, x, v, t);
      DaySpentConcat(xs, p, a, x, t);
      DaySpentConcat(ys, q, a, x, t);
      HourCountConcat(xs, p, a, v, t);
      HourCountConcat(ys, q, a, v, t);
    }
  }

  lemma UnderSwap(xs: seq<SpendRecord>, ys: seq<SpendRecord>, zs: seq<SpendRecord>, a: string)
    ensures Under(xs + ys + zs, xs + zs + ys, a)
  {
    forall x, v, t ensures UnderAt(xs + ys + zs, xs + zs + ys, a, x, v, t) {
      DaySpentConcat(xs + ys, zs, a, x, t);
      DaySpentConcat(xs, ys, a, x, t);
      DaySpentConcat(xs + zs, ys, a, x, t);
      DaySpentConcat(xs, zs, a, x, t);
      HourCountConcat(xs + ys, zs, a, v, t);
      HourCountConcat(xs, ys, a, v, t);
      HourCountConcat(xs + zs, ys, a, v, t);
      HourCountConcat(xs, zs, a, v, t);
    }
  }

  /** Spends of others weigh nothing. */
  lemma {:induction false} OthersWeighNothing(xs: seq<SpendRecord>, a: string)
    requires forall i | 0 <= i < |xs| :: xs[i].agentId != a
    ensures Under(xs, [], a)
  {
    if xs != [] {
      OthersWeighNothing(xs[1..], a);
      forall x, v, t ensures UnderAt(xs, [], a, x, v, t) {
        assert UnderAt(xs[1..], [], a, x, v, t);
      }
    }
  }

  lemma SuffixIsUnder(xs: seq<SpendRecord>, n: nat, a: string)
    requires n <= |xs|
    ensures Under(xs[n..], xs, a)
  {
    assert xs == xs[..n] + xs[n..];
    forall x, v, t ensures UnderAt(xs[n..], xs, a, x, v, t) {
      DaySpentConcat(xs[..n], xs[n..], a, x, t);
      HourCountConcat(xs[..n], xs[n..], a, v, t);
    }
  }

  lemma RemovedIsUnder(xs: seq<SpendRecord>, i: nat, a: string)
    requires i < |xs|
    ensures Under(RemoveAt(xs, i), xs, a)
  {
    SuffixIsUnder(xs[i..], 1, a);
    assert xs[i..][1..] == xs[i + 1..];
    UnderConcat(xs[..i], xs[..i], xs[i + 1..], xs[i..], a);
    assert xs[..i] + xs[i..] == xs;
  }

  /** An agent's spends are within its caps at this time. */
  ghost predicate Fits(ap: AgentPolicy, xs: seq<SpendRecord>, a: string, now: int) {
    && (forall x | x in ap.perTxMax :: DaySpent(xs, a, x, now) <= DailyCap(ap, x))
    && (forall v :: HourCount(xs, a, v, now) <= PerHour(ap, v))
  }

  lemma FitsUnder(ap: AgentPolicy, xs: seq<SpendRecord>, ys: seq<SpendRecord>, a: string, now: int, later: int)
    requires Fits(ap, ys, a, now) && Under(xs, ys, a) && now <= later
    ensures Fits(ap, xs, a, later)
  {
    forall x | x in ap.perTxMax ensures DaySpent(xs, a, x, later) <= DailyCap(ap, x) {
      assert UnderAt(xs, ys, a, x, false, later);
      WindowsShrink(ys, a, x, false, now, later);
    }
    forall v ensures HourCount(xs, a, v, later) <= PerHour(ap, v) {
      assert UnderAt(xs, ys, a, "", v, later);
      WindowsShrink(ys, a, "", v, now, later);
    }
  }

  // ---- caps over a rolling window ------------------------------------------------------------------

  /** Each spend was within its agent's caps at the moment it is dated, together with all those before it. */
  predicate FittedAt(policy: Policy, before: seq<SpendRecord>, r: SpendRecord) {
    && r.agentId in policy.agents
    && var ap := policy.agents[r.agentId];
    && (r.asset in ap.perTxMax ==> DaySpent(before, r.agentId, r.asset, r.ts) + r.amount <= DailyCap(ap, r.asset))
    && (!r.overhead ==>
          r.asset in ap.perTxMax && HourCount(before, r.agentId, r.voucher, r.ts) + 1 <= PerHour(ap, r.voucher))
  }

  predicate Rolling(policy: Policy, full: seq<SpendRecord>) {
    forall k | 0 <= k < |full| :: FittedAt(policy, full[..k], full[k])
  }

  lemma RollingMore(policy: Policy, full: seq<SpendRecord>, r: SpendRecord)
    requires Rolling(policy, full) && FittedAt(policy, full, r)
    ensures Rolling(policy, full + [r])
  {
    var all := full + [r];
    forall k | 0 <= k < |all| ensures FittedAt(policy, all[..k], all[k]) {
      if k < |full| {
        assert all[..k] == full[..k];
        assert FittedAt(policy, full[..k], full[k]);
      } else {
        assert all[..k] == full;
      }
    }
  }

  lemma FittedUnder(policy: Policy, before: seq<SpendRecord>, less: seq<SpendRecord>, r: SpendRecord)
    requires FittedAt(policy, before, r) && Under(less, before, r.agentId)
    ensures FittedAt(policy, less, r)
  {
    assert UnderAt(less, before, r.agentId, r.asset, r.voucher, r.ts);
  }

  lemma RollingLess(policy: Policy, full: seq<SpendRecord>, i: nat)
    requires Rolling(policy, full) && i < |full|
    ensures Rolling(policy, RemoveAt(full, i))
  {
    var left := RemoveAt(full, i);
    forall k | 0 <= k < |left| ensures FittedAt(policy, left[..k], left[k]) {
      if k < i {
        assert left[..k] == full[..k] && FittedAt(policy, full[..k], full[k]);
      } else {
        assert FittedAt(policy, full[..k + 1], full[k + 1]);
        assert left[..k] == RemoveAt(full[..k + 1], i);
        RemovedIsUnder(full[..k + 1], i, full[k + 1].agentId);
        FittedUnder(policy, full[..k + 1], left[..k], full[k + 1]);
      }
    }
  }

  /** What an agent has in the day window never exceeds its cap, at the last spend's time or later. */
  lemma {:induction false} DayNeverExceeds(policy: Policy, full: seq<SpendRecord>, a: string, x: string, now: int)
    requires Rolling(policy, full) && NotAfter(full, now)
    requires a in policy.agents && x in policy.agents[a].perTxMax
    ensures DaySpent(full, a, x, now) <= DailyCap(policy.agents[a], x)
  {
    if full != [] {
      var n := |full| - 1;
      var before, last := full[..n], full[n];
      assert full == before + [last];
      DaySpentConcat(before, [last], a, x, now);
      if InDay(last, a, x, now) {
        assert FittedAt(policy, before, last);
        WindowsShrink(before, a, x, false, last.ts, now);
      } else {
        RollingPrefix(policy, full, n);
        DayNeverExceeds(policy, before, a, x, now);
      }
    }
  }

  lemma {:induction false} HourNeverExceeds(policy: Policy, full: seq<SpendRecord>, a: string, v: bool, now: int)
    requires Rolling(policy, full) && NotAfter(full, now)
    requires a in policy.agents
    ensures HourCount(full, a, v, now) <= PerHour(policy.agents[a], v)
  {
    if full != [] {
      var n := |full| - 1;
      var before, last := full[..n], full[n];
      assert full == before + [last];
      HourCountConcat(before, [last], a, v, now);
      if InHour(last, a, v, now) {
        assert FittedAt(policy, before, last);
        WindowsShrink(before, a, "", v, last.ts, now);
      } else {
        RollingPrefix(policy, full, n);
        HourNeverExceeds(policy, before, a, v, now);
      }
    }
  }

  lemma RollingPrefix(policy: Policy, full: seq<SpendRecord>, n: nat)
    requires Rolling(policy, full) && n <= |full|
    ensures Rolling(policy, full[..n])
  {
    forall k | 0 <= k < n ensures FittedAt(policy, full[..n][..k], full[..n][k]) {
      assert full[..n][..k] == full[..k] && FittedAt(policy, full[..k], full[k]);
    }
  }

  predicate InSpan(r: SpendRecord, a: string, x: string, from: int) {
    r.agentId == a && r.asset == x && from <= r.ts < from + DAY
  }

  /** What an agent's spends of an asset weigh in the 24 hours from an instant. */
  function SpanWeight(a: string, x: string, from: int): SpendRecord -> nat {
    r => if InSpan(r, a, x, from) then r.amount else 0
  }

  lemma {:induction false} SpanIsInDay(xs: seq<SpendRecord>, a: string, x: string, from: int, ts: int)
    requires ts < from + DAY
    ensures Weight(xs, SpanWeight(a, x, from)) <= DaySpent(xs, a, x, ts)
  {
    if xs != [] {
      var before, last := xs[..|xs| - 1], xs[|xs| - 1];
      SpanIsInDay(before, a, x, from, ts);
      assert xs == before + [last];
      DaySpentConcat(before, [last], a, x, ts);
    }
  }

  /** In any 24 hours, not only those that end now. */
  lemma {:induction false} NoSpanExceeds(policy: Policy, full: seq<SpendRecord>, a: string, x: string, from: int)
    requires Rolling(policy, full)
    requires a in policy.agents && x in policy.agents[a].perTxMax
    ensures Weight(full, SpanWeight(a, x, from)) <= DailyCap(policy.agents[a], x)
  {
    if full != [] {
      var n := |full| - 1;
      var before, last := full[..n], full[n];
      if InSpan(last, a, x, from) {
        assert FittedAt(policy, before, last);
        SpanIsInDay(before, a, x, from, last.ts);
      } else {
        RollingPrefix(policy, full, n);
        NoSpanExceeds(policy, before, a, x, from);
      }
    }
  }
}
