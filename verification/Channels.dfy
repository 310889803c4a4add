/**
 * The channel index beside the ledger: `commitVoucher` writes the one, then records the spend in the
 * other, in one step that a crash may cut in two. What a channel has signed and what the ledger and
 * its log have spent are related here over every run, crashes included.
 */
module Channels {
  import opened Wrappers
  import opened Policy
  import opened Replay
  import opened LogView
  import opened Journal
  import opened History
  import opened Daemon
  import opened Recovery
  import opened CrashRecovery
  import opened ChannelStore
  import opened Decimal
  import V = Vouchers

  datatype Joint = Joint(d: State, v: V.State)

  /**
   * A step of the daemon that is no voucher's, one on the index that spends nothing, or a voucher:
   * `w` writes the index and `m` is the daemon's draw, whole or cut short.
   */
  datatype Turn =
    | Money(m: Move)
    | Index(a: V.Action)
    | Voucher(m: Move, w: V.Action)

  /** What a commit or an opening adds to its channel. */
  function Adds(v: V.State, w: V.Action): nat
    requires V.Possible(v, w)
  {
    match w
    case Commit(agent, c, _) => V.Increment(v.tasks[agent].entry.value, c)
    case OpenWith(_, c, _) => c
    case _ => 0
  }

  /** The index write of this draw: for its agent, and for what it is judged as. */
  predicate Belongs(v: V.State, w: V.Action, draw: Action) {
    && draw.Draw? && V.Possible(v, w) && (w.Commit? || w.OpenWith?)
    && w.agent == draw.ask.req.agentId && Adds(v, w) == AmountOf(draw.ask) > 0
  }

  /** The same write, with a crash before the spend is recorded. */
  function Orphaning(w: V.Action): V.Action
    requires w.Commit? || w.OpenWith?
  {
    if w.Commit? then V.CrashAfterIndex(w.agent, w.cumulative, w.payTo)
    else V.CrashInOpening(w.agent, w.cumulative, w.made)
  }

  /** What became of a step of the daemon: it ended, or a crash cut it before or after the last of its records. */
  datatype Outcome = Ended | CutBefore | CutAfter

  function OutcomeOf(env: Env, s: State, m: Move): Outcome
    requires Placed(env, s, m.a)
  {
    if m.Full? then Ended else if m.written < |NotesOf(env, s, m.a)| then CutBefore else CutAfter
  }

  /** What a turn asks of the index. */
  predicate Fitting(v: V.State, t: Turn) {
    match t
    case Money(m) => !m.a.Draw?
    case Index(a) =>
      && V.Possible(v, a) && !a.OpenWith? && !a.CrashIdle? && !a.CrashAfterIndex? && !a.CrashInOpening?
      && Adds(v, a) == 0
    case Voucher(m, w) => Belongs(v, w, m.a)
  }

  predicate CanTurn(env: Env, j: Joint, t: Turn) {
    Fitting(j.v, t) && (!t.Index? ==> CanMove(env, j.d, t.m))
  }

  /** The index after it: a crash takes the tasks, and before the voucher's record it orphans the write. */
  function IndexAfter(v: V.State, t: Turn, o: Outcome): V.State
    requires Fitting(v, t)
  {
    match t
    case Money(_) => if o.Ended? then v else V.Do(v, V.CrashIdle)
    case Index(a) => V.Do(v, a)
    case Voucher(_, w) =>
      match o
      case Ended => V.Do(v, w)
      case CutBefore => V.Do(v, Orphaning(w))
      case CutAfter => V.Do(V.Do(v, w), V.CrashIdle)
  }

  function Turned(env: Env, j: Joint, t: Turn): Joint {
    if !CanTurn(env, j, t) then j
    else if t.Index? then j.(v := IndexAfter(j.v, t, Ended))
    else Joint(Next(env, j.d, t.m), IndexAfter(j.v, t, OutcomeOf(env, j.d, t.m)))
  }

  function RunOf(env: Env, begun: int, turns: seq<Turn>): Joint {
    if turns == [] then Joint(First(begun), V.START)
    else Turned(env, RunOf(env, begun, turns[..|turns| - 1]), turns[|turns| - 1])
  }

  // ---- what is compared ------------------------------------------------------------------------------------

  /** What an agent's vouchers come to among the spends recorded. */
  function VoucherWeight(agent: string): SpendRecord -> nat {
    (r: SpendRecord) => if r.voucher && r.agentId == agent then r.amount else 0
  }

  /** And among the increments on the index. */
  function SpentBy(events: seq<V.Event>, agent: string): nat {
    if events == [] then 0
    else
      var e := events[|events| - 1];
      SpentBy(events[..|events| - 1], agent) + if e.Spent? && e.agent == agent then e.n else 0
  }

  function Orphans(events: seq<V.Event>): nat {
    if events == [] then 0 else Orphans(events[..|events| - 1]) + if events[|events| - 1].Orphaned? then 1 else 0
  }

  function Crashes(turns: seq<Turn>): nat {
    if turns == [] then 0
    else Crashes(turns[..|turns| - 1]) + if !turns[|turns| - 1].Index? && turns[|turns| - 1].m.Cut? then 1 else 0
  }

  lemma {:induction false} SpentConcat(xs: seq<V.Event>, ys: seq<V.Event>, agent: string)
    ensures SpentBy(xs + ys, agent) == SpentBy(xs, agent) + SpentBy(ys, agent)
    ensures Orphans(xs + ys) == Orphans(xs) + Orphans(ys)
  {
    if ys == [] {
      assert xs + ys == xs;
    } else {
      assert (xs + ys)[..|xs| + |ys| - 1] == xs + ys[..|ys| - 1];
      SpentConcat(xs, ys[..|ys| - 1], agent);
    }
  }

  /** What a write adds to the events: what is lost, which is no spend, and the change. */
  lemma ChangeSpends(v: V.State, id: string, e: ChannelEntry, base: nat, change: seq<V.Event>, agent: string)
    requires |change| <= 1
    ensures var events := V.Write(v, id, e, base, change).events;
            && SpentBy(events, agent) == SpentBy(v.events, agent) + SpentBy(change, agent)
            && Orphans(events) == Orphans(v.events) + Orphans(change)
  {
    var over := V.Overwritten(id, V.SignedOn(v.index, id) - base);
    assert [over][..0] == [];
    SpentConcat([over], change, agent);
    SpentConcat(v.events, V.Changes(v.index, id, base, change), agent);
  }

  lemma OneSpends(e: V.Event, agent: string)
    ensures SpentBy([e], agent) == if e.Spent? && e.agent == agent then e.n else 0
    ensures Orphans([e]) == if e.Orphaned? then 1 else 0
  {
    assert [e][..0] == [];
  }

  // ---- the index's side ------------------------------------------------------------------------------------

  /** A write that is recorded adds its amount to its agent's increments, and orphans nothing. */
  lemma WriteSpends(v: V.State, w: V.Action, draw: Action, agent: string)
    requires Belongs(v, w, draw)
    ensures var n := if agent == w.agent then Adds(v, w) else 0;
            SpentBy(V.Do(v, w).events, agent) == SpentBy(v.events, agent) + n
    ensures Orphans(V.Do(v, w).events) == Orphans(v.events)
  {
    var id := v.tasks[w.agent].id;
    OneSpends(V.Spent(id, w.agent, Adds(v, w)), agent);
    if w.Commit? {
      var e := v.tasks[w.agent].entry.value;
      ChangeSpends(v, id, V.WithSigned(e, w.cumulative, w.payTo), V.Signed(e), [V.Spent(id, w.agent, Adds(v, w))],
                   agent);
    } else {
      ChangeSpends(v, id, V.WithSigned(w.made, w.cumulative, w.made.payTo), 0, [V.Spent(id, w.agent, w.cumulative)],
                   agent);
    }
  }

  /** One that a crash leaves unrecorded is an orphan, and no increment. */
  lemma OrphanSpendsNothing(v: V.State, w: V.Action, draw: Action, agent: string)
    requires Belongs(v, w, draw)
    ensures V.Possible(v, Orphaning(w))
    ensures SpentBy(V.Do(v, Orphaning(w)).events, agent) == SpentBy(v.events, agent)
    ensures Orphans(V.Do(v, Orphaning(w)).events) == Orphans(v.events) + 1
  {
    var id := v.tasks[w.agent].id;
    OneSpends(V.Orphaned(id, Adds(v, w)), agent);
    if w.Commit? {
      var e := v.tasks[w.agent].entry.value;
      ChangeSpends(v, id, V.WithSigned(e, w.cumulative, w.payTo), V.Signed(e), [V.Orphaned(id, Adds(v, w))], agent);
    } else {
      ChangeSpends(v, id, V.WithSigned(w.made, w.cumulative, w.made.payTo), 0, [V.Orphaned(id, w.cumulative)], agent);
    }
  }

  lemma QuietSpendsNothing(v: V.State, a: V.Action, agent: string)
    requires V.Possible(v, a) && !a.OpenWith? && !a.CrashAfterIndex? && !a.CrashInOpening? && Adds(v, a) == 0
    ensures SpentBy(V.Do(v, a).events, agent) == SpentBy(v.events, agent)
            && Orphans(V.Do(v, a).events) == Orphans(v.events)
  {
    match a
    case MoveAnchor(who, id, anchor) =>
      var read := v.tasks[who].snapshot[id];
      ChangeSpends(v, id, read.(anchor := anchor), V.Signed(read), [], agent);
    case CloseOut(who, id) =>
      var read := v.tasks[who].snapshot[id];
      ChangeSpends(v, id, read.(status := "closed"), V.Signed(read), [], agent);
    case Lift(who, charged) =>
      var id, e := v.tasks[who].id, v.tasks[who].read;
      if charged > V.Signed(e) {
        OneSpends(V.Lifted(id, charged - V.Signed(e)), agent);
        ChangeSpends(v, id, e.(signedMax := ToDecimal(charged)), V.Signed(e), [V.Lifted(id, charged - V.Signed(e))],
                     agent);
      }
    case Recover(who, subbed, found) =>
      OneSpends(V.Based(v.tasks[who].id, subbed), agent);
      ChangeSpends(v, v.tasks[who].id, found, 0, [V.Based(v.tasks[who].id, subbed)], agent);
    case _ =>
  }

  // ---- the daemon's side -----------------------------------------------------------------------------------

  lemma WeightOfOne(r: SpendRecord, w: SpendRecord -> nat)
    ensures Weight([r], w) == w(r)
  {
    assert [r][..0] == [];
  }

  /** A payment is no voucher. */
  lemma PaymentWeighsNothing(ask: Ask, built: Built, ts: int, agent: string)
    ensures Weight(Payment(ask, built, ts), VoucherWeight(agent)) == 0
  {
    var rs, w := Payment(ask, built, ts), VoucherWeight(agent);
    WeightOfOne(rs[0], w);
    if |rs| > 1 {
      WeightOfOne(rs[1], w);
      WeightConcat([rs[0]], [rs[1]], w);
      assert rs == [rs[0]] + [rs[1]];
    } else {
      assert rs == [rs[0]];
    }
  }

  lemma VoucherWeighs(all: seq<SpendRecord>, ask: Ask, ts: int, agent: string)
    requires IsBatch(ask)
    ensures Weight(all + [SpendFor(ask, ts)], VoucherWeight(agent))
         == Weight(all, VoucherWeight(agent)) + if ask.req.agentId == agent then AmountOf(ask) else 0
  {
    WeightConcat(all, [SpendFor(ask, ts)], VoucherWeight(agent));
    WeightOfOne(SpendFor(ask, ts), VoucherWeight(agent));
  }

  lemma OthersWeighNoVoucher(env: Env, s: State, a: Action, agent: string)
    requires Placed(env, s, a) && !a.Draw?
    ensures Weight(BooksOf(env, s, a).all, VoucherWeight(agent)) == Weight(s.books.all, VoucherWeight(agent))
    ensures Weight(BooksByLog(env, s, a).all, VoucherWeight(agent)) == Weight(s.books.all, VoucherWeight(agent))
  {
    if a.Commit? {
      var ask := TaskOf(s, a.agent).ask;
      PaymentWeighsNothing(ask, a.built, a.signedAt, agent);
      PaymentWeighsNothing(ask, a.built, a.at, agent);
      WeightConcat(s.books.all, Payment(ask, a.built, a.signedAt), VoucherWeight(agent));
      WeightConcat(s.books.all, Payment(ask, a.built, a.at), VoucherWeight(agent));
    }
  }

  /**
   * What one step of the daemon, whole or cut, adds to an agent's vouchers: the draw's amount once
   * its record is written.
   */
  function Recorded(a: Action, o: Outcome, agent: string): nat {
    if !a.Draw? || a.ask.req.agentId != agent || o.CutBefore? then 0 else AmountOf(a.ask)
  }

  lemma CutRecords(env: Env, s: State, a: Action, n: nat, torn: string, agent: string)
    requires Agree(env, s) && WellTasked(s) && Ordered(env, s, a) && n <= |NotesOf(env, s, a)|
    ensures Weight(CutShort(env, s, a, n, torn).books.all, VoucherWeight(agent))
         == Weight(s.books.all, VoucherWeight(agent)) + Recorded(a, OutcomeOf(env, s, Cut(a, n, torn)), agent)
  {
    if a.Draw? {
      DrawLearns(env, s, a, n);
      VoucherWeighs(s.books.all, a.ask, a.at, agent);
    } else {
      AgreeIsSavable(env, s);
      CutLearns(env, s, a, n);
      OthersWeighNoVoucher(env, s, a, agent);
    }
  }

  lemma DoRecords(env: Env, s: State, a: Action, agent: string)
    requires Placed(env, s, a)
    ensures Weight(Do(env, s, a).books.all, VoucherWeight(agent)) == Weight(s.books.all, VoucherWeight(agent))
            + Recorded(a, Ended, agent)
  {
    if a.Draw? {
      VoucherWeighs(s.books.all, a.ask, a.pushedAt, agent);
    } else if !a.Tick? {
      OthersWeighNoVoucher(env, s, a, agent);
    }
  }

  lemma MoveRecords(env: Env, s: State, m: Move, agent: string)
    requires Agree(env, s) && WellTasked(s) && CanMove(env, s, m)
    ensures Weight(Next(env, s, m).books.all, VoucherWeight(agent)) == Weight(s.books.all, VoucherWeight(agent))
            + Recorded(m.a, OutcomeOf(env, s, m), agent)
  {
    match m
    case Cut(a, n, torn) => CutRecords(env, s, a, n, torn, agent);
    case Full(a) => DoRecords(env, s, a, agent);
  }

  // ---- every run -------------------------------------------------------------------------------------------

  ghost predicate Even(env: Env, j: Joint) {
    && Agree(env, j.d) && WellTasked(j.d) && V.Balanced(j.v.index, j.v.events)
    && forall agent :: Weight(j.d.books.all, VoucherWeight(agent)) == SpentBy(j.v.events, agent)
  }

  /** What a turn adds to an agent's increments. */
  function Increments(t: Turn, o: Outcome, agent: string): nat {
    if t.Voucher? then Recorded(t.m.a, o, agent) else 0
  }

  lemma IndexTurn(v: V.State, t: Turn, o: Outcome, agent: string)
    requires Fitting(v, t) && (t.Index? ==> o.Ended?)
    ensures SpentBy(IndexAfter(v, t, o).events, agent) == SpentBy(v.events, agent) + Increments(t, o, agent)
    ensures Orphans(IndexAfter(v, t, o).events) <= Orphans(v.events) + if o.Ended? then 0 else 1
  {
    match t
    case Money(_) =>
    case Index(a) => QuietSpendsNothing(v, a, agent);
    case Voucher(m, w) =>
      if o.CutBefore? { OrphanSpendsNothing(v, w, m.a, agent); } else { WriteSpends(v, w, m.a, agent); }
  }

  lemma IndexStaysBalanced(v: V.State, t: Turn, o: Outcome)
    requires Fitting(v, t) && V.Balanced(v.index, v.events)
    ensures V.Balanced(IndexAfter(v, t, o).index, IndexAfter(v, t, o).events)
  {
    match t
    case Money(_) =>
    case Index(a) => V.ActionBalances(v, a);
    case Voucher(m, w) =>
      if o.CutBefore? {
        OrphanSpendsNothing(v, w, m.a, "");
        V.ActionBalances(v, Orphaning(w));
      } else {
        V.ActionBalances(v, w);
      }
  }

  function TurnOutcome(env: Env, j: Joint, t: Turn): Outcome
    requires !t.Index? ==> Placed(env, j.d, t.m.a)
  {
    if t.Index? then Ended else OutcomeOf(env, j.d, t.m)
  }

  lemma DaemonTurn(env: Env, j: Joint, t: Turn, agent: string)
    requires CanTurn(env, j, t) && Agree(env, j.d) && WellTasked(j.d)
    ensures var d := Turned(env, j, t).d;
            && Agree(env, d) && WellTasked(d)
            && Weight(d.books.all, VoucherWeight(agent))
            == Weight(j.d.books.all, VoucherWeight(agent)) + Increments(t, TurnOutcome(env, j, t), agent)
  {
    if !t.Index? {
      MoveAgrees(env, j.d, t.m);
      MoveRecords(env, j.d, t.m, agent);
    }
  }

  lemma TurnedIndex(env: Env, j: Joint, t: Turn)
    requires CanTurn(env, j, t)
    ensures Turned(env, j, t).v == IndexAfter(j.v, t, TurnOutcome(env, j, t))
  {
  }

  lemma AgentStaysEven(env: Env, j: Joint, t: Turn, agent: string)
    requires CanTurn(env, j, t) && Agree(env, j.d) && WellTasked(j.d)
    requires Weight(j.d.books.all, VoucherWeight(agent)) == SpentBy(j.v.events, agent)
    ensures Weight(Turned(env, j, t).d.books.all, VoucherWeight(agent)) == SpentBy(Turned(env, j, t).v.events, agent)
  {
    TurnedIndex(env, j, t);
    IndexTurn(j.v, t, TurnOutcome(env, j, t), agent);
    DaemonTurn(env, j, t, agent);
  }

  lemma TurnStaysSound(env: Env, j: Joint, t: Turn)
    requires CanTurn(env, j, t) && Agree(env, j.d) && WellTasked(j.d) && V.Balanced(j.v.index, j.v.events)
    ensures var j' := Turned(env, j, t);
            Agree(env, j'.d) && WellTasked(j'.d) && V.Balanced(j'.v.index, j'.v.events)
  {
    TurnedIndex(env, j, t);
    IndexStaysBalanced(j.v, t, TurnOutcome(env, j, t));
    DaemonTurn(env, j, t, "");
  }

  lemma TurnKeepsEven(env: Env, j: Joint, t: Turn)
    requires Even(env, j)
    ensures Even(env, Turned(env, j, t))
  {
    if CanTurn(env, j, t) {
      TurnStaysSound(env, j, t);
      var j' := Turned(env, j, t);
      forall agent ensures Weight(j'.d.books.all, VoucherWeight(agent)) == SpentBy(j'.v.events, agent) {
        AgentStaysEven(env, j, t, agent);
      }
    }
  }

  lemma TurnOrphansOne(env: Env, j: Joint, t: Turn)
    ensures Orphans(Turned(env, j, t).v.events) <= Orphans(j.v.events) + if !t.Index? && t.m.Cut? then 1 else 0
  {
    if CanTurn(env, j, t) { IndexTurn(j.v, t, TurnOutcome(env, j, t), ""); }
  }

  lemma {:induction false} EveryRunIsEven(env: Env, begun: int, turns: seq<Turn>)
    ensures Even(env, RunOf(env, begun, turns)) && Orphans(RunOf(env, begun, turns).v.events) <= Crashes(turns)
  {
    if turns == [] {
      EveryRunAgrees(env, begun, []);
    } else {
      EveryRunIsEven(env, begun, turns[..|turns| - 1]);
      TurnKeepsEven(env, RunOf(env, begun, turns[..|turns| - 1]), turns[|turns| - 1]);
      TurnOrphansOne(env, RunOf(env, begun, turns[..|turns| - 1]), turns[|turns| - 1]);
    }
  }

  /**
   * The counters agree with the ledger, over every run of the daemon and its channel index, crashes
   * included. An agent's vouchers among all spends ever recorded come to exactly the increments on the
   * index that are its own; a channel's amount is those on it with the lifts, its base and the orphans,
   * less what was written over; and each crash orphans at most one.
   */
  lemma CounterAgreesWithLedger(env: Env, begun: int, turns: seq<Turn>, agent: string, id: string)
    ensures var j := RunOf(env, begun, turns);
            && Weight(j.d.books.all, VoucherWeight(agent)) == SpentBy(j.v.events, agent)
            && V.SignedOn(j.v.index, id) == V.Sum(j.v.events, id)
            && Orphans(j.v.events) <= Crashes(turns)
  {
    EveryRunIsEven(env, begun, turns);
  }
}
