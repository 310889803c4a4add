/**
 * What is signed on each channel: `commitVoucher`, `liftSignedMax`, the store updates of `lockedBy`
 * and the recovery of channels, in signerd.ts. Each reads an entry, waits, and writes back what it
 * read with a field changed, under the lock of the agent it is for and of no other.
 */
module Vouchers {
  import opened ChannelStore
  import opened Decimal
  import opened Wrappers

  /** What a task under an agent's lock has read and is still to write from. */
  datatype Task =
    | Holding
    | Authorizing(id: string, entry: Option<ChannelEntry>)
    | Following(id: string, entry: Option<ChannelEntry>, snapshot: Index)
    | Lifting(id: string, read: ChannelEntry)
    | Recovering(id: string)

  /**
   * What moved a channel's highest signed amount. `Overwritten` is by how much more the index held
   * than what the writer had read; less than nothing when it held less.
   */
  datatype Event =
    | Based(id: string, n: nat)
    | Spent(id: string, agent: string, n: nat)
    | Lifted(id: string, n: nat)
    | Orphaned(id: string, n: nat)
    | Overwritten(id: string, lost: int)

  /** `authorised` lists the cumulative amounts of the vouchers that were let out. */
  datatype State = State(index: Index, tasks: map<string, Task>, events: seq<Event>, authorised: seq<(string, nat)>)

  datatype Action =
    | TakeLock(agent: string)
    | DropLock(agent: string)
    | Authorize(agent: string, id: string)
    | FollowChannels(agent: string)
    | MoveAnchor(agent: string, id: string, anchor: string)
    | CloseOut(agent: string, id: string)
    | Followed(agent: string)
    | Commit(agent: string, cumulative: nat, payTo: string)
    | OpenWith(agent: string, cumulative: nat, made: ChannelEntry)
    | ReadToLift(agent: string, id: string)
    | Lift(agent: string, charged: nat)
    | FindUnowned(agent: string, id: string)
    | Recover(agent: string, subbed: nat, found: ChannelEntry)
    | CrashIdle
    | CrashAfterIndex(agent: string, cumulative: nat, payTo: string)
    | CrashInOpening(agent: string, cumulative: nat, made: ChannelEntry)

  /** What an entry says was signed; the store takes only entries that say it in digits. */
  function Signed(e: ChannelEntry): nat {
    if IsDecimal(e.signedMax) then FromDecimal(e.signedMax) else 0
  }

  function SignedOn(index: Index, id: string): nat {
    if id in index then Signed(index[id]) else 0
  }

  /** What a voucher adds to the most already signed. */
  function Increment(e: ChannelEntry, cumulative: nat): nat {
    if cumulative > Signed(e) then cumulative - Signed(e) else 0
  }

  function WithSigned(e: ChannelEntry, cumulative: nat, payTo: string): ChannelEntry {
    e.(signedMax := ToDecimal(cumulative), payTo := if e.payTo == "" then payTo else e.payTo)
  }

  predicate Opens(e: ChannelEntry, agent: string) {
    e.agentId == agent && e.signedMax == "0"
  }

  predicate Possible(s: State, a: Action) {
    match a
    case TakeLock(agent) => agent !in s.tasks
    case DropLock(agent) => agent in s.tasks
    case Authorize(agent, id) =>
      agent in s.tasks && s.tasks[agent].Holding? && (id in s.index ==> s.index[id].agentId == agent)
    case FollowChannels(agent) => agent in s.tasks && s.tasks[agent].Authorizing?
    case MoveAnchor(agent, id, anchor) =>
      agent in s.tasks && s.tasks[agent].Following? && id in s.tasks[agent].snapshot && IsRef(anchor)
    case CloseOut(agent, id) => agent in s.tasks && s.tasks[agent].Following? && id in s.tasks[agent].snapshot
    case Followed(agent) => agent in s.tasks && s.tasks[agent].Following?
    case Commit(agent, _, _) => agent in s.tasks && s.tasks[agent].Authorizing? && s.tasks[agent].entry.Some?
    case OpenWith(agent, cumulative, made) =>
      agent in s.tasks && s.tasks[agent].Authorizing? && Opens(made, agent) && cumulative > 0
      && Readable(s.tasks[agent].id, made)
    case ReadToLift(agent, id) =>
      agent in s.tasks && s.tasks[agent].Holding? && id in s.index && s.index[id].agentId == agent
    case Lift(agent, _) => agent in s.tasks && s.tasks[agent].Lifting?
    case FindUnowned(agent, id) => agent in s.tasks && s.tasks[agent].Holding? && id !in s.index
    case Recover(agent, subbed, found) =>
      && agent in s.tasks && s.tasks[agent].Recovering?
      && found.agentId == agent && found.signedMax == ToDecimal(subbed) && Readable(s.tasks[agent].id, found)
    case CrashIdle => true
    case CrashAfterIndex(agent, cumulative, _) =>
      && agent in s.tasks && s.tasks[agent].Authorizing? && s.tasks[agent].entry.Some?
      && Increment(s.tasks[agent].entry.value, cumulative) > 0
    case CrashInOpening(agent, cumulative, made) =>
      agent in s.tasks && s.tasks[agent].Authorizing? && Opens(made, agent) && cumulative > 0
      && Readable(s.tasks[agent].id, made)
  }

  /** An entry is written from one that said `base`: the change, and beside it what is lost of what the index held. */
  function Changes(index: Index, id: string, base: nat, change: seq<Event>): seq<Event> {
    if SignedOn(index, id) == base then change else [Overwritten(id, SignedOn(index, id) - base)] + change
  }

  function Write(s: State, id: string, e: ChannelEntry, base: nat, change: seq<Event>): State {
    s.(index := s.index[id := e], events := s.events + Changes(s.index, id, base, change))
  }

  function WithTask(s: State, agent: string, t: Task): State {
    s.(tasks := s.tasks[agent := t])
  }

  function LetOut(s: State, id: string, cumulative: nat): State {
    s.(authorised := s.authorised + [(id, cumulative)])
  }

  /** The agent's own channels, as `entries()` lists them. */
  function OwnedBy(index: Index, agent: string): Index {
    map id | id in index && index[id].agentId == agent :: index[id]
  }

  function Do(s: State, a: Action): State
    requires Possible(s, a)
  {
    match a
    case TakeLock(agent) => WithTask(s, agent, Holding)
    case DropLock(agent) => s.(tasks := s.tasks - {agent})
    case Authorize(agent, id) => WithTask(s, agent, Authorizing(id, if id in s.index then Some(s.index[id]) else None))
    case FollowChannels(agent) =>
      WithTask(s, agent, Following(s.tasks[agent].id, s.tasks[agent].entry, OwnedBy(s.index, agent)))
    case MoveAnchor(agent, id, anchor) =>
      var read := s.tasks[agent].snapshot[id];
      Write(s, id, read.(anchor := anchor), Signed(read), [])
    case CloseOut(agent, id) =>
      var read := s.tasks[agent].snapshot[id];
      Write(s, id, read.(status := "closed"), Signed(read), [])
    case Followed(agent) => WithTask(s, agent, Authorizing(s.tasks[agent].id, s.tasks[agent].entry))
    case Commit(agent, cumulative, payTo) =>
      var id, e := s.tasks[agent].id, s.tasks[agent].entry.value;
      var n := Increment(e, cumulative);
      var written := if n == 0 then s
                     else Write(s, id, WithSigned(e, cumulative, payTo), Signed(e), [Spent(id, agent, n)]);
      LetOut(WithTask(written, agent, Holding), id, cumulative)
    case OpenWith(agent, cumulative, made) =>
      var id := s.tasks[agent].id;
      var written := Write(s, id, WithSigned(made, cumulative, made.payTo), 0, [Spent(id, agent, cumulative)]);
      LetOut(WithTask(written, agent, Holding), id, cumulative)
    case ReadToLift(agent, id) => WithTask(s, agent, Lifting(id, s.index[id]))
    case Lift(agent, charged) =>
      var id, e := s.tasks[agent].id, s.tasks[agent].read;
      var lifted := e.(signedMax := ToDecimal(charged));
      var written := if charged <= Signed(e) then s
                     else Write(s, id, lifted, Signed(e), [Lifted(id, charged - Signed(e))]);
      WithTask(written, agent, Holding)
    case FindUnowned(agent, id) => WithTask(s, agent, Recovering(id))
    case Recover(agent, subbed, found) =>
      var id := s.tasks[agent].id;
      WithTask(Write(s, id, found, 0, [Based(id, subbed)]), agent, Holding)
    case CrashIdle => s.(tasks := map[])
    case CrashAfterIndex(agent, cumulative, payTo) =>
      var id, e := s.tasks[agent].id, s.tasks[agent].entry.value;
      Write(s, id, WithSigned(e, cumulative, payTo), Signed(e),
            [Orphaned(id, Increment(e, cumulative))]).(tasks := map[])
    case CrashInOpening(agent, cumulative, made) =>
      var id := s.tasks[agent].id;
      Write(s, id, WithSigned(made, cumulative, made.payTo), 0, [Orphaned(id, cumulative)]).(tasks := map[])
  }

  // ---- the source's own form -----------------------------------------------------------------------------

  /**
   * `commitVoucher`, once the policy allows the increment: the index first, then the spend, which the
   * caller records. It writes the index that the machine's commit leaves, or its opening.
   */
  method CommitVoucher(store: Store, id: string, entry: ChannelEntry, cumulative: nat, payTo: string, ghost s: State,
                       ghost agent: string)
    returns (increment: nat)
    requires store.Valid() && Readable(id, entry)
    requires s.index == store.channels && agent in s.tasks && s.tasks[agent].Authorizing? && s.tasks[agent].id == id
    requires s.tasks[agent].entry == Some(entry) || (Opens(entry, agent) && entry.payTo == payTo)
    modifies store
    ensures store.Valid()
    ensures increment == Increment(entry, cumulative)
    ensures increment == 0 ==> store.channels == old(store.channels)
    ensures increment > 0 ==>
              store.channels == old(store.channels)[id := entry.(signedMax := ToDecimal(cumulative),
                                                                 payTo := if entry.payTo == "" then payTo
                                                                          else entry.payTo)]
    ensures s.tasks[agent].entry == Some(entry) ==> store.channels == Do(s, Commit(agent, cumulative, payTo)).index
    ensures Opens(entry, agent) && entry.payTo == payTo && increment > 0
            ==> store.channels == Do(s, OpenWith(agent, cumulative, entry)).index
  {
    var signed := FromDecimal(entry.signedMax);
    increment := if cumulative > signed then cumulative - signed else 0;
    if Opens(entry, agent) { assert FromDecimal("0") == 0; }
    if increment == 0 { return; }
    var paidTo := if entry.payTo == "" then payTo else entry.payTo;
    var accepted := store.Set(id, entry.(signedMax := ToDecimal(cumulative), payTo := paidTo));
  }

  /** The end of `liftSignedMax`, after the client's record was read: the machine's lift. */
  method LiftSignedMax(store: Store, id: string, e: ChannelEntry, charged: nat, ghost s: State, ghost agent: string)
    requires store.Valid() && Readable(id, e)
    requires s.index == store.channels && agent in s.tasks && s.tasks[agent] == Lifting(id, e)
    modifies store
    ensures store.Valid()
    ensures store.channels == if charged <= FromDecimal(e.signedMax) then old(store.channels)
                              else old(store.channels)[id := e.(signedMax := ToDecimal(charged))]
    ensures store.channels == Do(s, Lift(agent, charged)).index
  {
    if charged > FromDecimal(e.signedMax) {
      var accepted := store.Set(id, e.(signedMax := ToDecimal(charged)));
    }
  }

  // ---- every run: the amount is the sum of what moved it --------------------------------------------------

  function Value(e: Event): int {
    match e
    case Overwritten(_, lost) => -lost
    case _ => e.n
  }

  function Sum(events: seq<Event>, id: string): int {
    if events == [] then 0
    else Sum(events[..|events| - 1], id) + if events[|events| - 1].id == id then Value(events[|events| - 1]) else 0
  }

  lemma {:induction false} SumConcat(xs: seq<Event>, ys: seq<Event>, id: string)
    ensures Sum(xs + ys, id) == Sum(xs, id) + Sum(ys, id)
  {
    if ys == [] {
      assert xs + ys == xs;
    } else {
      assert (xs + ys)[..|xs| + |ys| - 1] == xs + ys[..|ys| - 1];
      SumConcat(xs, ys[..|ys| - 1], id);
    }
  }

  lemma SumOne(e: Event, id: string)
    ensures Sum([e], id) == if e.id == id then Value(e) else 0
  {
    assert [e][..0] == [];
  }

  lemma {:induction false} SumOfOthers(events: seq<Event>, id: string)
    requires forall k | 0 <= k < |events| :: events[k].id != id
    ensures Sum(events, id) == 0
  {
    if events != [] { SumOfOthers(events[..|events| - 1], id); }
  }

  /** Each channel's amount is what its events come to, and no other channel has any. */
  ghost predicate Balanced(index: Index, events: seq<Event>) {
    && (forall id :: SignedOn(index, id) == Sum(events, id))
    && (forall k | 0 <= k < |events| :: events[k].id in index)
  }

  /** A change of one event, or none. */
  predicate OneChange(id: string, change: seq<Event>) {
    |change| <= 1 && (change != [] ==> change[0].id == id && !change[0].Overwritten?)
  }

  lemma ChangesSum(index: Index, id: string, base: nat, change: seq<Event>, k: string)
    requires OneChange(id, change)
    ensures var n := if change == [] then 0 else Value(change[0]);
            Sum(Changes(index, id, base, change), k) == if k == id then n - (SignedOn(index, id) - base) else 0
    ensures forall m | 0 <= m < |Changes(index, id, base, change)| :: Changes(index, id, base, change)[m].id == id
  {
    if change != [] {
      SumOne(change[0], k);
      assert change == [change[0]];
    }
    var over := Overwritten(id, SignedOn(index, id) - base);
    SumOne(over, k);
    SumConcat([over], change, k);
  }

  lemma WriteBalances(s: State, id: string, e: ChannelEntry, base: nat, change: seq<Event>)
    requires Balanced(s.index, s.events) && OneChange(id, change)
    requires Signed(e) == base + if change == [] then 0 else Value(change[0])
    ensures Balanced(Write(s, id, e, base, change).index, Write(s, id, e, base, change).events)
  {
    var s' := Write(s, id, e, base, change);
    forall k ensures SignedOn(s'.index, k) == Sum(s'.events, k) {
      ChangesSum(s.index, id, base, change, k);
      SumConcat(s.events, Changes(s.index, id, base, change), k);
    }
    ChangesSum(s.index, id, base, change, id);
  }

  lemma Printed(e: ChannelEntry, n: nat)
    ensures Signed(e.(signedMax := ToDecimal(n))) == n
  {
    PrintThenRead(n);
  }

  lemma CommitBalances(s: State, a: Action)
    requires Balanced(s.index, s.events) && Possible(s, a) && (a.Commit? || a.CrashAfterIndex?)
    ensures Balanced(Do(s, a).index, Do(s, a).events)
  {
    var id, e := s.tasks[a.agent].id, s.tasks[a.agent].entry.value;
    var n, e' := Increment(e, a.cumulative), WithSigned(e, a.cumulative, a.payTo);
    Printed(e', a.cumulative);
    if n > 0 { WriteBalances(s, id, e', Signed(e), if a.Commit? then [Spent(id, a.agent, n)] else [Orphaned(id, n)]); }
  }

  lemma OpeningBalances(s: State, a: Action)
    requires Balanced(s.index, s.events) && Possible(s, a) && (a.OpenWith? || a.CrashInOpening?)
    ensures Balanced(Do(s, a).index, Do(s, a).events)
  {
    var id, e := s.tasks[a.agent].id, WithSigned(a.made, a.cumulative, a.made.payTo);
    Printed(e, a.cumulative);
    WriteBalances(s, id, e, 0, if a.OpenWith? then [Spent(id, a.agent, a.cumulative)]
                  else [Orphaned(id, a.cumulative)]);
  }

  lemma WriteBackBalances(s: State, a: Action)
    requires Balanced(s.index, s.events) && Possible(s, a) && (a.MoveAnchor? || a.CloseOut?)
    ensures Balanced(Do(s, a).index, Do(s, a).events)
  {
    var read := s.tasks[a.agent].snapshot[a.id];
    WriteBalances(s, a.id, if a.MoveAnchor? then read.(anchor := a.anchor)
                  else read.(status := "closed"), Signed(read), []);
  }

  lemma LiftBalances(s: State, a: Action)
    requires Balanced(s.index, s.events) && Possible(s, a) && a.Lift?
    ensures Balanced(Do(s, a).index, Do(s, a).events)
  {
    var id, e := s.tasks[a.agent].id, s.tasks[a.agent].read;
    Printed(e, a.charged);
    if a.charged > Signed(e) {
      WriteBalances(s, id, e.(signedMax := ToDecimal(a.charged)), Signed(e), [Lifted(id, a.charged - Signed(e))]);
    }
  }

  lemma RecoverBalances(s: State, a: Action)
    requires Balanced(s.index, s.events) && Possible(s, a) && a.Recover?
    ensures Balanced(Do(s, a).index, Do(s, a).events)
  {
    Printed(a.found, a.subbed);
    WriteBalances(s, s.tasks[a.agent].id, a.found, 0, [Based(s.tasks[a.agent].id, a.subbed)]);
  }

  lemma ActionBalances(s: State, a: Action)
    requires Balanced(s.index, s.events) && Possible(s, a)
    ensures Balanced(Do(s, a).index, Do(s, a).events)
  {
    match a
    case MoveAnchor(_, _, _) => WriteBackBalances(s, a);
    case CloseOut(_, _) => WriteBackBalances(s, a);
    case Commit(_, _, _) => CommitBalances(s, a);
    case CrashAfterIndex(_, _, _) => CommitBalances(s, a);
    case OpenWith(_, _, _) => OpeningBalances(s, a);
    case CrashInOpening(_, _, _) => OpeningBalances(s, a);
    case Lift(_, _) => LiftBalances(s, a);
    case Recover(_, _, _) => RecoverBalances(s, a);
    case _ =>
  }

  const START := State(map[], map[], [], [])

  /** An action the code would not reach changes nothing. */
  function Step(s: State, a: Action): State {
    if Possible(s, a) then Do(s, a) else s
  }

  function After(actions: seq<Action>): State {
    if actions == [] then START else Step(After(actions[..|actions| - 1]), actions[|actions| - 1])
  }

  lemma {:induction false} EveryRunBalances(actions: seq<Action>)
    ensures Balanced(After(actions).index, After(actions).events)
  {
    if actions != [] {
      var before, a := actions[..|actions| - 1], actions[|actions| - 1];
      EveryRunBalances(before);
      if Possible(After(before), a) { ActionBalances(After(before), a); }
    }
  }

  // ---- where a channel is never written over ----------------------------------------------------------------

  /** An opening or a recovery writes a channel the index holds already. */
  predicate Overwrites(s: State, a: Action, id: string) {
    && id in s.index && Possible(s, a)
    && match a
       case OpenWith(agent, _, _) => s.tasks[agent].id == id
       case CrashInOpening(agent, _, _) => s.tasks[agent].id == id
       case Recover(agent, _, _) => s.tasks[agent].id == id
       case _ => false
  }

  predicate NeverOverwritten(actions: seq<Action>, id: string) {
    forall n | 0 <= n < |actions| :: !Overwrites(After(actions[..n]), actions[n], id)
  }

  /** The entry of an agent's own channel, as it stands but for the fields that say nothing of what was signed. */
  predicate StillTrue(index: Index, agent: string, id: string, e: ChannelEntry) {
    e.agentId == agent && id in index && index[id].agentId == agent && index[id].signedMax == e.signedMax
  }

  /** What a task has read of this channel still stands. */
  predicate ReadsTrue(index: Index, agent: string, t: Task, id: string) {
    match t
    case Holding => true
    case Authorizing(k, entry) => k == id && entry.Some? ==> StillTrue(index, agent, id, entry.value)
    case Following(k, entry, snapshot) =>
      && (k == id && entry.Some? ==> StillTrue(index, agent, id, entry.value))
      && (id in snapshot ==> StillTrue(index, agent, id, snapshot[id]))
    case Lifting(k, read) => k == id ==> StillTrue(index, agent, id, read)
    case Recovering(_) => true
  }

  predicate Covered(s: State, id: string) {
    forall k | 0 <= k < |s.authorised| && s.authorised[k].0 == id :: s.authorised[k].1 <= SignedOn(s.index, id)
  }

  predicate NothingLost(events: seq<Event>, id: string) {
    forall k | 0 <= k < |events| && events[k].id == id :: !events[k].Overwritten?
  }

  predicate GoodFor(s: State, id: string) {
    && Covered(s, id) && NothingLost(s.events, id)
    && (forall agent | agent in s.tasks :: ReadsTrue(s.index, agent, s.tasks[agent], id))
  }

  /** A write by the one agent that has read the channel, from what still stands, for no less. */
  lemma OwnWriteKeeps(s: State, agent: string, id: string, e: ChannelEntry, base: nat, change: seq<Event>)
    requires GoodFor(s, id) && agent in s.tasks && id in s.index && s.index[id].agentId == e.agentId == agent
    requires base == SignedOn(s.index, id) <= Signed(e) && OneChange(id, change)
    ensures var s' := Write(s, id, e, base, change);
            && Covered(s', id) && NothingLost(s'.events, id)
            && (forall other | other in s.tasks && other != agent :: ReadsTrue(s'.index, other, s.tasks[other], id))
  {
  }

  /** A write of another channel. */
  lemma OtherWriteKeeps(s: State, k: string, e: ChannelEntry, base: nat, change: seq<Event>, id: string)
    requires GoodFor(s, id) && k != id && OneChange(k, change)
    ensures GoodFor(Write(s, k, e, base, change), id)
  {
  }

  /** The first write of a channel: nothing has been read of it. */
  lemma FirstWriteKeeps(s: State, id: string, e: ChannelEntry, change: seq<Event>)
    requires GoodFor(s, id) && id !in s.index && OneChange(id, change)
    ensures GoodFor(Write(s, id, e, 0, change), id)
  {
  }

  lemma ReadsKeepFor(s: State, a: Action, id: string)
    requires GoodFor(s, id) && Possible(s, a)
    requires a.TakeLock? || a.DropLock? || a.Authorize? || a.FollowChannels? || a.Followed? || a.ReadToLift?
             || a.FindUnowned? || a.CrashIdle?
    ensures GoodFor(Do(s, a), id)
  {
  }

  lemma FollowingKeepsFor(s: State, a: Action, id: string)
    requires GoodFor(s, id) && Possible(s, a) && (a.MoveAnchor? || a.CloseOut?)
    ensures GoodFor(Do(s, a), id)
  {
    var read := s.tasks[a.agent].snapshot[a.id];
    var e := if a.MoveAnchor? then read.(anchor := a.anchor) else read.(status := "closed");
    assert ReadsTrue(s.index, a.agent, s.tasks[a.agent], id);
    if a.id == id {
      OwnWriteKeeps(s, a.agent, id, e, Signed(read), []);
    } else {
      OtherWriteKeeps(s, a.id, e, Signed(read), [], id);
    }
  }

  lemma CommitKeepsFor(s: State, a: Action, id: string)
    requires GoodFor(s, id) && Possible(s, a) && (a.Commit? || a.CrashAfterIndex?)
    ensures GoodFor(Do(s, a), id)
  {
    var k, e := s.tasks[a.agent].id, s.tasks[a.agent].entry.value;
    var n, e' := Increment(e, a.cumulative), WithSigned(e, a.cumulative, a.payTo);
    var change := if a.Commit? then [Spent(k, a.agent, n)] else [Orphaned(k, n)];
    Printed(e', a.cumulative);
    assert ReadsTrue(s.index, a.agent, s.tasks[a.agent], id);
    if n > 0 {
      if k == id {
        OwnWriteKeeps(s, a.agent, id, e', Signed(e), change);
      } else {
        OtherWriteKeeps(s, k, e', Signed(e), change, id);
      }
    }
  }

  lemma LiftKeepsFor(s: State, a: Action, id: string)
    requires GoodFor(s, id) && Possible(s, a) && a.Lift?
    ensures GoodFor(Do(s, a), id)
  {
    var k, e := s.tasks[a.agent].id, s.tasks[a.agent].read;
    var e' := e.(signedMax := ToDecimal(a.charged));
    Printed(e, a.charged);
    assert ReadsTrue(s.index, a.agent, s.tasks[a.agent], id);
    if a.charged > Signed(e) {
      var change := [Lifted(k, a.charged - Signed(e))];
      if k == id {
        OwnWriteKeeps(s, a.agent, id, e', Signed(e), change);
      } else {
        OtherWriteKeeps(s, k, e', Signed(e), change, id);
      }
    }
  }

  lemma NewWriteKeeps(s: State, k: string, e: ChannelEntry, change: seq<Event>, id: string)
    requires GoodFor(s, id) && (k == id ==> id !in s.index) && OneChange(k, change)
    ensures GoodFor(Write(s, k, e, 0, change), id)
  {
    if k == id { FirstWriteKeeps(s, id, e, change); } else { OtherWriteKeeps(s, k, e, 0, change, id); }
  }

  lemma OpeningKeepsFor(s: State, a: Action, id: string)
    requires GoodFor(s, id) && Possible(s, a) && !Overwrites(s, a, id) && (a.OpenWith? || a.CrashInOpening?)
    ensures GoodFor(Do(s, a), id)
  {
    var k, e := s.tasks[a.agent].id, WithSigned(a.made, a.cumulative, a.made.payTo);
    Printed(e, a.cumulative);
    NewWriteKeeps(s, k, e, if a.OpenWith? then [Spent(k, a.agent, a.cumulative)] else [Orphaned(k, a.cumulative)], id);
  }

  lemma RecoverKeepsFor(s: State, a: Action, id: string)
    requires GoodFor(s, id) && Possible(s, a) && !Overwrites(s, a, id) && a.Recover?
    ensures GoodFor(Do(s, a), id)
  {
    NewWriteKeeps(s, s.tasks[a.agent].id, a.found, [Based(s.tasks[a.agent].id, a.subbed)], id);
  }

  lemma ActionKeepsFor(s: State, a: Action, id: string)
    requires GoodFor(s, id) && Possible(s, a) && !Overwrites(s, a, id)
    ensures GoodFor(Do(s, a), id)
  {
    match a
    case MoveAnchor(_, _, _) => FollowingKeepsFor(s, a, id);
    case CloseOut(_, _) => FollowingKeepsFor(s, a, id);
    case Commit(_, _, _) => CommitKeepsFor(s, a, id);
    case CrashAfterIndex(_, _, _) => CommitKeepsFor(s, a, id);
    case Lift(_, _) => LiftKeepsFor(s, a, id);
    case OpenWith(_, _, _) => OpeningKeepsFor(s, a, id);
    case CrashInOpening(_, _, _) => OpeningKeepsFor(s, a, id);
    case Recover(_, _, _) => RecoverKeepsFor(s, a, id);
    case _ => ReadsKeepFor(s, a, id);
  }

  lemma {:induction false} RunIsGoodFor(actions: seq<Action>, id: string)
    requires NeverOverwritten(actions, id)
    ensures GoodFor(After(actions), id)
  {
    if actions != [] {
      var before, a := actions[..|actions| - 1], actions[|actions| - 1];
      assert forall n | 0 <= n < |before| :: before[..n] == actions[..n];
      RunIsGoodFor(before, id);
      if Possible(After(before), a) { ActionKeepsFor(After(before), a, id); }
    }
  }

  // ---- the promises ----------------------------------------------------------------------------------------

  /**
   * Voucher conservation, over every run. What a channel's record says was signed is the sum of the
   * increments spent, the lifts, what a recovery started from and what crashes orphaned, less what was
   * lost where one task wrote over what another had written since. Where no opening or recovery writes
   * the channel while the index holds it nothing is lost, and every voucher let out is covered.
   */
  lemma SignedIsWhatWasSpent(actions: seq<Action>, id: string)
    ensures var s := After(actions); SignedOn(s.index, id) == Sum(s.events, id)
    ensures NeverOverwritten(actions, id) ==> NothingLost(After(actions).events, id) && Covered(After(actions), id)
  {
    EveryRunBalances(actions);
    if NeverOverwritten(actions, id) { RunIsGoodFor(actions, id); }
  }

  lemma NotLostGrows(s: State, a: Action, id: string)
    requires GoodFor(s, id) && Possible(s, a) && !Overwrites(s, a, id)
    ensures SignedOn(Do(s, a).index, id) >= SignedOn(s.index, id)
  {
    match a
    case MoveAnchor(agent, _, _) => assert ReadsTrue(s.index, agent, s.tasks[agent], id);
    case CloseOut(agent, _) => assert ReadsTrue(s.index, agent, s.tasks[agent], id);
    case Commit(agent, c, payTo) =>
      assert ReadsTrue(s.index, agent, s.tasks[agent], id);
      Printed(WithSigned(s.tasks[agent].entry.value, c, payTo), c);
    case CrashAfterIndex(agent, c, payTo) =>
      assert ReadsTrue(s.index, agent, s.tasks[agent], id);
      Printed(WithSigned(s.tasks[agent].entry.value, c, payTo), c);
    case Lift(agent, charged) =>
      assert ReadsTrue(s.index, agent, s.tasks[agent], id);
      Printed(s.tasks[agent].read, charged);
    case _ =>
  }

  lemma AfterMore(actions: seq<Action>, a: Action)
    ensures After(actions + [a]) == Step(After(actions), a)
  {
    assert (actions + [a])[..|actions|] == actions;
  }

  lemma NeverOverwrittenBefore(actions: seq<Action>, a: Action, id: string)
    requires NeverOverwritten(actions + [a], id)
    ensures NeverOverwritten(actions, id) && !Overwrites(After(actions), a, id)
  {
    var all := actions + [a];
    assert all[..|actions|] == actions && all[|actions|] == a;
    assert forall n | 0 <= n < |actions| :: all[..n] == actions[..n] && all[n] == actions[n];
  }

  /** There it never goes down, whatever is written back from a read that was long ago. */
  lemma SignedNeverFalls(actions: seq<Action>, a: Action, id: string)
    requires NeverOverwritten(actions + [a], id)
    ensures SignedOn(After(actions + [a]).index, id) >= SignedOn(After(actions).index, id)
  {
    AfterMore(actions, a);
    NeverOverwrittenBefore(actions, a, id);
    RunIsGoodFor(actions, id);
    if Possible(After(actions), a) { NotLostGrows(After(actions), a, id); }
  }

  /**
   * So where it does go down, an opening or a recovery has written the channel while the index held
   * it, then or before.
   */
  lemma FallNeedsOverwrite(actions: seq<Action>, a: Action, id: string) returns (n: nat)
    requires SignedOn(After(actions + [a]).index, id) < SignedOn(After(actions).index, id)
    ensures n <= |actions| && Overwrites(After((actions + [a])[..n]), (actions + [a])[n], id)
  {
    if NeverOverwritten(actions + [a], id) {
      SignedNeverFalls(actions, a, id);
      assert false;
    }
    n :| 0 <= n < |actions + [a]| && Overwrites(After((actions + [a])[..n]), (actions + [a])[n], id);
  }

  /** A step that writes a channel, and what it leaves signed there, is less than the index holds by then. */
  predicate WritesLess(s: State, a: Action, id: string)
    requires Possible(s, a)
  {
    var held := SignedOn(s.index, id);
    match a
    case Commit(agent, c, _) => s.tasks[agent].id == id && Signed(s.tasks[agent].entry.value) < c < held
    case CrashAfterIndex(agent, c, _) => s.tasks[agent].id == id && c < held
    case Lift(agent, charged) => s.tasks[agent].id == id && Signed(s.tasks[agent].read) < charged < held
    case MoveAnchor(agent, k, _) => k == id && Signed(s.tasks[agent].snapshot[k]) < held
    case CloseOut(agent, k) => k == id && Signed(s.tasks[agent].snapshot[k]) < held
    case OpenWith(agent, c, _) => s.tasks[agent].id == id && c < held
    case CrashInOpening(agent, c, _) => s.tasks[agent].id == id && c < held
    case Recover(agent, subbed, _) => s.tasks[agent].id == id && subbed < held
    case _ => false
  }

  /**
   * And exactly when a single step lowers it, in any state at all: a voucher or a lift goes above what
   * its task read but not above what the index holds by now, an entry written back says less than the
   * index holds, or an opening or a recovery starts from less.
   */
  lemma FallsExactlyWhenWrittenForLess(s: State, a: Action, id: string)
    requires Possible(s, a)
    ensures SignedOn(Do(s, a).index, id) < SignedOn(s.index, id) <==> WritesLess(s, a, id)
  {
    match a
    case Commit(agent, c, payTo) => Printed(WithSigned(s.tasks[agent].entry.value, c, payTo), c);
    case CrashAfterIndex(agent, c, payTo) => Printed(WithSigned(s.tasks[agent].entry.value, c, payTo), c);
    case OpenWith(agent, c, made) => Printed(WithSigned(made, c, made.payTo), c);
    case CrashInOpening(agent, c, made) => Printed(WithSigned(made, c, made.payTo), c);
    case Lift(agent, charged) => Printed(s.tasks[agent].read, charged);
    case Recover(agent, subbed, found) => Printed(found, subbed);
    case _ =>
  }

  /** A voucher at or below what was signed spends nothing and writes nothing. */
  lemma ResigningIsFree(s: State, a: Action)
    requires a.Commit? && Possible(s, a) && a.cumulative <= Signed(s.tasks[a.agent].entry.value)
    ensures Do(s, a).events == s.events && Do(s, a).index == s.index
  {
  }

  /**
   * A crash between the index and the audit record leaves the index ahead of the spends by one
   * increment, a whole first voucher when it falls in an opening. The same voucher asked for again
   * then reads as a re-sign.
   */
  lemma CrashOrphansOneIncrement(s: State, a: Action)
    requires (a.CrashAfterIndex? || a.CrashInOpening?) && Possible(s, a)
    ensures var s', id := Do(s, a), s.tasks[a.agent].id;
            var n := if a.CrashInOpening? then a.cumulative else Increment(s.tasks[a.agent].entry.value, a.cumulative);
            && s'.events[|s'.events| - 1..] == [Orphaned(id, n)] && n > 0
            && id in s'.index && Signed(s'.index[id]) == a.cumulative && Increment(s'.index[id], a.cumulative) == 0
  {
    if a.CrashInOpening? {
      Printed(WithSigned(a.made, a.cumulative, a.made.payTo), a.cumulative);
    } else {
      Printed(WithSigned(s.tasks[a.agent].entry.value, a.cumulative, a.payTo), a.cumulative);
    }
  }

  // ---- and it happens ----------------------------------------------------------------------------------------

  predicate IsTagOfZeros(id: string) {
    |id| == 64 && forall i | 0 <= i < 64 :: id[i] == '0'
  }

  /** A channel as an opening makes it or a recovery finds it. */
  lemma SomeChannel(id: string, agent: string, n: nat) returns (e: ChannelEntry)
    requires IsTagOfZeros(id)
    ensures e.agentId == agent && e.signedMax == ToDecimal(n) && Readable(id, e)
  {
    var anchor := id + "#0";
    assert anchor[..64] == id && anchor[65..] == "0";
    PrintThenRead(n);
    e := ChannelEntry(agent, "", "", "", "p", "", ToDecimal(n), anchor, "0", "0", None, "open", 0);
  }

  /** Two agents' recoveries have found one channel, which nobody owns, and wait for the chain. */
  function BothFinding(id: string): seq<Action> {
    [TakeLock("a")] + [TakeLock("b")] + [FindUnowned("a", id)] + [FindUnowned("b", id)]
  }

  lemma AfterTwo(actions: seq<Action>, a: Action, b: Action)
    requires Possible(After(actions), a) && Possible(Do(After(actions), a), b)
    ensures After(actions + [a] + [b]) == Do(Do(After(actions), a), b)
  {
    AfterMore(actions, a);
    AfterMore(actions + [a], b);
  }

  lemma BothLock()
    ensures After([TakeLock("a")] + [TakeLock("b")]).tasks.Keys == {"a", "b"}
    ensures var s := After([TakeLock("a")] + [TakeLock("b")]);
            s == State(map[], s.tasks, [], []) && s.tasks["a"].Holding? && s.tasks["b"].Holding?
  {
    assert [] + [TakeLock("a")] + [TakeLock("b")] == [TakeLock("a")] + [TakeLock("b")];
    AfterTwo([], TakeLock("a"), TakeLock("b"));
  }

  lemma BothFind(id: string)
    ensures var s := After(BothFinding(id));
            && s == State(map[], s.tasks, [], []) && s.tasks.Keys == {"a", "b"}
            && s.tasks["a"] == Recovering(id) && s.tasks["b"] == Recovering(id)
  {
    BothLock();
    AfterTwo([TakeLock("a")] + [TakeLock("b")], FindUnowned("a", id), FindUnowned("b", id));
  }

  /** Agent "a" recovers the channel at 5 and has read it, while "b" still waits. */
  lemma FirstRecovers(id: string, e: ChannelEntry, last: Action) returns (actions: seq<Action>)
    requires e.agentId == "a" && e.signedMax == ToDecimal(5) && Readable(id, e)
    requires last == Authorize("a", id) || last == ReadToLift("a", id)
    ensures actions == BothFinding(id) + [Recover("a", 5, e)] + [last]
    ensures var t := if last.Authorize? then Authorizing(id, Some(e)) else Lifting(id, e);
            && After(actions).index == map[id := e] && After(actions).tasks.Keys == {"a", "b"}
            && After(actions).tasks["a"] == t && After(actions).tasks["b"] == Recovering(id)
  {
    BothFind(id);
    AfterTwo(BothFinding(id), Recover("a", 5, e), last);
    actions := BothFinding(id) + [Recover("a", 5, e)] + [last];
  }

  /** The second recovery writes over what the first agent has signed in the meantime: 9, then 5. */
  lemma RecoveriesCanLower() returns (actions: seq<Action>, a: Action, id: string)
    ensures Possible(After(actions), a) && a.Recover?
    ensures SignedOn(After(actions).index, id) == 9 && SignedOn(Do(After(actions), a).index, id) == 5
  {
    id := seq(64, _ => '0');
    var e := SomeChannel(id, "a", 5);
    var f := SomeChannel(id, "b", 5);
    actions := FirstRecovers(id, e, Authorize("a", id));
    AfterMore(actions, Commit("a", 9, ""));
    Printed(WithSigned(e, 9, ""), 9);
    PrintThenRead(5);
    actions, a := actions + [Commit("a", 9, "")], Recover("b", 5, f);
  }

  /** The second recovery is for more, 7, and agent "a" still has what it read before. */
  lemma SecondRecovers(id: string, e: ChannelEntry, last: Action) returns (actions: seq<Action>)
    requires IsTagOfZeros(id) && e.agentId == "a" && e.signedMax == ToDecimal(5) && Readable(id, e)
    requires last == Authorize("a", id) || last == ReadToLift("a", id)
    ensures var s := After(actions);
            && SignedOn(s.index, id) == 7 && "a" in s.tasks
            && s.tasks["a"] == if last.Authorize? then Authorizing(id, Some(e)) else Lifting(id, e)
  {
    var f := SomeChannel(id, "b", 7);
    actions := FirstRecovers(id, e, last);
    AfterMore(actions, Recover("b", 7, f));
    PrintThenRead(7);
    actions := actions + [Recover("b", 7, f)];
  }

  /** It need not be the overwriting that lowers it: a voucher from what was read before it does, 7 to 6. */
  lemma StaleVoucherCanLower() returns (actions: seq<Action>, a: Action, id: string)
    ensures Possible(After(actions), a) && a.Commit?
    ensures SignedOn(After(actions).index, id) == 7 && SignedOn(Do(After(actions), a).index, id) == 6
  {
    id := seq(64, _ => '0');
    var e := SomeChannel(id, "a", 5);
    actions := SecondRecovers(id, e, Authorize("a", id));
    PrintThenRead(5);
    Printed(WithSigned(e, 6, ""), 6);
    a := Commit("a", 6, "");
  }

  /** And so does a lift. */
  lemma StaleLiftCanLower() returns (actions: seq<Action>, a: Action, id: string)
    ensures Possible(After(actions), a) && a.Lift?
    ensures SignedOn(After(actions).index, id) == 7 && SignedOn(Do(After(actions), a).index, id) == 6
  {
    id := seq(64, _ => '0');
    var e := SomeChannel(id, "a", 5);
    actions := SecondRecovers(id, e, ReadToLift("a", id));
    PrintThenRead(5);
    Printed(e, 6);
    a := Lift("a", 6);
  }

  /** A crash in an opening, after the index: the first voucher goes out later, and nothing was ever spent for it. */
  lemma OrphanGoesOutUnspent() returns (actions: seq<Action>, id: string)
    ensures After(actions).authorised == [(id, 9)] && After(actions).events == [Orphaned(id, 9)]
  {
    id := seq(64, _ => '0');
    var e := SomeChannel(id, "a", 0);
    assert ToDecimal(0) == "0";
    var before := [TakeLock("a")] + [Authorize("a", id)];
    assert [] + [TakeLock("a")] + [Authorize("a", id)] == before;
    AfterTwo([], TakeLock("a"), Authorize("a", id));
    var crash := CrashInOpening("a", 9, e);
    AfterTwo(before, crash, TakeLock("a"));
    Printed(WithSigned(e, 9, "p"), 9);
    var after := before + [crash] + [TakeLock("a")];
    AfterTwo(after, Authorize("a", id), Commit("a", 9, ""));
    actions := after + [Authorize("a", id)] + [Commit("a", 9, "")];
  }
}
