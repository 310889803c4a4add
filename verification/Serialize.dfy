/**
 * The promise-chain lock of serialize.ts. A task is what one call of `run` makes: `result`, which
 * runs after the promise the map held for its key, and `settled`, which the map holds instead. A
 * schedule is any order of calls and of the turns the event loop takes.
 */
module Serialize {
  import opened Wrappers

  /** Finished is `result` settled; Settled is `settled` resolved; Forgotten, its clean-up has run. */
  datatype Phase = Waiting | Running | Finished | Settled | Forgotten

  /** `after` is the task whose `settled` this one was chained to, None for `Promise.resolve()`. */
  datatype Task = Task(key: string, after: Option<nat>, phase: Phase, rejected: bool)

  datatype Lock = Lock(tasks: seq<Task>, chains: map<string, nat>)

  const UNUSED := Lock([], map[])

  datatype Turn = Call(key: string) | Start(n: nat) | Finish(n: nat, rejected: bool) | Settle(n: nat) | Forget(n: nat)

  predicate Done(t: Task) {
    t.phase.Settled? || t.phase.Forgotten?
  }

  /** What can happen next: a task's turn comes when the promise it waits for has settled, kept or broken. */
  predicate Enabled(l: Lock, turn: Turn) {
    match turn
    case Call(_) => true
    case Start(n) => n < |l.tasks| && l.tasks[n].phase.Waiting?
                     && (l.tasks[n].after.None?
                         || (l.tasks[n].after.value < |l.tasks| && Done(l.tasks[l.tasks[n].after.value])))
    case Finish(n, _) => n < |l.tasks| && l.tasks[n].phase.Running?
    case Settle(n) => n < |l.tasks| && l.tasks[n].phase.Finished?
    case Forget(n) => n < |l.tasks| && l.tasks[n].phase.Settled?
  }

  function At(chains: map<string, nat>, key: string): Option<nat> {
    if key in chains then Some(chains[key]) else None
  }

  function Take(l: Lock, turn: Turn): Lock
    requires Enabled(l, turn)
  {
    match turn
    case Call(key) => Lock(l.tasks + [Task(key, At(l.chains, key), Waiting, false)], l.chains[key := |l.tasks|])
    case Start(n) => l.(tasks := l.tasks[n := l.tasks[n].(phase := Running)])
    case Finish(n, rejected) => l.(tasks := l.tasks[n := l.tasks[n].(phase := Finished, rejected := rejected)])
    case Settle(n) => l.(tasks := l.tasks[n := l.tasks[n].(phase := Settled)])
    case Forget(n) =>
      var key := l.tasks[n].key;
      Lock(l.tasks[n := l.tasks[n].(phase := Forgotten)], if At(l.chains, key) == Some(n) then l.chains - {key}
           else l.chains)
  }

  // ---- the source's own form ---------------------------------------------------------------------------

  /** `createKeyedLock`: the map is the closure's, each method is what one turn does to it. */
  class KeyedLock {
    var tasks: seq<Task>
    var chains: map<string, nat>

    function State(): Lock
      reads this
    {
      Lock(tasks, chains)
    }

    constructor ()
      ensures State() == UNUSED
    {
      tasks := [];
      chains := map[];
    }

    /** `run`, up to its return: the task is chained, and takes its place in the map. */
    method Run(key: string) returns (n: nat)
      modifies this
      ensures n == |old(tasks)| && State() == Take(old(State()), Call(key))
    {
      n := |tasks|;
      var after := if key in chains then Some(chains[key]) else None;
      tasks := tasks + [Task(key, after, Waiting, false)];
      chains := chains[key := n];
    }

    method Begin(n: nat)
      requires Enabled(State(), Start(n))
      modifies this
      ensures State() == Take(old(State()), Start(n))
    {
      tasks := tasks[n := tasks[n].(phase := Running)];
    }

    method End(n: nat, rejected: bool)
      requires Enabled(State(), Finish(n, rejected))
      modifies this
      ensures State() == Take(old(State()), Finish(n, rejected))
    {
      tasks := tasks[n := tasks[n].(phase := Finished, rejected := rejected)];
    }

    method Resolve(n: nat)
      requires Enabled(State(), Settle(n))
      modifies this
      ensures State() == Take(old(State()), Settle(n))
    {
      tasks := tasks[n := tasks[n].(phase := Settled)];
    }

    /** The clean-up: the key goes only if the map still holds this task's promise for it. */
    method CleanUp(n: nat)
      requires Enabled(State(), Forget(n))
      modifies this
      ensures State() == Take(old(State()), Forget(n))
    {
      var key := tasks[n].key;
      tasks := tasks[n := tasks[n].(phase := Forgotten)];
      if key in chains && chains[key] == n {
        chains := chains - {key};
      }
    }
  }

  // ---- what every schedule keeps -------------------------------------------------------------------------

  /** The map holds, for a key, its last call; without one, no call of the key is unsettled. */
  predicate MapHoldsLast(l: Lock) {
    && (forall key | key in l.chains ::
          && l.chains[key] < |l.tasks| && l.tasks[l.chains[key]].key == key
          && !l.tasks[l.chains[key]].phase.Forgotten?)
    && (forall n | 0 <= n < |l.tasks| && l.tasks[n].key in l.chains :: n <= l.chains[l.tasks[n].key])
    && (forall n | 0 <= n < |l.tasks| && l.tasks[n].key !in l.chains :: Done(l.tasks[n]))
  }

  /** A task is chained to the call of its key just before it, or to nothing when all of those have settled. */
  predicate ChainedInOrder(l: Lock) {
    forall m, n | 0 <= m < n < |l.tasks| && l.tasks[m].key == l.tasks[n].key ::
      if l.tasks[n].after.None? then Done(l.tasks[m]) else m <= l.tasks[n].after.value
  }

  predicate ChainedWithinKey(l: Lock) {
    forall n | 0 <= n < |l.tasks| && l.tasks[n].after.Some? ::
      l.tasks[n].after.value < n && l.tasks[l.tasks[n].after.value].key == l.tasks[n].key
  }

  /** No task has begun before every earlier call of its key has settled. */
  predicate RunInOrder(l: Lock) {
    forall m, n | 0 <= m < n < |l.tasks| && l.tasks[m].key == l.tasks[n].key
    && !l.tasks[n].phase.Waiting? :: Done(l.tasks[m])
  }

  predicate Inv(l: Lock) {
    MapHoldsLast(l) && ChainedInOrder(l) && ChainedWithinKey(l) && RunInOrder(l)
  }

  lemma CallKeepsMap(l: Lock, key: string)
    requires MapHoldsLast(l)
    ensures MapHoldsLast(Take(l, Call(key)))
  {
  }

  lemma CallKeepsChaining(l: Lock, key: string)
    requires MapHoldsLast(l) && ChainedInOrder(l) && ChainedWithinKey(l)
    ensures ChainedInOrder(Take(l, Call(key))) && ChainedWithinKey(Take(l, Call(key)))
  {
  }

  lemma CallKeepsOrder(l: Lock, key: string)
    requires RunInOrder(l)
    ensures RunInOrder(Take(l, Call(key)))
  {
  }

  /** The same tasks, each at least as far along. */
  predicate FurtherAlong(l: Lock, l': Lock) {
    && |l'.tasks| == |l.tasks|
    && forall n | 0 <= n < |l.tasks| ::
         l'.tasks[n].key == l.tasks[n].key && l'.tasks[n].after == l.tasks[n].after
         && (Done(l.tasks[n]) ==> Done(l'.tasks[n]))
  }

  lemma ChainingStays(l: Lock, l': Lock)
    requires ChainedInOrder(l) && ChainedWithinKey(l) && FurtherAlong(l, l')
    ensures ChainedInOrder(l') && ChainedWithinKey(l')
  {
  }

  lemma MapStays(l: Lock, l': Lock)
    requires MapHoldsLast(l) && FurtherAlong(l, l') && l'.chains == l.chains
    requires forall n | 0 <= n < |l.tasks| && l'.tasks[n].phase.Forgotten? ::
               l.tasks[n].phase.Forgotten? || At(l.chains, l.tasks[n].key) != Some(n)
    ensures MapHoldsLast(l')
  {
  }

  lemma OrderStays(l: Lock, l': Lock)
    requires RunInOrder(l) && FurtherAlong(l, l')
    requires forall n | 0 <= n < |l.tasks| && l.tasks[n].phase.Waiting? :: l'.tasks[n].phase.Waiting?
    ensures RunInOrder(l')
  {
  }

  lemma TurnMovesOn(l: Lock, turn: Turn)
    requires Enabled(l, turn) && !turn.Call?
    ensures FurtherAlong(l, Take(l, turn))
    ensures !turn.Forget? ==> Take(l, turn).chains == l.chains
    ensures forall n | 0 <= n < |l.tasks| && n != turn.n :: Take(l, turn).tasks[n] == l.tasks[n]
    ensures Take(l, turn).tasks[turn.n].phase
            == match turn { case Start(_) => Running case Finish(_, _) => Finished case Settle(_) => Settled case _ =>
                           Forgotten }
  {
  }

  /** A task that may start comes after settled ones only. */
  lemma StartKeepsOrder(l: Lock, l': Lock, n: nat)
    requires ChainedInOrder(l) && ChainedWithinKey(l) && RunInOrder(l) && FurtherAlong(l, l')
    requires n < |l.tasks| && (l.tasks[n].after.Some? ==> Done(l.tasks[l.tasks[n].after.value]))
    requires forall m | 0 <= m < |l.tasks| && m != n :: l'.tasks[m] == l.tasks[m]
    ensures RunInOrder(l')
  {
    forall m | 0 <= m < n && l.tasks[m].key == l.tasks[n].key ensures Done(l.tasks[m]) {
      if l.tasks[n].after.Some? { assert m <= l.tasks[n].after.value; }
    }
  }

  lemma ForgetKeepsMap(l: Lock, n: nat)
    requires MapHoldsLast(l) && RunInOrder(l) && Enabled(l, Forget(n))
    ensures MapHoldsLast(Take(l, Forget(n)))
  {
    TurnMovesOn(l, Forget(n));
    var l' := Take(l, Forget(n));
    if At(l.chains, l.tasks[n].key) == Some(n) {
      forall m | 0 <= m < |l.tasks| && m != n && l.tasks[m].key == l.tasks[n].key ensures Done(l'.tasks[m]) {
        assert m < n;
      }
    } else {
      MapStays(l, l');
    }
  }

  lemma TurnKeepsChaining(l: Lock, turn: Turn)
    requires MapHoldsLast(l) && ChainedInOrder(l) && ChainedWithinKey(l) && Enabled(l, turn)
    ensures ChainedInOrder(Take(l, turn)) && ChainedWithinKey(Take(l, turn))
  {
    if turn.Call? {
      CallKeepsChaining(l, turn.key);
    } else {
      TurnMovesOn(l, turn);
      ChainingStays(l, Take(l, turn));
    }
  }

  lemma TurnKeepsMap(l: Lock, turn: Turn)
    requires MapHoldsLast(l) && RunInOrder(l) && Enabled(l, turn)
    ensures MapHoldsLast(Take(l, turn))
  {
    if turn.Call? {
      CallKeepsMap(l, turn.key);
    } else if turn.Forget? {
      ForgetKeepsMap(l, turn.n);
    } else {
      TurnMovesOn(l, turn);
      MapStays(l, Take(l, turn));
    }
  }

  lemma TurnKeepsOrder(l: Lock, turn: Turn)
    requires ChainedInOrder(l) && ChainedWithinKey(l) && RunInOrder(l) && Enabled(l, turn)
    ensures RunInOrder(Take(l, turn))
  {
    if turn.Call? {
      CallKeepsOrder(l, turn.key);
    } else {
      TurnMovesOn(l, turn);
      if turn.Start? {
        StartKeepsOrder(l, Take(l, turn), turn.n);
      } else {
        OrderStays(l, Take(l, turn));
      }
    }
  }

  lemma TurnKeeps(l: Lock, turn: Turn)
    requires Inv(l) && Enabled(l, turn)
    ensures Inv(Take(l, turn))
  {
    TurnKeepsMap(l, turn);
    TurnKeepsChaining(l, turn);
    TurnKeepsOrder(l, turn);
  }

  /** The lock after a schedule; a turn that cannot be taken ends it. */
  function After(turns: seq<Turn>): Lock {
    if turns == [] then UNUSED
    else
      var l := After(turns[..|turns| - 1]);
      if Enabled(l, turns[|turns| - 1]) then Take(l, turns[|turns| - 1]) else l
  }

  lemma {:induction false} EverySchedule(turns: seq<Turn>)
    ensures Inv(After(turns))
  {
    if turns != [] {
      EverySchedule(turns[..|turns| - 1]);
      var l, turn := After(turns[..|turns| - 1]), turns[|turns| - 1];
      if Enabled(l, turn) { TurnKeeps(l, turn); }
    }
  }

  /**
   * Under every schedule, two tasks of one key are never under way together, and the one called first
   * has settled, kept or broken, before the other begins; no clean-up of the map lets it overtake.
   */
  lemma OneAtATimeInCallOrder(turns: seq<Turn>, m: nat, n: nat)
    requires m < n < |After(turns).tasks| && After(turns).tasks[m].key == After(turns).tasks[n].key
    ensures !After(turns).tasks[n].phase.Waiting? ==> Done(After(turns).tasks[m])
    ensures !(After(turns).tasks[m].phase.Running? && After(turns).tasks[n].phase.Running?)
  {
    EverySchedule(turns);
  }

  /** The oldest unsettled task of a key can always take its next turn: no rejection wedges those behind it. */
  lemma OldestCanMove(l: Lock, n: nat)
    requires Inv(l) && n < |l.tasks| && !Done(l.tasks[n])
    requires forall m | 0 <= m < n && l.tasks[m].key == l.tasks[n].key :: Done(l.tasks[m])
    ensures Enabled(l, if l.tasks[n].phase.Waiting? then Start(n) else if l.tasks[n].phase.Running?
                    then Finish(n, false) else Settle(n))
  {
  }

  lemma {:induction false} OldestUnsettled(l: Lock, n: nat) returns (oldest: nat)
    requires n < |l.tasks| && !Done(l.tasks[n])
    ensures oldest <= n && l.tasks[oldest].key == l.tasks[n].key && !Done(l.tasks[oldest])
    ensures forall m | 0 <= m < oldest && l.tasks[m].key == l.tasks[n].key :: Done(l.tasks[m])
  {
    if m :| 0 <= m < n && l.tasks[m].key == l.tasks[n].key && !Done(l.tasks[m]) {
      oldest := OldestUnsettled(l, m);
    } else {
      oldest := n;
    }
  }

  /** While any task of a key is unsettled, some task of that key, the oldest, has a turn to take. */
  lemma NeverWedged(turns: seq<Turn>, n: nat) returns (oldest: nat, turn: Turn)
    requires n < |After(turns).tasks| && !Done(After(turns).tasks[n])
    ensures oldest <= n && After(turns).tasks[oldest].key == After(turns).tasks[n].key
            && !Done(After(turns).tasks[oldest])
    ensures turn in {Start(oldest), Finish(oldest, false), Settle(oldest)} && Enabled(After(turns), turn)
  {
    var l := After(turns);
    EverySchedule(turns);
    oldest := OldestUnsettled(l, n);
    OldestCanMove(l, oldest);
    turn := if l.tasks[oldest].phase.Waiting? then Start(oldest) else if l.tasks[oldest].phase.Running?
      then Finish(oldest, false) else Settle(oldest);
  }

  /** Once every clean-up has run, the map is empty: a key takes no room after its last task. */
  lemma MapEmpties(turns: seq<Turn>)
    requires forall n | 0 <= n < |After(turns).tasks| :: After(turns).tasks[n].phase.Forgotten?
    ensures After(turns).chains == map[]
  {
    EverySchedule(turns);
    var l := After(turns);
    assert forall key :: key !in l.chains;
  }
}
