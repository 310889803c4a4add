/**
 * Crash recovery: what a restart makes of the disk when a step was cut short between two of its
 * writes, inside one, or after the last of them.
 */
module CrashRecovery {
  import opened Wrappers
  import opened Policy
  import opened Replay
  import opened LogView
  import opened Journal
  import opened History
  import opened Daemon
  import opened Recovery

  /** The ledger a step leaves, before it is pruned. */
  function LedgerAfter(env: Env, s: State, a: Action): seq<SpendRecord>
    requires Placed(env, s, a)
  {
    match a
    case Commit(agent, built, _, signedAt, _, _) => s.books.ledger + Payment(TaskOf(s, agent).ask, built, signedAt)
    case Draw(ask, _, _, pushedAt, _, _) => s.books.ledger + [SpendFor(ask, pushedAt)]
    case Release(absent, _) => RemoveTx(s.books.ledger, absent.tx.value)
    case _ => s.books.ledger
  }

  /** The same by the log alone, whose records are dated when they are written. */
  function BooksByLog(env: Env, s: State, a: Action): Books
    requires Placed(env, s, a)
  {
    match a
    case Commit(agent, built, _, _, _, at) => Spend(s.books, Payment(TaskOf(s, agent).ask, built, at))
    case Draw(ask, _, _, _, _, at) => Spend(s.books, [SpendFor(ask, at)])
    case Release(absent, _) => History.Free(s.books, absent.tx.value)
    case _ => s.books
  }

  function LedgerByLog(env: Env, s: State, a: Action): seq<SpendRecord>
    requires Placed(env, s, a)
  {
    BooksByLog(env, s, a).ledger
  }

  /** The same spends in the same order, some dated later. */
  predicate OnlyLater(xs: seq<SpendRecord>, ys: seq<SpendRecord>) {
    |xs| == |ys| && forall i | 0 <= i < |xs| :: xs[i] == ys[i].(ts := xs[i].ts) && xs[i].ts >= ys[i].ts
  }

  /** Between the append and the checkpoint a crash can only date the new spends later. */
  lemma LoggedIsOnlyLater(env: Env, s: State, a: Action)
    requires Placed(env, s, a) && Clocked(s, a)
    ensures OnlyLater(LedgerByLog(env, s, a), LedgerAfter(env, s, a))
  {
  }

  lemma OneRecord(codec: Codec, w: Writer, t: Timed, b: Books)
    ensures LearnAll(b, Records(codec, w, [t])) == Learn(b, Stamp(w, t))
  {
    assert [t][..0] == [] && AuditAll(codec, w, []) == w;
    assert Records(codec, w, [t]) == [Stamp(w, t)] && [Stamp(w, t)][..0] == [];
  }

  lemma {:induction false} QuietLearns(b: Books, es: seq<Entry>)
    requires forall i | 0 <= i < |es| :: Quiet(es[i])
    ensures LearnAll(b, es) == b
  {
    if es != [] { QuietLearns(b, es[..|es| - 1]); }
  }

  lemma QuietPrefix(codec: Codec, w: Writer, notes: seq<Timed>, n: nat, b: Books)
    requires n <= |notes| && forall i | 0 <= i < n :: Quiet(notes[i].note)
    ensures LearnAll(b, Records(codec, w, notes[..n])) == b
  {
    RecordsAre(codec, w, notes[..n]);
    QuietLearns(b, Records(codec, w, notes[..n]));
  }

  lemma SignedLearns(codec: Codec, w: Writer, ask: Ask, built: Built, at: int, b: Books)
    requires WellAsked(ask)
    requires (built.tx.Some? ==> IsTxHash(Str(built.tx.value))) && (built.slot.Some? ==> IsSlot(Num(built.slot.value)))
    ensures LearnAll(b, Records(codec, w, [Timed(at, SignedNote(ask, built))])) == Spend(b, Payment(ask, built, at))
  {
    OneRecord(codec, w, Timed(at, SignedNote(ask, built)), b);
    SignedNoteReads(ask, built, at, w.no + 1, w.prev);
  }

  lemma CommitLearns(env: Env, s: State, a: Action, n: nat)
    requires a.Commit? && WellTasked(s) && Placed(env, s, a) && Assumed(env, s, a) && n <= |NotesOf(env, s, a)|
    ensures LearnAll(s.books, Records(env.codec, WriterOf(env, s, a), NotesOf(env, s, a)[..n]))
         == if n == 0 then s.books else BooksByLog(env, s, a)
  {
    assert GoodTask(a.agent, TaskOf(s, a.agent));
    var ask, notes := TaskOf(s, a.agent).ask, NotesOf(env, s, a);
    if n > 0 {
      assert notes[..n] == [Timed(a.at, SignedNote(ask, a.built))];
      SignedLearns(env.codec, WriterOf(env, s, a), ask, a.built, a.at, s.books);
    }
  }

  /** A step's own record comes before the voucher's, and says nothing of spends. */
  lemma DrawLearns(env: Env, s: State, a: Action, n: nat)
    requires a.Draw? && Placed(env, s, a) && n <= |NotesOf(env, s, a)|
    ensures LearnAll(s.books, Records(env.codec, WriterOf(env, s, a), NotesOf(env, s, a)[..n]))
         == if n < |NotesOf(env, s, a)| then s.books else BooksByLog(env, s, a)
  {
    var w, notes := WriterOf(env, s, a), NotesOf(env, s, a);
    var k := |notes| - 1;
    if n <= k {
      QuietPrefix(env.codec, w, notes, n, s.books);
    } else {
      QuietPrefix(env.codec, w, notes, k, s.books);
      var w1 := AuditAll(env.codec, w, notes[..k]);
      VoucherNoteReads(a.ask, a.at, w1.no + 1, w1.prev);
      assert notes[..n] == notes;
      var rs := Records(env.codec, w, notes);
      assert rs[..k] == Records(env.codec, w, notes[..k]) && rs[k] == Stamp(w1, notes[k]);
    }
  }

  /** The records a crash leaves say either nothing of the step or all of it. */
  lemma CutLearns(env: Env, s: State, a: Action, n: nat)
    requires WellTasked(s) && Placed(env, s, a) && Assumed(env, s, a) && n <= |NotesOf(env, s, a)|
    requires AllSound(s.books.ledger)
    ensures var b := LearnAll(s.books, Records(env.codec, WriterOf(env, s, a), NotesOf(env, s, a)[..n]));
            b == s.books || b == BooksByLog(env, s, a)
  {
    var w, notes := WriterOf(env, s, a), NotesOf(env, s, a);
    if a.Commit? {
      CommitLearns(env, s, a, n);
    } else if a.Draw? {
      DrawLearns(env, s, a, n);
    } else if a.Release? && n > 0 {
      assert notes[..n] == [notes[0]];
      OneRecord(env.codec, w, notes[0], s.books);
    } else {
      QuietPrefix(env.codec, w, notes, n, s.books);
    }
  }

  /**
   * Crash recovery. At any point of any run, let any step be cut short: before its first write, in or
   * after any of its appends, before the checkpoint is replaced. A restart at any later time is
   * accepted and finds, inside the window, the ledger from just before the step or the one the step
   * was recording, record for record and in order, with its new spends dated when the log has them.
   */
  lemma CrashRecovers(env: Env, begun: int, moves: seq<Move>, a: Action, n: nat, torn: string, readAt: int)
    requires var s := After(env, begun, moves); Enabled(env, s, a) && Cuts(env, s, a, n, torn)
    ensures var s := After(env, begun, moves);
            var r := Startup(env.codec, CutShort(env, s, a, n, torn).disk, readAt - DAY);
            && Accepts(r)
            && (r.value.spends == InWindow(s.books.ledger, readAt - DAY)
                || r.value.spends == InWindow(LedgerByLog(env, s, a), readAt - DAY))
            && OnlyLater(LedgerByLog(env, s, a), LedgerAfter(env, s, a))
  {
    var s := After(env, begun, moves);
    EveryRunAgrees(env, begun, moves);
    CrashRecoversHere(env, s, a, n, torn, readAt);
    LoggedIsOnlyLater(env, s, a);
  }

  lemma CrashRecoversHere(env: Env, s: State, a: Action, n: nat, torn: string, readAt: int)
    requires Agree(env, s) && WellTasked(s) && Enabled(env, s, a) && Cuts(env, s, a, n, torn)
    ensures var r := Startup(env.codec, CutShort(env, s, a, n, torn).disk, readAt - DAY);
            && Accepts(r)
            && (r.value.spends == InWindow(s.books.ledger, readAt - DAY)
                || r.value.spends == InWindow(LedgerByLog(env, s, a), readAt - DAY))
  {
    var s' := CutShort(env, s, a, n, torn);
    StartedRestores(env, s, a);
    CutAgrees(env, s, a, n, torn);
    StartFinds(env.codec, s'.disk, readAt - DAY);
    AgreeIsSavable(env, s);
    CutLearns(env, s, a, n);
  }

  /** A step that reached its end is recovered as it stood in memory. */
  lemma FinishedIsRecovered(env: Env, begun: int, moves: seq<Move>, a: Action, readAt: int)
    requires var s := After(env, begun, moves); Enabled(env, s, a) && !a.Start? && TimeOf(a) <= readAt
    ensures var s := After(env, begun, moves);
            var r := Startup(env.codec, Do(env, s, a).disk, readAt - DAY);
            Accepts(r) && r.value.spends == InWindow(LedgerAfter(env, s, a), readAt - DAY)
  {
    var s := After(env, begun, moves);
    EveryRunAgrees(env, begun, moves);
    FinishedHere(env, s, a, readAt);
  }

  lemma PrunedKeepsWindow(xs: seq<SpendRecord>, early: int, late: int)
    requires early <= late
    ensures InWindow(xs[Expired(xs, early)..], late) == InWindow(xs, late)
  {
    var n := Expired(xs, early);
    assert xs == xs[..n] + xs[n..];
    WindowConcat(xs[..n], xs[n..], late);
    WindowEmpty(xs[..n], late);
  }

  lemma FinishedHere(env: Env, s: State, a: Action, readAt: int)
    requires Agree(env, s) && WellTasked(s) && Enabled(env, s, a) && !a.Start? && TimeOf(a) <= readAt
    ensures var r := Startup(env.codec, Do(env, s, a).disk, readAt - DAY);
            Accepts(r) && r.value.spends == InWindow(LedgerAfter(env, s, a), readAt - DAY)
  {
    DoAgrees(env, s, a);
    StartFinds(env.codec, Do(env, s, a).disk, readAt - DAY);
    FinishedLedger(env, s, a, readAt - DAY);
  }

  lemma FinishedLedger(env: Env, s: State, a: Action, cutoff: int)
    requires Placed(env, s, a) && Clocked(s, a) && !a.Start? && TimeOf(a) - DAY <= cutoff
    ensures InWindow(Do(env, s, a).books.ledger, cutoff) == InWindow(LedgerAfter(env, s, a), cutoff)
  {
    match a
    case Commit(_, _, _, _, prunedAt, _) => PrunedKeepsWindow(LedgerAfter(env, s, a), prunedAt - DAY, cutoff);
    case Draw(_, _, _, _, prunedAt, _) => PrunedKeepsWindow(LedgerAfter(env, s, a), prunedAt - DAY, cutoff);
    case _ =>
  }
}
