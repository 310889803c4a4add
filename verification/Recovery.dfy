/**
 * Crash recovery, and why the daemon never locks itself out: what every step, whole or cut short,
 * keeps true of the disk and of the ledger it stands for.
 */
module Recovery {
  import opened Wrappers
  import opened Decimal
  import opened Policy
  import opened Replay
  import opened LogView
  import opened Journal
  import opened AuditFile
  import opened Expiry
  import opened CheckpointIndependence
  import opened History
  import opened Daemon

  predicate LogBy(log: seq<Entry>, now: int) {
    forall x | x in log :: x.ts.Num? && x.ts.n <= now
  }

  /** A spend that names a transaction has the record that signed it in the log. */
  predicate Named(xs: seq<SpendRecord>, log: seq<Entry>) {
    forall i | 0 <= i < |xs| && xs[i].tx.Some? :: SignedIn(log, xs[i].tx.value)
  }

  predicate SignedIn(log: seq<Entry>, tx: string) {
    exists k :: 0 <= k < |log| && log[k].event.Signed? && log[k].tx == Str(tx)
  }

  ghost predicate Ready(codec: Codec, w: Writer, now: int) {
    Kept(codec, w.disk) && Linked(codec, w, now)
  }

  predicate Linked(codec: Codec, w: Writer, now: int) {
    && w.no == |w.disk.log| && w.prev == LastHash(codec, w.disk.log)
    && LogBy(w.disk.log, now) && NotAfter(Base(w.disk), now)
    && Named(Base(w.disk), w.disk.log) && Named(Stands(w.disk), w.disk.log)
  }

  /** What `audit` may be handed: a spend that can be read back, of a transaction that is new. */
  predicate Writable(log: seq<Entry>, e: Entry) {
    && (IsSpend(e) ==> !ReadLogged(e.(ts := Num(0))).unreadable)
    && (e.event.Signed? && IsTxHash(e.tx) ==> NewTx(log, e.tx))
  }

  lemma NamedMore(xs: seq<SpendRecord>, log: seq<Entry>, e: Entry)
    requires Named(xs, log)
    ensures Named(xs, log + [e])
  {
    forall i | 0 <= i < |xs| && xs[i].tx.Some? ensures SignedIn(log + [e], xs[i].tx.value) {
      var k :| 0 <= k < |log| && log[k].event.Signed? && log[k].tx == Str(xs[i].tx.value);
      assert (log + [e])[k] == log[k];
    }
  }

  lemma NewNamesNone(xs: seq<SpendRecord>, log: seq<Entry>, tx: string)
    requires Named(xs, log) && NewTx(log, Str(tx))
    ensures NoneNames(xs, tx)
  {
    forall i | 0 <= i < |xs| ensures !Names(xs[i], tx) {
      if xs[i].tx.Some? { assert SignedIn(log, xs[i].tx.value); }
    }
  }

  lemma LoggedNames(e: Entry)
    requires e.ts.Num? && IsSpend(e)
    ensures forall i | 0 <= i < |ReadLogged(e).records| && ReadLogged(e).records[i].tx.Some? ::
              e.event.Signed? && e.tx == Str(ReadLogged(e).records[i].tx.value)
  {
  }

  lemma StepIsNamed(xs: seq<SpendRecord>, log: seq<Entry>, e: Entry)
    requires Named(xs, log) && e.ts.Num?
    ensures Named(Step(xs, e), log + [e])
  {
    NamedMore(xs, log, e);
    assert (log + [e])[|log|] == e;
    if IsSpend(e) {
      LoggedNames(e);
    } else if e.event.SpendReleased? && IsTxHash(e.tx) {
      RemovedComesFrom(xs, e.tx.s);
    }
  }

  lemma ReadsAtAnyTime(e: Entry, ts: int, no: int, prev: string)
    requires IsSpend(e)
    ensures ReadLogged(Stamped(e, ts, no, prev)).unreadable == ReadLogged(e.(ts := Num(0))).unreadable
  {
  }

  lemma SignsNewHere(d: Disk, e: Entry)
    requires Named(Base(d), d.log) && (e.event.Signed? && IsTxHash(e.tx) ==> NewTx(d.log, e.tx))
    requires d.saved.Some? ==> d.saved.value.no <= |d.log|
    ensures SignsNew(Base(d), Since(d), e)
  {
    if e.event.Signed? && IsTxHash(e.tx) {
      NewNamesNone(Base(d), d.log, e.tx.s);
      SinceGrows(d, e);
    }
  }

  lemma AuditLinks(codec: Codec, w: Writer, t: Timed, now: int)
    requires Linked(codec, w, now) && now <= t.ts
    requires w.disk.saved.Some? ==> w.disk.saved.value.no <= |w.disk.log|
    ensures Linked(codec, Audit(codec, w, t), t.ts)
    ensures Stands(Audit(codec, w, t).disk) == Step(Stands(w.disk), Stamp(w, t))
  {
    var e := Stamp(w, t);
    AppendStands(w.disk, e);
    StepIsNamed(Stands(w.disk), w.disk.log, e);
    NamedMore(Base(w.disk), w.disk.log, e);
  }

  lemma StampInPlace(codec: Codec, w: Writer, t: Timed, now: int)
    requires Linked(codec, w, now) && Printable(codec, Stamp(w, t)) && Writable(w.disk.log, t.note)
    ensures InPlace(codec, w.disk.log, Stamp(w, t))
  {
    if IsSpend(t.note) { ReadsAtAnyTime(t.note, t.ts, w.no + 1, w.prev); }
  }

  lemma AuditKeeps(codec: Codec, w: Writer, t: Timed, now: int)
    requires Ready(codec, w, now) && now <= t.ts
    requires Printable(codec, Stamp(w, t)) && Writable(w.disk.log, t.note)
    ensures Ready(codec, Audit(codec, w, t), t.ts)
    ensures Stands(Audit(codec, w, t).disk) == Step(Stands(w.disk), Stamp(w, t))
  {
    AuditLinks(codec, w, t, now);
    StampInPlace(codec, w, t, now);
    SignsNewHere(w.disk, Stamp(w, t));
    AppendKeeps(codec, w.disk, Stamp(w, t));
  }

  /** The notes of one step: only its first can sign a transaction. */
  predicate AllWritable(log: seq<Entry>, notes: seq<Timed>, now: int, at: int) {
    && now <= at && (forall j | 0 <= j < |notes| :: notes[j].ts == at)
    && (forall j | 0 <= j < |notes| ::
          if j == 0 then Writable(log, notes[j].note)
          else Writable([], notes[j].note) && !notes[j].note.event.Signed?)
  }

  predicate AllPrintable(codec: Codec, w: Writer, notes: seq<Timed>) {
    forall j | 0 <= j < |notes| :: Printable(codec, Stamp(AuditAll(codec, w, notes[..j]), notes[j]))
  }

  lemma AllWritableButLast(log: seq<Entry>, notes: seq<Timed>, now: int, at: int, more: seq<Entry>)
    requires AllWritable(log, notes, now, at) && notes != []
    ensures AllWritable(log, notes[..|notes| - 1], now, at)
    ensures |notes| > 1 ==> Writable(more, notes[|notes| - 1].note)
  {
  }

  lemma AllPrintableButLast(codec: Codec, w: Writer, notes: seq<Timed>)
    requires AllPrintable(codec, w, notes) && notes != []
    ensures AllPrintable(codec, w, notes[..|notes| - 1])
    ensures Printable(codec, Stamp(AuditAll(codec, w, notes[..|notes| - 1]), notes[|notes| - 1]))
  {
    var before := notes[..|notes| - 1];
    forall j | 0 <= j < |before| ensures Printable(codec, Stamp(AuditAll(codec, w, before[..j]), before[j])) {
      assert before[j] == notes[j] && before[..j] == notes[..j];
    }
  }

  lemma ReadyLater(codec: Codec, w: Writer, now: int, at: int)
    requires Ready(codec, w, now) && now <= at
    ensures Ready(codec, w, at)
  {
  }

  lemma {:induction false} AuditAllKeeps(codec: Codec, w: Writer, notes: seq<Timed>, now: int, at: int)
    requires Ready(codec, w, now) && AllWritable(w.disk.log, notes, now, at) && AllPrintable(codec, w, notes)
    ensures Ready(codec, AuditAll(codec, w, notes), at)
    ensures Stands(AuditAll(codec, w, notes).disk) == Standing(Stands(w.disk), Records(codec, w, notes))
  {
    ReadyLater(codec, w, now, at);
    if notes != [] {
      var n := |notes| - 1;
      var before, last := notes[..n], notes[n];
      AllWritableButLast(w.disk.log, notes, now, at, AuditAll(codec, w, before).disk.log);
      AllPrintableButLast(codec, w, notes);
      AuditAllKeeps(codec, w, before, now, at);
      var w1 := AuditAll(codec, w, before);
      assert Writable(w1.disk.log, last.note) by { assert n == 0 ==> before == []; }
      AuditKeeps(codec, w1, last, at);
      assert Records(codec, w, notes)[..n] == Records(codec, w, before);
    }
  }

  lemma {:induction false} AuditAllAppends(codec: Codec, w: Writer, notes: seq<Timed>)
    ensures AuditAll(codec, w, notes).disk == w.disk.(log := w.disk.log + Records(codec, w, notes))
  {
    if notes == [] {
      assert w.disk.log + [] == w.disk.log;
    } else {
      AuditAllAppends(codec, w, notes[..|notes| - 1]);
    }
  }

  // ---- what the notes of a step say ------------------------------------------------------------------

  lemma SignedNoteReads(ask: Ask, b: Built, ts: int, no: int, prev: string)
    requires WellAsked(ask)
    requires (b.tx.Some? ==> IsTxHash(Str(b.tx.value))) && (b.slot.Some? ==> IsSlot(Num(b.slot.value)))
    ensures ReadLogged(Stamped(SignedNote(ask, b), ts, no, prev)) == Logged(Payment(ask, b, ts), false)
  {
    PrintThenRead(b.overhead);
  }

  lemma VoucherNoteReads(ask: Ask, ts: int, no: int, prev: string)
    requires WellAsked(ask) && IsBatch(ask)
    ensures ReadLogged(Stamped(VoucherNote(ask), ts, no, prev)) == Logged([SpendFor(ask, ts)], false)
  {
  }

  // ---- what every step keeps -------------------------------------------------------------------------

  function WriterAt(codec: Codec, d: Disk): Writer {
    Writer(|d.log|, LastHash(codec, d.log), d)
  }

  /** The books and the disk agree: the disk stands for the ledger, and `audit` goes on where the log ends. */
  ghost predicate Agree(env: Env, s: State) {
    && InTime(s.books, s.now) && Conserved(s.books)
    && Ready(env.codec, WriterAt(env.codec, s.disk), s.now)
    && Stands(s.disk) == s.books.ledger
    && (s.up.Some? ==>
          s.disk.torn == "" && s.up.value.no == |s.disk.log| && s.up.value.prev == LastHash(env.codec, s.disk.log))
  }

  /** The requests being worked on came in well formed. */
  predicate WellTasked(s: State) {
    s.up.Some? ==> TasksGood(s.up.value.tasks) && QueueGood(s.up.value.queue)
  }

  predicate TasksGood(tasks: map<string, Task>) {
    forall agent | agent in tasks :: GoodTask(agent, tasks[agent])
  }

  predicate QueueGood(queue: map<string, Ask>) {
    forall id | id in queue :: WellAsked(queue[id])
  }

  predicate GoodTask(agent: string, t: Task) {
    match t
    case Building(ask, _) => WellAsked(ask) && ask.req.agentId == agent && !IsBatch(ask)
    case Asking(ask) => WellAsked(ask) && ask.req.agentId == agent
    case _ => true
  }

  lemma OneTaskMore(tasks: map<string, Task>, agent: string, t: Task)
    requires TasksGood(tasks) && GoodTask(agent, t)
    ensures TasksGood(tasks[agent := t])
  {
  }

  lemma MemoryKeepsTasks(env: Env, s: State, a: Action)
    requires WellTasked(s) && Placed(env, s, a)
    ensures TasksGood(MemoryOf(env, s, a).tasks) && QueueGood(MemoryOf(env, s, a).queue)
  {
    if s.up.Some? {
      var m, m' := s.up.value, MemoryOf(env, s, a);
      match a
      case Begin(ask, _) => OneTaskMore(m.tasks, ask.req.agentId, Building(ask, None));
      case AskHuman(ask, _) => OneTaskMore(m.tasks, ask.req.agentId, Asking(ask));
      case Enqueue(agent, id, _, _) => assert GoodTask(agent, m.tasks[agent]);
      case Approve(id, _) => OneTaskMore(m.tasks, m.queue[id].req.agentId, Building(m.queue[id], Some(id)));
      case ApproveDraw(id, _) =>
        OneTaskMore(m.tasks, m.queue[id].req.agentId, Drawing(Some(id), false, Some(m.queue[id])));
      case BeginDraw(agent, _) => OneTaskMore(m.tasks, agent, Drawing(None, false, None));
      case Commit(agent, _, _, _, _, _) =>
        if m.tasks[agent].approving.Some? { OneTaskMore(m.tasks, agent, Recorded(m.tasks[agent].approving.value)); }
      case Draw(ask, _, _, _, _, _) => OneTaskMore(m.tasks, ask.req.agentId, m.tasks[ask.req.agentId].(spent := true));
      case _ =>
    }
  }

  lemma LearnKeeps(b: Books, e: Entry, now: int)
    requires InTime(b, now) && Conserved(b) && e.ts.Num? && now <= e.ts.n
    ensures InTime(Learn(b, e), e.ts.n) && Conserved(Learn(b, e))
  {
    if IsSpend(e) {
      LoggedIsSound(e);
      SpendInTime(b, ReadLogged(e).records, now, e.ts.n, e.ts.n);
      SpendConserves(b, ReadLogged(e).records);
    } else if e.event.SpendReleased? && IsTxHash(e.tx) {
      FreeInTime(b, e.tx.s, now, e.ts.n);
      FreeConserves(b, e.tx.s);
    }
  }

  lemma {:induction false} LearnAllKeeps(b: Books, es: seq<Entry>, now: int, at: int)
    requires InTime(b, now) && Conserved(b) && now <= at && forall i | 0 <= i < |es| :: es[i].ts == Num(at)
    ensures InTime(LearnAll(b, es), at) && Conserved(LearnAll(b, es))
    ensures LearnAll(b, es).ledger == Standing(b.ledger, es)
  {
    if es != [] {
      var before := es[..|es| - 1];
      LearnAllKeeps(b, before, now, at);
      LearnKeeps(LearnAll(b, before), es[|es| - 1], at);
      LearnSteps(LearnAll(b, before), es[|es| - 1]);
    }
  }

  predicate Quiet(e: Entry) {
    !IsSpend(e) && !e.event.SpendReleased?
  }

  lemma {:induction false} QuietStands(xs: seq<SpendRecord>, es: seq<Entry>)
    requires forall i | 0 <= i < |es| :: Quiet(es[i])
    ensures Standing(xs, es) == xs
  {
    if es != [] { QuietStands(xs, es[..|es| - 1]); }
  }

  lemma {:induction false} RecordsAre(codec: Codec, w: Writer, notes: seq<Timed>)
    ensures var rs := Records(codec, w, notes);
            forall i | 0 <= i < |notes| ::
              && rs[i].event == notes[i].note.event && rs[i].tx == notes[i].note.tx
              && rs[i].ts == Num(notes[i].ts) && rs[i].id == notes[i].note.id
  {
    if notes != [] { RecordsAre(codec, w, notes[..|notes| - 1]); }
  }

  /** What a start goes on with is what the disk stands for. */
  predicate Restores(env: Env, s: State, a: Action) {
    a.Start? ==>
      && a.found.spends == InWindow(Stands(s.disk), a.readAt - DAY)
      && a.found.lastSeq == |s.disk.log| && a.found.lastHash == LastHash(env.codec, s.disk.log)
  }

  lemma StartedRestores(env: Env, s: State, a: Action)
    requires Kept(env.codec, s.disk) && Started(env, s, a)
    ensures Restores(env, s, a)
  {
    if a.Start? { StartFinds(env.codec, s.disk, a.readAt - DAY); }
  }

  lemma WriterIsReady(env: Env, s: State, a: Action)
    requires Agree(env, s) && Placed(env, s, a) && Restores(env, s, a) && !a.Tick?
    ensures var w := WriterOf(env, s, a);
            Ready(env.codec, w, s.now) && w.disk == s.disk.(torn := "") && Stands(w.disk) == s.books.ledger
  {
    if a.Start? {
      RepairKeeps(env.codec, s.disk);
    } else {
      assert s.disk.(torn := "") == s.disk;
    }
  }

  lemma OthersWriteNoSpend(env: Env, s: State, a: Action)
    requires Placed(env, s, a) && !a.Commit? && !a.Draw?
    ensures forall i | 0 <= i < |NotesOf(env, s, a)| ::
              !IsSpend(NotesOf(env, s, a)[i].note) && NotesOf(env, s, a)[i].ts == TimeOf(a)
  {
  }

  lemma SpendsAreWritable(env: Env, s: State, a: Action)
    requires WellTasked(s) && Placed(env, s, a) && Assumed(env, s, a) && Clocked(s, a) && (a.Commit? || a.Draw?)
    ensures AllWritable(s.disk.log, NotesOf(env, s, a), s.now, TimeOf(a))
  {
    if a.Commit? {
      assert GoodTask(a.agent, TaskOf(s, a.agent));
      SignedNoteReads(TaskOf(s, a.agent).ask, a.built, 0, 0, "");
      ReadsAtAnyTime(SignedNote(TaskOf(s, a.agent).ask, a.built), 0, 0, "");
    } else {
      VoucherNoteReads(a.ask, 0, 0, "");
      ReadsAtAnyTime(VoucherNote(a.ask), 0, 0, "");
    }
  }

  lemma NotesAreWritable(env: Env, s: State, a: Action)
    requires WellTasked(s) && Placed(env, s, a) && Clocked(s, a) && Assumed(env, s, a)
    ensures AllWritable(s.disk.log, NotesOf(env, s, a), s.now, TimeOf(a))
  {
    if a.Commit? || a.Draw? { SpendsAreWritable(env, s, a); } else { OthersWriteNoSpend(env, s, a); }
  }

  lemma SomeWritable(codec: Codec, w: Writer, log: seq<Entry>, notes: seq<Timed>, now: int, at: int, n: nat)
    requires AllWritable(log, notes, now, at) && AllPrintable(codec, w, notes) && n <= |notes|
    ensures AllWritable(log, notes[..n], now, at) && AllPrintable(codec, w, notes[..n])
  {
    forall j | 0 <= j < n ensures Printable(codec, Stamp(AuditAll(codec, w, notes[..n][..j]), notes[..n][j])) {
      assert notes[..n][..j] == notes[..j];
    }
  }

  /** Some of a step's records written: the disk is one the daemon keeps, and the history learns what it stands for. */
  lemma WrittenAgrees(env: Env, s: State, a: Action, n: nat)
    requires Agree(env, s) && WellTasked(s) && !a.Tick?
    requires Ordered(env, s, a) && Restores(env, s, a)
    requires n <= |NotesOf(env, s, a)|
    ensures var w0, notes := WriterOf(env, s, a), NotesOf(env, s, a)[..n];
            var w, b := AuditAll(env.codec, w0, notes), LearnAll(s.books, Records(env.codec, w0, notes));
            && Ready(env.codec, w, TimeOf(a)) && w.disk.torn == ""
            && w.disk.log == s.disk.log + Records(env.codec, w0, notes)
            && InTime(b, TimeOf(a)) && Conserved(b) && b.ledger == Stands(w.disk)
            && b.ledger == Standing(s.books.ledger, Records(env.codec, w0, notes))
  {
    var w0, notes := WriterOf(env, s, a), NotesOf(env, s, a);
    WriterIsReady(env, s, a);
    NotesAreWritable(env, s, a);
    SomeWritable(env.codec, w0, s.disk.log, notes, s.now, TimeOf(a), n);
    AuditAllKeeps(env.codec, w0, notes[..n], s.now, TimeOf(a));
    AuditAllAppends(env.codec, w0, notes[..n]);
    RecordsAre(env.codec, w0, notes[..n]);
    LearnAllKeeps(s.books, Records(env.codec, w0, notes[..n]), s.now, TimeOf(a));
  }

  lemma TornKeeps(codec: Codec, d: Disk, torn: string)
    requires Kept(codec, d) && OneLine(torn) && |torn| < AUDIT_TAIL_BYTES
    ensures Kept(codec, d.(torn := torn))
  {
  }

  lemma ReadyIsAt(codec: Codec, w: Writer, now: int)
    requires Ready(codec, w, now)
    ensures w == WriterAt(codec, w.disk)
  {
  }

  lemma TornOfPrintable(codec: Codec, e: Entry, torn: string)
    requires Printable(codec, e) && torn <= codec.write(e)
    ensures OneLine(torn) && |torn| < AUDIT_TAIL_BYTES
  {
  }

  lemma DownAgrees(env: Env, w: Writer, b: Books, at: int, torn: string)
    requires Ready(env.codec, w, at) && InTime(b, at) && Conserved(b) && b.ledger == Stands(w.disk)
    requires OneLine(torn) && |torn| < AUDIT_TAIL_BYTES
    ensures Agree(env, State(at, b, w.disk.(torn := torn), None))
  {
    ReadyIsAt(env.codec, w, at);
    TornKeeps(env.codec, w.disk, torn);
  }

  lemma IdleCutAgrees(env: Env, s: State, at: int)
    requires Agree(env, s) && s.now <= at
    ensures Agree(env, State(at, s.books, s.disk, None)) && Agree(env, s.(now := at))
  {
    ReadyLater(env.codec, WriterAt(env.codec, s.disk), s.now, at);
  }

  lemma CutAgrees(env: Env, s: State, a: Action, n: nat, torn: string)
    requires Agree(env, s) && WellTasked(s) && Ordered(env, s, a) && Restores(env, s, a) && Cuts(env, s, a, n, torn)
    ensures Agree(env, CutShort(env, s, a, n, torn))
  {
    var notes, w0 := NotesOf(env, s, a), WriterOf(env, s, a);
    var w, b := AuditAll(env.codec, w0, notes[..n]), LearnAll(s.books, Records(env.codec, w0, notes[..n]));
    if a.Tick? {
      IdleCutAgrees(env, s, a.at);
      assert w.disk.(torn := torn) == s.disk && b == s.books;
    } else {
      WrittenAgrees(env, s, a, n);
      if n < |notes| { TornOfPrintable(env.codec, Stamp(w, notes[n]), torn); }
      DownAgrees(env, w, b, TimeOf(a), torn);
    }
  }

  lemma UpAgrees(env: Env, w: Writer, b: Books, at: int, m: Memory)
    requires Ready(env.codec, w, at) && w.disk.torn == "" && InTime(b, at) && Conserved(b) && b.ledger == Stands(w.disk)
    ensures Agree(env, State(at, b, w.disk, Some(m.(no := w.no, prev := w.prev))))
  {
    ReadyIsAt(env.codec, w, at);
  }

  lemma SaveReady(codec: Codec, w: Writer, ledger: seq<SpendRecord>, at: int)
    requires Ready(codec, w, at) && Whole(ledger) && NotAfter(ledger, at) && Named(ledger, w.disk.log)
    ensures Ready(codec, w.(disk := SavedAt(codec, w.disk, ledger)), at)
    ensures Stands(SavedAt(codec, w.disk, ledger)) == ledger
  {
    SaveKeeps(codec, w.disk, ledger);
    SaveStands(codec, w.disk, ledger);
  }

  /** A checkpoint of these books can be written over this log. */
  ghost predicate Savable(b: Books, log: seq<Entry>, at: int) {
    InTime(b, at) && Conserved(b) && Whole(b.ledger) && Named(b.ledger, log)
  }

  lemma SuffixIsWhole(xs: seq<SpendRecord>, n: nat)
    requires Whole(xs) && n <= |xs|
    ensures Whole(xs[n..])
  {
    var out := xs[n..];
    forall tx ensures OneTime(out, tx) {
      assert OneTime(xs, tx);
    }
  }

  lemma PrunedIsSavable(b: Books, log: seq<Entry>, now: int, prunedAt: int, at: int)
    requires Savable(b, log, now) && now <= prunedAt <= at
    ensures Savable(Pruned(b, prunedAt), log, at)
  {
    PruneInTime(b, now, prunedAt, at);
    PruneConserves(b, prunedAt);
    SuffixIsWhole(b.ledger, Expired(b.ledger, prunedAt - DAY));
  }

  /** Spends dated now, and recorded in the log as one of its records. */
  lemma SpentIsSavable(b: Books, log: seq<Entry>, now: int, e: Entry, log': seq<Entry>)
    requires Savable(b, log, now) && e.ts.Num? && now <= e.ts.n && IsSpend(e)
    requires e.event.Signed? && IsTxHash(e.tx) ==> NewTx(log, e.tx)
    requires |log'| > |log| && log == log'[..|log|]
    requires exists k :: |log| <= k < |log'| && log'[k].event == e.event && log'[k].tx == e.tx
    ensures Savable(Spend(b, ReadLogged(e).records), log', e.ts.n)
  {
    var rs := ReadLogged(e).records;
    LoggedIsSound(e);
    LoggedNames(e);
    LedgerInTime(b, now);
    if e.event.Signed? && IsTxHash(e.tx) { NewNamesNone(b.ledger, log, e.tx.s); }
    StepIsWhole(b.ledger, e);
    SpendInTime(b, rs, now, e.ts.n, e.ts.n);
    SpendConserves(b, rs);
    NamedLonger(b.ledger, log, log');
    NamedAll(rs, e, log');
  }

  lemma NamedLonger(xs: seq<SpendRecord>, log: seq<Entry>, log': seq<Entry>)
    requires Named(xs, log) && |log'| >= |log| && log == log'[..|log|]
    ensures Named(xs, log')
  {
    forall i | 0 <= i < |xs| && xs[i].tx.Some? ensures SignedIn(log', xs[i].tx.value) {
      var k :| 0 <= k < |log| && log[k].event.Signed? && log[k].tx == Str(xs[i].tx.value);
      assert log'[k] == log[k];
    }
  }

  lemma NamedAll(rs: seq<SpendRecord>, e: Entry, log: seq<Entry>)
    requires forall i | 0 <= i < |rs| && rs[i].tx.Some? :: e.event.Signed? && e.tx == Str(rs[i].tx.value)
    requires exists k :: 0 <= k < |log| && log[k].event == e.event && log[k].tx == e.tx
    ensures Named(rs, log)
  {
    var k :| 0 <= k < |log| && log[k].event == e.event && log[k].tx == e.tx;
    forall i | 0 <= i < |rs| && rs[i].tx.Some? ensures SignedIn(log, rs[i].tx.value) {
      assert log[k].event.Signed? && log[k].tx == Str(rs[i].tx.value);
    }
  }

  lemma FreedIsSavable(b: Books, log: seq<Entry>, now: int, tx: string, log': seq<Entry>, at: int)
    requires Savable(b, log, now) && now <= at && |log'| >= |log| && log == log'[..|log|]
    ensures Savable(History.Free(b, tx), log', at)
  {
    FreeInTime(b, tx, now, at);
    FreeConserves(b, tx);
    RemovedComesFrom(b.ledger, tx);
    RemovedIsPaired(b.ledger, tx);
    NamedLonger(b.ledger, log, log');
  }

  lemma AgreeIsSavable(env: Env, s: State)
    requires Agree(env, s)
    ensures Savable(s.books, s.disk.log, s.now)
  {
    StandingIsWhole(Base(s.disk), Since(s.disk));
  }

  lemma CommitSavable(env: Env, s: State, a: Action, log': seq<Entry>)
    requires a.Commit? && Agree(env, s) && WellTasked(s) && Placed(env, s, a) && Clocked(s, a) && Assumed(env, s, a)
    requires log' == s.disk.log + Records(env.codec, WriterOf(env, s, a), NotesOf(env, s, a))
    ensures Savable(BooksOf(env, s, a), log', a.at)
  {
    var ask, w := TaskOf(s, a.agent).ask, WriterOf(env, s, a);
    assert GoodTask(a.agent, TaskOf(s, a.agent));
    AgreeIsSavable(env, s);
    RecordsAre(env.codec, w, NotesOf(env, s, a));
    var e := Stamped(SignedNote(ask, a.built), a.signedAt, 0, "");
    SignedNoteReads(ask, a.built, a.signedAt, 0, "");
    assert log'[|s.disk.log|].event == e.event && log'[|s.disk.log|].tx == e.tx;
    SpentIsSavable(s.books, s.disk.log, s.now, e, log');
    PrunedIsSavable(Spend(s.books, Payment(ask, a.built, a.signedAt)), log', a.signedAt, a.prunedAt, a.at);
  }

  lemma DrawSavable(env: Env, s: State, a: Action, log': seq<Entry>)
    requires a.Draw? && Agree(env, s) && Placed(env, s, a) && Clocked(s, a)
    requires log' == s.disk.log + Records(env.codec, WriterOf(env, s, a), NotesOf(env, s, a))
    ensures Savable(BooksOf(env, s, a), log', a.at)
  {
    var w, notes := WriterOf(env, s, a), NotesOf(env, s, a);
    AgreeIsSavable(env, s);
    RecordsAre(env.codec, w, notes);
    var e := Stamped(VoucherNote(a.ask), a.pushedAt, 0, "");
    VoucherNoteReads(a.ask, a.pushedAt, 0, "");
    var k := |s.disk.log| + |notes| - 1;
    assert log'[k].event == e.event && log'[k].tx == e.tx;
    SpentIsSavable(s.books, s.disk.log, s.now, e, log');
    PrunedIsSavable(Spend(s.books, [SpendFor(a.ask, a.pushedAt)]), log', a.pushedAt, a.prunedAt, a.at);
  }

  lemma StartBooks(env: Env, s: State, a: Action)
    requires a.Start? && Agree(env, s) && Restores(env, s, a)
    requires Placed(env, s, a)
    ensures BooksOf(env, s, a) == Pruned(s.books, a.readAt)
  {
    LedgerInTime(s.books, s.now);
    PrunedIsWindow(s.books.ledger, a.readAt - DAY);
  }

  lemma SaveIsSavable(env: Env, s: State, a: Action, log': seq<Entry>)
    requires Agree(env, s) && WellTasked(s) && Placed(env, s, a) && Clocked(s, a) && Restores(env, s, a)
             && Assumed(env, s, a) && Saves(s, a)
    requires log' == s.disk.log + Records(env.codec, WriterOf(env, s, a), NotesOf(env, s, a))
    ensures Savable(BooksOf(env, s, a), log', TimeOf(a))
  {
    if a.Commit? {
      CommitSavable(env, s, a, log');
    } else if a.Draw? {
      DrawSavable(env, s, a, log');
    } else {
      AgreeIsSavable(env, s);
      if a.Start? {
        StartBooks(env, s, a);
        PrunedIsSavable(s.books, s.disk.log, s.now, a.readAt, a.at);
        NamedLonger(BooksOf(env, s, a).ledger, s.disk.log, log');
      } else {
        FreedIsSavable(s.books, s.disk.log, s.now, a.absent.tx.value, log', a.at);
      }
    }
  }

  lemma QuietUnlessSaved(env: Env, s: State, a: Action)
    requires Placed(env, s, a) && !Saves(s, a)
    ensures BooksOf(env, s, a) == s.books
    ensures forall i | 0 <= i < |NotesOf(env, s, a)| :: Quiet(NotesOf(env, s, a)[i].note)
  {
  }

  lemma InTimeLater(b: Books, now: int, at: int)
    requires InTime(b, now) && now <= at
    ensures InTime(b, at)
  {
  }

  /** All of a step's records written. */
  lemma AllWrittenAgrees(env: Env, s: State, a: Action)
    requires Agree(env, s) && WellTasked(s) && Ordered(env, s, a) && Restores(env, s, a) && !a.Tick?
    ensures var w0, notes := WriterOf(env, s, a), NotesOf(env, s, a);
            var w := AuditAll(env.codec, w0, notes);
            && Ready(env.codec, w, TimeOf(a)) && w.disk.torn == ""
            && w.disk.log == s.disk.log + Records(env.codec, w0, notes)
            && Stands(w.disk) == Standing(s.books.ledger, Records(env.codec, w0, notes))
  {
    var notes := NotesOf(env, s, a);
    assert notes[..|notes|] == notes;
    WrittenAgrees(env, s, a, |notes|);
  }

  lemma UnsavedDisk(env: Env, s: State, a: Action)
    requires Agree(env, s) && WellTasked(s) && Ordered(env, s, a) && Restores(env, s, a) && !Saves(s, a) && !a.Tick?
    ensures var w := AuditAll(env.codec, WriterOf(env, s, a), NotesOf(env, s, a));
            Ready(env.codec, w, TimeOf(a)) && w.disk.torn == "" && Stands(w.disk) == s.books.ledger
  {
    var notes, w0 := NotesOf(env, s, a), WriterOf(env, s, a);
    AllWrittenAgrees(env, s, a);
    QuietUnlessSaved(env, s, a);
    QuietRecords(env.codec, w0, notes, s.books.ledger);
  }

  lemma QuietRecords(codec: Codec, w: Writer, notes: seq<Timed>, xs: seq<SpendRecord>)
    requires forall i | 0 <= i < |notes| :: Quiet(notes[i].note)
    ensures Standing(xs, Records(codec, w, notes)) == xs
  {
    RecordsAre(codec, w, notes);
    QuietStands(xs, Records(codec, w, notes));
  }

  lemma ClockedForward(s: State, a: Action)
    requires Clocked(s, a)
    ensures s.now <= TimeOf(a)
  {
  }

  lemma UnsavedAgrees(env: Env, s: State, a: Action)
    requires Agree(env, s) && WellTasked(s) && Ordered(env, s, a) && Restores(env, s, a) && !Saves(s, a) && !a.Tick?
    ensures Agree(env, Do(env, s, a))
  {
    UnsavedDisk(env, s, a);
    QuietUnlessSaved(env, s, a);
    ClockedForward(s, a);
    InTimeLater(s.books, s.now, TimeOf(a));
    UpAgrees(env, AuditAll(env.codec, WriterOf(env, s, a), NotesOf(env, s, a)), s.books, TimeOf(a),
             MemoryOf(env, s, a));
  }

  lemma SavedAgrees(env: Env, s: State, a: Action)
    requires Agree(env, s) && WellTasked(s) && Ordered(env, s, a) && Restores(env, s, a) && Saves(s, a)
    ensures Agree(env, Do(env, s, a))
  {
    var w, b := AuditAll(env.codec, WriterOf(env, s, a), NotesOf(env, s, a)), BooksOf(env, s, a);
    AllWrittenAgrees(env, s, a);
    SaveIsSavable(env, s, a, w.disk.log);
    LedgerInTime(b, TimeOf(a));
    SaveReady(env.codec, w, b.ledger, TimeOf(a));
    UpAgrees(env, w.(disk := SavedAt(env.codec, w.disk, b.ledger)), b, TimeOf(a), MemoryOf(env, s, a));
  }

  lemma DoAgrees(env: Env, s: State, a: Action)
    requires Agree(env, s) && WellTasked(s) && Ordered(env, s, a) && Restores(env, s, a)
    ensures Agree(env, Do(env, s, a)) && WellTasked(Do(env, s, a))
  {
    MemoryKeepsTasks(env, s, a);
    if a.Tick? {
      IdleCutAgrees(env, s, a.at);
    } else if Saves(s, a) {
      SavedAgrees(env, s, a);
    } else {
      UnsavedAgrees(env, s, a);
    }
  }

  lemma MoveAgrees(env: Env, s: State, m: Move)
    requires Agree(env, s) && WellTasked(s) && CanMove(env, s, m)
    ensures Agree(env, Next(env, s, m)) && WellTasked(Next(env, s, m))
  {
    StartedRestores(env, s, m.a);
    match m
    case Cut(a, n, torn) => CutAgrees(env, s, a, n, torn);
    case Full(a) => DoAgrees(env, s, a);
  }

  lemma MovedAgrees(env: Env, s: State, m: Move)
    requires Agree(env, s) && WellTasked(s)
    ensures Agree(env, Moved(env, s, m)) && WellTasked(Moved(env, s, m))
  {
    if CanMove(env, s, m) { MoveAgrees(env, s, m); }
  }

  lemma {:induction false} EveryRunAgrees(env: Env, begun: int, moves: seq<Move>)
    ensures Agree(env, After(env, begun, moves)) && WellTasked(After(env, begun, moves))
  {
    if moves != [] {
      EveryRunAgrees(env, begun, moves[..|moves| - 1]);
      MovedAgrees(env, After(env, begun, moves[..|moves| - 1]), moves[|moves| - 1]);
    }
  }

  // ---- the promises ------------------------------------------------------------------------------------

  /**
   * The daemon never locks itself out. Whatever the run, and wherever it crashed, a start at any time
   * accepts the disk (no break in the chain, no malformed line, the checkpoint found), numbers on
   * from the last record, and has for its ledger what the history has in the window.
   */
  lemma NeverLockedOut(env: Env, begun: int, moves: seq<Move>, readAt: int)
    ensures var s := After(env, begun, moves);
            var r := Startup(env.codec, s.disk, readAt - DAY);
            && Accepts(r)
            && r.value.spends == InWindow(s.books.ledger, readAt - DAY)
            && r.value.lastSeq == |s.disk.log| && r.value.lastHash == LastHash(env.codec, s.disk.log)
  {
    EveryRunAgrees(env, begun, moves);
    StartFinds(env.codec, After(env, begun, moves).disk, readAt - DAY);
  }
}
