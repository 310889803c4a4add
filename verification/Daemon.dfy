/**
 * signerd's spend control as a state machine. A step is what runs between two awaits; the tasks hold
 * their agent's lock from one step to the next. A crash may fall between any two disk writes of a
 * step, or inside an append, and takes everything but the disk.
 */
module Daemon {
  import opened Wrappers
  import opened Decimal
  import opened Policy
  import opened Replay
  import opened LogView
  import opened Journal
  import opened Expiry
  import opened History

  /** What does not change during a run: the policy, how records are written, and what the chain will hold. */
  datatype Env = Env(policy: Policy, codec: Codec, world: World, margin: nat)

  /** A request, with its amount as the caller spelled it. */
  datatype Ask = Ask(req: PaymentRequest, spelled: string)

  /** What `sign` reads back of the transaction built for a request. */
  datatype Built = Built(overhead: nat, tx: Option<string>, slot: Option<nat>)

  datatype Held = Held(id: string, spend: SpendRecord)

  /** What holds an agent's lock; `shown` is the request a human approved this voucher for. */
  datatype Task =
    | Building(ask: Ask, approving: Option<string>)
    | Drawing(approving: Option<string>, spent: bool, shown: Option<Ask>)
    | Asking(ask: Ask)
    | Recorded(id: string)

  datatype Memory = Memory(no: int, prev: string, held: seq<Held>, queue: map<string, Ask>, tasks: map<string, Task>,
                           absent: seq<SpendRecord>)

  datatype State = State(now: int, books: Books, disk: Disk, up: Option<Memory>)

  datatype Action =
    | Tick(at: int)
    | Note(at: int, entry: Entry)
    | Begin(ask: Ask, at: int)
    | AskHuman(ask: Ask, at: int)
    | Enqueue(agent: string, id: string, heldAt: int, at: int)
    | Answer(id: string, how: Terminal, at: int)
    | Approve(id: string, at: int)
    | ApproveDraw(id: string, at: int)
    | BeginDraw(agent: string, at: int)
    | Commit(agent: string, built: Built, judgedAt: int, signedAt: int, prunedAt: int, at: int)
    | Draw(ask: Ask, step: Option<Entry>, judgedAt: int, pushedAt: int, prunedAt: int, at: int)
    | Finish(agent: string, how: Terminal, at: int)
    | Reconciled(tip: int, answers: map<string, bool>, pass: Pass, at: int)
    | Release(absent: SpendRecord, at: int)
    | Start(readAt: int, found: Replay, at: int)

  /** A whole step, or one cut short after `written` of its records with part of the next. */
  datatype Move = Full(a: Action) | Cut(a: Action, written: nat, torn: string)

  // ---- requests, spends and records ------------------------------------------------------------------

  predicate IsBatch(ask: Ask) {
    Or(ask.req.scheme, "exact") == BATCH
  }

  /** What `/sign` refuses before anything is decided. */
  predicate WellAsked(ask: Ask) {
    ask.req.agentId != "" && ask.req.asset != "" && IsDecimal(ask.spelled) && FromDecimal(ask.spelled) == ask.req.amount
  }

  /** `BigInt(input.amount)` of a request whose amount is spelled in digits. */
  function AmountOf(ask: Ask): nat {
    if ask.req.amount >= 0 then ask.req.amount else 0
  }

  function SpendFor(ask: Ask, ts: int): SpendRecord {
    SpendRecord(ts, ask.req.agentId, ask.req.asset, AmountOf(ask), IsBatch(ask), false, None, None)
  }

  /** What `sign` records: the payment, and beside it the ADA that leaves with it. */
  function Payment(ask: Ask, b: Built, ts: int): seq<SpendRecord> {
    var pay := SpendRecord(ts, ask.req.agentId, ask.req.asset, AmountOf(ask), false, false, b.tx, b.slot);
    if b.overhead > 0 then [pay, SpendRecord(ts, ask.req.agentId, LOVELACE, b.overhead, false, true, b.tx, b.slot)]
    else [pay]
  }

  function OverheadAsked(ask: Ask, b: Built): OverheadRequest {
    OverheadRequest(ask.req.agentId, ask.req.asset, ask.req.amount, b.overhead, ask.req.mainnet)
  }

  function Text(o: Option<string>): Json {
    if o.Some? then Str(o.value) else Undefined
  }

  function Number(o: Option<nat>): Json {
    if o.Some? then Num(o.value) else Undefined
  }

  function SignedNote(ask: Ask, b: Built): Entry {
    BLANK.(event := Event.Signed, agentId := Str(ask.req.agentId), reason := Text(ask.req.reason),
           asset := Str(ask.req.asset),
           amount := Str(ask.spelled), tx := Text(b.tx), ttlSlot := Number(b.slot),
             overheadLovelace := Str(ToDecimal(b.overhead)))
  }

  function VoucherNote(ask: Ask): Entry {
    BLANK.(event := VoucherSigned, agentId := Str(ask.req.agentId), reason := Text(ask.req.reason),
           asset := Str(ask.req.asset),
           amount := Str(ask.spelled))
  }

  function PendingNote(id: string, ask: Ask): Entry {
    BLANK.(event := Event.Pending, id := Str(id), agentId := Str(ask.req.agentId), reason := Text(ask.req.reason),
           asset := Str(ask.req.asset),
           amount := Str(ask.spelled))
  }

  function AnsweredNote(id: string, agentId: string, reason: Json, how: Terminal): Entry {
    BLANK.(event := Answered(how), id := Str(id), agentId := Str(agentId), reason := reason)
  }

  function ReleasedNote(r: SpendRecord, absent: SpendRecord): Entry {
    BLANK.(event := SpendReleased, agentId := Str(r.agentId), asset := Str(r.asset), amount := Str(ToDecimal(r.amount)),
           tx := Text(absent.tx), ttlSlot := Number(absent.ttlSlot))
  }

  // ---- the ledgers a decision is made on -------------------------------------------------------------

  function Spends(held: seq<Held>): (spends: seq<SpendRecord>)
    ensures |spends| == |held|
  {
    if held == [] then [] else Spends(held[..|held| - 1]) + [held[|held| - 1].spend]
  }

  /** The reservations of every id but this one. */
  function Without(held: seq<Held>, id: string): seq<Held> {
    if held == [] then []
    else if held[|held| - 1].id == id then Without(held[..|held| - 1], id)
    else Without(held[..|held| - 1], id) + [held[|held| - 1]]
  }

  function Leaving(held: seq<Held>, out: Option<string>): seq<Held> {
    if out.Some? then Without(held, out.value) else held
  }

  /** `effectiveLedger()`, and `ledgerExcluding(id)` when an approval is being made good. */
  function Judged(ledger: seq<SpendRecord>, held: seq<Held>, approving: Option<string>): seq<SpendRecord> {
    ledger + Spends(Leaving(held, approving))
  }

  // ---- writing ---------------------------------------------------------------------------------------

  datatype Timed = Timed(ts: int, note: Entry)

  /** What `audit` reads and writes: the number and the hash of the last record, and the disk. */
  datatype Writer = Writer(no: int, prev: string, disk: Disk)

  function Stamp(w: Writer, t: Timed): Entry {
    Stamped(t.note, t.ts, w.no + 1, w.prev)
  }

  function Audit(codec: Codec, w: Writer, t: Timed): Writer {
    Writer(w.no + 1, codec.hash(codec.write(Stamp(w, t))), Appended(w.disk, Stamp(w, t)))
  }

  /** The records `notes` become, each stamped after the last. */
  function Records(codec: Codec, w: Writer, notes: seq<Timed>): (records: seq<Entry>)
    ensures |records| == |notes|
  {
    if notes == [] then []
    else
      var before := notes[..|notes| - 1];
      Records(codec, w, before) + [Stamp(AuditAll(codec, w, before), notes[|notes| - 1])]
  }

  function AuditAll(codec: Codec, w: Writer, notes: seq<Timed>): Writer {
    if notes == [] then w else Audit(codec, AuditAll(codec, w, notes[..|notes| - 1]), notes[|notes| - 1])
  }

  // ---- the steps ---------------------------------------------------------------------------------------

  function Idle(m: Memory, agent: string): Memory {
    m.(tasks := m.tasks - {agent})
  }

  function Working(m: Memory, agent: string, t: Task): Memory {
    m.(tasks := m.tasks[agent := t])
  }

  /** The reservation a task is to drop when it ends. */
  function Claim(t: Task): Option<string> {
    match t
    case Building(_, approving) => approving
    case Drawing(approving, _, _) => approving
    case Asking(_) => None
    case Recorded(id) => Some(id)
  }

  function DecideAsk(env: Env, s: State, ask: Ask, approving: Option<string>, at: int): Decision
    requires s.up.Some?
  {
    Decide(env.policy, Judged(s.books.ledger, s.up.value.held, approving), ask.req, at)
  }

  predicate Unlocked(s: State, agent: string) {
    s.up.Some? && agent !in s.up.value.tasks
  }

  predicate Busy(s: State, agent: string) {
    s.up.Some? && agent in s.up.value.tasks
  }

  function TaskOf(s: State, agent: string): Task
    requires Busy(s, agent)
  {
    s.up.value.tasks[agent]
  }

  /** What a start reads back of the disk, and goes on with. */
  predicate Finds(env: Env, d: Disk, readAt: int, found: Replay) {
    var r := Startup(env.codec, d, readAt - DAY);
    r == Some(found) && Accepts(r)
  }

  /** What must be there for the step to be taken, and who must hold or not hold the agent's lock. */
  predicate Placed(env: Env, s: State, a: Action) {
    match a
    case Tick(_) => true
    case Note(_, entry) => s.up.Some? && entry.event.AnyOther?
    case Begin(ask, _) => Unlocked(s, ask.req.agentId) && WellAsked(ask) && !IsBatch(ask)
    case AskHuman(ask, _) =>
      s.up.Some? && WellAsked(ask)
      && (if IsBatch(ask) then Busy(s, ask.req.agentId) && TaskOf(s, ask.req.agentId).Drawing?
          && TaskOf(s, ask.req.agentId).approving.None?
                     else Unlocked(s, ask.req.agentId))
    case Enqueue(agent, _, _, _) => Busy(s, agent) && TaskOf(s, agent).Asking?
    case Answer(id, how, _) => s.up.Some? && id in s.up.value.queue && !how.Approved? && !how.ApprovalSignError?
    case Approve(id, _) =>
      s.up.Some? && id in s.up.value.queue && !IsBatch(s.up.value.queue[id])
      && Unlocked(s, s.up.value.queue[id].req.agentId)
    case ApproveDraw(id, _) =>
      s.up.Some? && id in s.up.value.queue && IsBatch(s.up.value.queue[id])
      && Unlocked(s, s.up.value.queue[id].req.agentId)
    case BeginDraw(agent, _) => Unlocked(s, agent)
    case Commit(agent, _, _, _, _, _) => Busy(s, agent) && TaskOf(s, agent).Building?
    case Draw(ask, step, _, _, _, _) =>
      Busy(s, ask.req.agentId) && TaskOf(s, ask.req.agentId).Drawing? && WellAsked(ask) && IsBatch(ask)
      && (step.Some? ==> step.value.event.AnyOther?)
    case Finish(agent, how, _) =>
      Busy(s, agent) && (how.Approved? ==> TaskOf(s, agent).Recorded? || TaskOf(s, agent).Drawing?)
    case Reconciled(_, _, pass, _) => s.up.Some? && pass.margin == env.margin
    case Release(absent, _) =>
      s.up.Some? && absent in s.up.value.absent && absent.tx.Some? && Unlocked(s, absent.agentId)
    case Start(_, _, _) => s.up.None?
  }

  /** The clock does not run back: each step is after the one before, and each reading in it after the last. */
  predicate Clocked(s: State, a: Action) {
    match a
    case Enqueue(_, _, heldAt, at) => s.now <= heldAt <= at
    case Commit(_, _, judgedAt, signedAt, prunedAt, at) => s.now <= judgedAt <= signedAt <= prunedAt <= at
    case Draw(_, _, judgedAt, pushedAt, prunedAt, at) => s.now <= judgedAt <= pushedAt <= prunedAt <= at
    case Start(readAt, _, at) => s.now <= readAt <= at
    case _ => s.now <= TimeOf(a)
  }

  /** A start goes on with what replay found on the disk, and only when it accepts it. */
  predicate Started(env: Env, s: State, a: Action) {
    a.Start? ==> Finds(env, s.disk, a.readAt, a.found)
  }

  /** A voucher goes out when it is allowed, or when a human was shown this one: its payee, asset and amount. */
  predicate Goes(d: Decision, shown: Option<Ask>, ask: Ask) {
    d.Allow? || (d.NeedsApproval? && shown.Some? && SameAsk(shown.value, ask))
  }

  predicate SameAsk(x: Ask, y: Ask) {
    x.req.payTo == y.req.payTo && x.req.asset == y.req.asset && x.req.amount == y.req.amount
  }

  /** What the policy says where the step asks it. */
  predicate Admitted(env: Env, s: State, a: Action)
    requires Placed(env, s, a)
  {
    match a
    case Begin(ask, at) => DecideAsk(env, s, ask, None, at).Allow?
    case AskHuman(ask, at) => DecideAsk(env, s, ask, None, at).NeedsApproval?
    case Approve(id, at) => !DecideAsk(env, s, s.up.value.queue[id], Some(id), at).Deny?
    case Commit(agent, built, judgedAt, _, _, _) =>
      var t := TaskOf(s, agent);
      DecideOverhead(env.policy, Judged(s.books.ledger, s.up.value.held, t.approving), OverheadAsked(t.ask, built),
                     judgedAt).Allow?
    case Draw(ask, _, judgedAt, _, _, _) =>
      var t := TaskOf(s, ask.req.agentId);
      var d := DecideAsk(env, s, ask, t.approving, judgedAt);
      Goes(d, t.shown, ask)
    case _ => true
  }

  function TimeOf(a: Action): int {
    match a
    case Tick(at) => at
    case Note(at, _) => at
    case Begin(_, at) => at
    case AskHuman(_, at) => at
    case Enqueue(_, _, _, at) => at
    case Answer(_, _, at) => at
    case Approve(_, at) => at
    case ApproveDraw(_, at) => at
    case BeginDraw(_, at) => at
    case Commit(_, _, _, _, _, at) => at
    case Draw(_, _, _, _, _, at) => at
    case Finish(_, _, at) => at
    case Reconciled(_, _, _, at) => at
    case Release(_, at) => at
    case Start(_, _, at) => at
  }

  /** `findIndex` finds the transaction still in the ledger. */
  predicate StillThere(s: State, absent: SpendRecord) {
    absent.tx.Some? && FindTx(s.books.ledger, absent.tx.value) < |s.books.ledger|
  }

  function AbandonAll(open: seq<OpenApproval>, at: int): (notes: seq<Timed>)
    ensures |notes| == |open|
    ensures forall i | 0 <= i < |open| ::
            notes[i] == Timed(at, AnsweredNote(open[i].id, open[i].agentId, open[i].reason, PendingAbandoned))
  {
    if open == [] then []
    else
      var o := open[|open| - 1];
      AbandonAll(open[..|open| - 1], at) + [Timed(at, AnsweredNote(o.id, o.agentId, o.reason, PendingAbandoned))]
  }

  /** The records a step writes, in order. */
  function NotesOf(env: Env, s: State, a: Action): seq<Timed>
    requires Placed(env, s, a)
  {
    match a
    case Note(at, entry) => [Timed(at, entry)]
    case Enqueue(agent, id, _, at) => [Timed(at, PendingNote(id, TaskOf(s, agent).ask))]
    case Answer(id, how, at) =>
      [Timed(at, AnsweredNote(id, s.up.value.queue[id].req.agentId, Text(s.up.value.queue[id].req.reason), how))]
    case Commit(agent, built, _, _, _, at) => [Timed(at, SignedNote(TaskOf(s, agent).ask, built))]
    case Draw(ask, step, _, _, _, at) =>
      if step.Some? then [Timed(at, step.value), Timed(at, VoucherNote(ask))] else [Timed(at, VoucherNote(ask))]
    case Finish(agent, how, at) =>
      if Claim(TaskOf(s, agent)).Some?
        then [Timed(at, AnsweredNote(Claim(TaskOf(s, agent)).value, agent, Undefined, how))] else []
    case Release(absent, at) =>
      if StillThere(s, absent)
        then [Timed(at, ReleasedNote(s.books.ledger[FindTx(s.books.ledger, absent.tx.value)], absent))] else []
    case Start(_, found, at) => AbandonAll(found.openApprovals, at)
    case _ => []
  }

  /** Whether the step ends by writing the checkpoint. */
  predicate Saves(s: State, a: Action) {
    a.Commit? || a.Draw? || a.Start? || (a.Release? && StillThere(s, a.absent))
  }

  function BooksOf(env: Env, s: State, a: Action): Books
    requires Placed(env, s, a)
  {
    match a
    case Commit(agent, built, _, signedAt, prunedAt, _) =>
      Pruned(Spend(s.books, Payment(TaskOf(s, agent).ask, built, signedAt)), prunedAt)
    case Draw(ask, _, _, pushedAt, prunedAt, _) =>
      Pruned(Spend(s.books, [SpendFor(ask, pushedAt)]), prunedAt)
    case Release(absent, _) => History.Free(s.books, absent.tx.value)
    case Start(readAt, found, _) => s.books.(past := Pruned(s.books, readAt).past, ledger := found.spends)
    case _ => s.books
  }

  /** The queue, the reservations, the tasks and the release pass after a step. */
  function MemoryOf(env: Env, s: State, a: Action): Memory
    requires Placed(env, s, a)
  {
    var m := if s.up.Some? then s.up.value else Memory(0, "", [], map[], map[], []);
    match a
    case Begin(ask, _) => Working(m, ask.req.agentId, Building(ask, None))
    case AskHuman(ask, _) => Working(m, ask.req.agentId, Asking(ask))
    case Enqueue(agent, id, heldAt, _) =>
      var ask := m.tasks[agent].ask;
      Idle(m, agent).(held := m.held + [Held(id, SpendFor(ask, heldAt))], queue := m.queue[id := ask])
    case Answer(id, _, _) => m.(queue := m.queue - {id}, held := Without(m.held, id))
    case Approve(id, _) =>
      Working(m, m.queue[id].req.agentId, Building(m.queue[id], Some(id))).(queue := m.queue - {id})
    case ApproveDraw(id, _) =>
      Working(m, m.queue[id].req.agentId, Drawing(Some(id), false, Some(m.queue[id]))).(queue := m.queue - {id})
    case BeginDraw(agent, _) => Working(m, agent, Drawing(None, false, None))
    case Commit(agent, _, _, _, _, _) =>
      if m.tasks[agent].approving.Some? then Working(m, agent, Recorded(m.tasks[agent].approving.value))
      else Idle(m, agent)
    case Draw(ask, _, _, _, _, _) => Working(m, ask.req.agentId, m.tasks[ask.req.agentId].(spent := true))
    case Finish(agent, _, _) => Idle(m, agent).(held := Leaving(m.held, Claim(m.tasks[agent])))
    case Reconciled(tip, answers, pass, _) => m.(absent := Reconcile(s.books.ledger, tip, answers, pass).absent)
    case _ => m
  }

  /** A start repairs the file first, and goes on from where the replayed log stopped. */
  function WriterOf(env: Env, s: State, a: Action): Writer
    requires Placed(env, s, a)
  {
    if a.Start? then Writer(a.found.lastSeq, a.found.lastHash, s.disk.(torn := ""))
    else if s.up.Some? then Writer(s.up.value.no, s.up.value.prev, s.disk)
    else Writer(0, "", s.disk)
  }

  /** What the run assumes of a step's surroundings. */
  predicate Assumed(env: Env, s: State, a: Action) {
    match a
    case Enqueue(_, id, _, _) => NewId(s.disk.log, id)
    case Commit(_, built, _, _, _, _) =>
      && (built.tx.Some? ==> IsTxHash(Str(built.tx.value)) && NewTx(s.disk.log, Str(built.tx.value)))
      && (built.slot.Some? ==> IsSlot(Num(built.slot.value)))
      && (built.tx.Some? && built.slot.Some? && env.world(built.tx.value).Some?
          ==> env.world(built.tx.value).value <= built.slot.value)
    case _ => true
  }

  /** An approval id is not one the log has. */
  predicate NewId(log: seq<Entry>, id: string) {
    forall i | 0 <= i < |log| && (log[i].event.Pending? || log[i].event.Answered?) :: log[i].id != Str(id)
  }

  /** A transaction just signed is not one that was signed, or released, before. */
  predicate NewTx(log: seq<Entry>, tx: Json) {
    forall i | 0 <= i < |log| && (log[i].event.Signed? || log[i].event.SpendReleased?) :: log[i].tx != tx
  }

  /** The provider's answers to a pass are honest. */
  ghost predicate HonestStep(env: Env, a: Action) {
    a.Reconciled? ==> Honest(env.world, a.tip, env.margin, a.answers)
  }

  predicate NotesPrintable(env: Env, s: State, a: Action)
    requires Placed(env, s, a)
  {
    var notes, w := NotesOf(env, s, a), WriterOf(env, s, a);
    forall j | 0 <= j < |notes| :: Printable(env.codec, Stamp(AuditAll(env.codec, w, notes[..j]), notes[j]))
  }

  /** All but what the policy says, and what a start finds. */
  predicate Ordered(env: Env, s: State, a: Action) {
    Placed(env, s, a) && Clocked(s, a) && Assumed(env, s, a) && NotesPrintable(env, s, a)
  }

  predicate Enabled(env: Env, s: State, a: Action) {
    Ordered(env, s, a) && Started(env, s, a) && Admitted(env, s, a)
  }

  function Do(env: Env, s: State, a: Action): State
    requires Placed(env, s, a)
  {
    if a.Tick? then s.(now := a.at)
    else
      var w := AuditAll(env.codec, WriterOf(env, s, a), NotesOf(env, s, a));
      var b := BooksOf(env, s, a);
      State(TimeOf(a), b, if Saves(s, a) then SavedAt(env.codec, w.disk, b.ledger) else w.disk,
            Some(MemoryOf(env, s, a).(no := w.no, prev := w.prev)))
  }

  /** Where a crash may cut a step: after some of its records, and part of the next. */
  predicate Cuts(env: Env, s: State, a: Action, written: nat, torn: string)
    requires Placed(env, s, a)
  {
    var notes := NotesOf(env, s, a);
    && written <= |notes|
    && if written < |notes|
      then torn <= env.codec.write(Stamp(AuditAll(env.codec, WriterOf(env, s, a), notes[..written]), notes[written]))
       else torn == if a.Tick? then s.disk.torn else ""
  }

  /** A crash keeps the records that were written; the history learns of the spends from them. */
  function CutShort(env: Env, s: State, a: Action, written: nat, torn: string): State
    requires Placed(env, s, a) && written <= |NotesOf(env, s, a)|
  {
    var w, notes := WriterOf(env, s, a), NotesOf(env, s, a)[..written];
    State(TimeOf(a), LearnAll(s.books, Records(env.codec, w, notes)),
          AuditAll(env.codec, w, notes).disk.(torn := torn), None)
  }

  predicate CanMove(env: Env, s: State, m: Move) {
    match m
    case Full(a) => Enabled(env, s, a)
    case Cut(a, written, torn) => Enabled(env, s, a) && Cuts(env, s, a, written, torn)
  }

  function Next(env: Env, s: State, m: Move): State
    requires CanMove(env, s, m)
  {
    match m
    case Full(a) => Do(env, s, a)
    case Cut(a, written, torn) => CutShort(env, s, a, written, torn)
  }

  /** A move that the code or the surroundings rule out changes nothing. */
  function Moved(env: Env, s: State, m: Move): State {
    if CanMove(env, s, m) then Next(env, s, m) else s
  }

  /** Before the first start: no log and no checkpoint. */
  function First(now: int): State {
    State(now, EMPTY, Disk([], "", None), None)
  }

  /** The state after a run. */
  function After(env: Env, begun: int, moves: seq<Move>): State {
    if moves == [] then First(begun) else Moved(env, After(env, begun, moves[..|moves| - 1]), moves[|moves| - 1])
  }

  /** Every pass of the run was answered honestly. */
  ghost predicate HonestRun(env: Env, moves: seq<Move>) {
    forall i | 0 <= i < |moves| :: moves[i].Full? ==> HonestStep(env, moves[i].a)
  }
}
