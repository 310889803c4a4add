/**
 * signerd itself: the fields its handlers share and the methods that change them, each proved to take
 * the state machine's step. What is ghost here is what a run remembers and the process does not.
 */
module Spending {
  import opened Wrappers
  import opened Policy
  import opened Replay
  import ReplayReads
  import opened LogView
  import opened Journal
  import opened AuditFile
  import opened CheckpointIndependence
  import opened History
  import opened Daemon
  import opened Recovery

  class Signerd {
    const env: Env
    var ledger: seq<SpendRecord>
    var reserved: seq<Held>
    var pending: map<string, Ask>
    var auditSeq: int
    var auditPrevHash: string
    /** The audit file and the checkpoint file; AppendedText and OptionsOf say what is in them. */
    var disk: Disk

    ghost var now: int
    ghost var books: Books
    ghost var running: bool
    ghost var tasks: map<string, Task>
    ghost var absent: seq<SpendRecord>

    /** The next record goes where the log ends. */
    ghost predicate Chaining()
      reads this`auditSeq, this`auditPrevHash, this`disk
    {
      auditSeq == |disk.log| && auditPrevHash == LastHash(env.codec, disk.log)
    }

    ghost predicate Serving()
      reads this
    {
      Chaining() && running && ledger == books.ledger && disk.torn == ""
    }

    ghost function Snapshot(): State
      reads this
    {
      State(now, books, disk, if running then Some(Memory(auditSeq, auditPrevHash, reserved, pending, tasks, absent))
            else None)
    }

    ghost function AuditState(): Writer
      reads this`auditSeq, this`auditPrevHash, this`disk
    {
      Writer(auditSeq, auditPrevHash, disk)
    }

    // ---- the writes ------------------------------------------------------------------------------------

    /** `audit`: the record is numbered, chained and appended as one line. */
    method Audit(t: Timed)
      requires Chaining()
      modifies this`auditSeq, this`auditPrevHash, this`disk
      ensures Chaining() && disk.torn == old(disk.torn)
      ensures AuditState() == AuditAll(env.codec, old(AuditState()), [t])
    {
      var entry := Stamped(t.note, t.ts, auditSeq + 1, auditPrevHash);
      SingleAudit(env.codec, AuditState(), t);
      auditSeq := auditSeq + 1;
      disk := Appended(disk, entry);
      auditPrevHash := env.codec.hash(env.codec.write(entry));
    }

    /** `writeCheckpoint`: the whole file, replaced. */
    method WriteCheckpoint()
      requires Chaining()
      modifies this`disk
      ensures Chaining() && disk == SavedAt(env.codec, old(disk), ledger)
    {
      disk := disk.(saved := Some(Saved(auditSeq, auditPrevHash, ledger)));
    }

    /** The spends of the checkpoint's body, one by one: what CheckpointAt says the file holds. */
    method CheckpointBody() returns (body: Checkpoint)
      requires Chaining()
      ensures body == CheckpointAt(|disk.log|, LastHash(env.codec, disk.log), ledger)
    {
      var spends := [];
      var n := 0;
      while n < |ledger|
        invariant n <= |ledger| && spends == CheckpointEntries(ledger[..n])
      {
        assert ledger[..n + 1][..n] == ledger[..n];
        spends := spends + [CheckpointEntry(ledger[n])];
        n := n + 1;
      }
      assert ledger[..n] == ledger;
      body := Checkpoint(auditSeq, auditPrevHash, spends);
    }

    /** `repairTornAppend`: the tail is searched from its end for the last newline. */
    method RepairTornAppend(file: string) returns (kept: string)
      ensures kept == Repaired(file)
    {
      var size := |file|;
      if size == 0 { return file; }
      var want := if size < AUDIT_TAIL_BYTES then size else AUDIT_TAIL_BYTES;
      var tail := file[size - want..];
      if tail[want - 1] == '\n' { return file; }
      var last := want - 1;
      while last >= 0 && tail[last] != '\n'
        invariant -1 <= last < want
        invariant forall j | last < j < want :: tail[j] != '\n'
      {
        last := last - 1;
      }
      LastNewlineIs(tail, last);
      if last == -1 && size > want { return file; }
      kept := if last == -1 then "" else file[..size - want + last + 1];
    }

    /** `pruneLedger` */
    method PruneLedger(at: int)
      modifies this`ledger
      ensures ledger == old(ledger)[Expired(old(ledger), at - DAY)..]
    {
      var cutoff := at - DAY;
      var drop := 0;
      while drop < |ledger| && ledger[drop].ts < cutoff
        invariant drop <= |ledger| && forall i | 0 <= i < drop :: ledger[i].ts < cutoff
      {
        drop := drop + 1;
      }
      ledger := ledger[drop..];
    }

    // ---- the operations, each one step of the state machine ------------------------------------------------

    ghost function Mem(): Memory
      reads this
    {
      Memory(auditSeq, auditPrevHash, reserved, pending, tasks, absent)
    }

    /** The decision at the head of `/sign`, under the agent's lock. */
    method Judge(ask: Ask, at: int) returns (d: Decision)
      requires Serving()
      modifies this
      ensures Serving()
      ensures d == Decide(env.policy, Judged(old(ledger), old(reserved), None), ask.req, at)
      ensures d.Deny? ==>
                Snapshot() == Stepped(env, old(Snapshot()), at, [Timed(at, DeniedNote(ask))], false, old(books),
                                      old(Mem()))
      ensures !d.Deny? ==>
                Snapshot() == Stepped(env, old(Snapshot()), at, [], false, old(books),
                                      Working(old(Mem()), ask.req.agentId, if d.Allow? then Building(ask, None)
                                              else Asking(ask)))
    {
      d := Decide(env.policy, ledger + Spends(reserved), ask.req, at);
      if d.Deny? {
        Audit(Timed(at, DeniedNote(ask)));
      } else {
        tasks := tasks[ask.req.agentId := if d.Allow? then Building(ask, None) else Asking(ask)];
      }
      now := at;
    }

    /** The end of `sign`: the overhead is judged, then the spends are recorded, the log and the checkpoint written. */
    method RecordPayment(ask: Ask, approving: Option<string>, built: Built, judgedAt: int, signedAt: int, prunedAt: int,
                         at: int) returns (cost: Decision)
      requires Serving()
      modifies this
      ensures Serving()
      ensures cost == DecideOverhead(env.policy, Judged(old(ledger), old(reserved), approving),
                                     OverheadAsked(ask, built), judgedAt)
      ensures !cost.Allow? ==>
                Snapshot() == Stepped(env, old(Snapshot()), at, [Timed(at, DeniedNote(ask))], false, old(books),
                                      old(Mem()))
      ensures cost.Allow? ==>
                Snapshot() == Stepped(env, old(Snapshot()), at, [Timed(at, SignedNote(ask, built))], true,
                                      Pruned(Spend(old(books), Payment(ask, built, signedAt)), prunedAt),
                                      Committed(old(Mem()), ask.req.agentId, approving))
    {
      cost := DecideOverhead(env.policy, Judged(ledger, reserved, approving), OverheadAsked(ask, built), judgedAt);
      now := at;
      if cost.Allow? {
        tasks := Committed(Mem(), ask.req.agentId, approving).tasks;
        BookPayment(ask, built, signedAt, prunedAt, at);
      } else {
        Audit(Timed(at, DeniedNote(ask)));
      }
    }

    method BookPayment(ask: Ask, built: Built, signedAt: int, prunedAt: int, at: int)
      requires Chaining() && ledger == books.ledger
      modifies this`ledger, this`books, this`auditSeq, this`auditPrevHash, this`disk
      ensures Chaining() && ledger == books.ledger && disk.torn == old(disk.torn)
      ensures books == Pruned(Spend(old(books), Payment(ask, built, signedAt)), prunedAt)
      ensures SavedAfter(old(AuditState()), [Timed(at, SignedNote(ask, built))])
    {
      PushPayment(ask, built, signedAt, prunedAt);
      AuditAndSave([Timed(at, SignedNote(ask, built))]);
    }

    /** These records were written after the last ones, and then the checkpoint, which names the last. */
    ghost predicate SavedAfter(w0: Writer, notes: seq<Timed>)
      reads this`ledger, this`auditSeq, this`auditPrevHash, this`disk
    {
      var w := AuditAll(env.codec, w0, notes);
      auditSeq == w.no && auditPrevHash == w.prev && disk == SavedAt(env.codec, w.disk, ledger)
    }

    /** One record or two, and then the checkpoint, which names the last. */
    method AuditAndSave(notes: seq<Timed>)
      requires Chaining() && 1 <= |notes| <= 2
      modifies this`auditSeq, this`auditPrevHash, this`disk
      ensures Chaining() && disk.torn == old(disk.torn)
      ensures SavedAfter(old(AuditState()), notes)
    {
      if |notes| == 2 {
        DoubleAudit(env.codec, AuditState(), notes[0], notes[1]);
        assert notes == [notes[0], notes[1]];
        Audit(notes[0]);
      } else {
        assert notes == [notes[0]];
      }
      Audit(notes[|notes| - 1]);
      WriteCheckpoint();
    }

    /** The payment, and the ADA that leaves with it beside it, with its transaction; then the prune. */
    method PushPayment(ask: Ask, built: Built, ts: int, prunedAt: int)
      requires ledger == books.ledger
      modifies this`ledger, this`books
      ensures books == Pruned(Spend(old(books), Payment(ask, built, ts)), prunedAt) && ledger == books.ledger
    {
      ledger := ledger + [SpendRecord(ts, ask.req.agentId, ask.req.asset, AmountOf(ask), false, false, built.tx,
                                      built.slot)];
      if built.overhead > 0 {
        ledger := ledger + [SpendRecord(ts, ask.req.agentId, LOVELACE, built.overhead, false, true, built.tx,
                                        built.slot)];
      }
      books := Spend(books, Payment(ask, built, ts));
      assert ledger == books.ledger;
      PruneLedger(prunedAt);
      books := Pruned(books, prunedAt);
    }

    method PushVoucher(ask: Ask, ts: int, prunedAt: int)
      requires ledger == books.ledger
      modifies this`ledger, this`books
      ensures books == Pruned(Spend(old(books), [SpendFor(ask, ts)]), prunedAt) && ledger == books.ledger
    {
      ledger := ledger + [SpendFor(ask, ts)];
      books := Spend(books, [SpendFor(ask, ts)]);
      PruneLedger(prunedAt);
      books := Pruned(books, prunedAt);
    }

    /** `commitVoucher`, after the channel index: the increment is judged and recorded before the voucher can leave. */
    method RecordVoucher(ask: Ask, approving: Option<string>, shown: Option<Ask>, step: Option<Entry>, judgedAt: int,
                         pushedAt: int, prunedAt: int, at: int) returns (d: Decision)
      requires Serving()
      modifies this
      ensures Serving()
      ensures d == Decide(env.policy, Judged(old(ledger), old(reserved), approving), ask.req, judgedAt)
      ensures !Goes(d, shown, ask) ==> Snapshot() == old(Snapshot())
      ensures Goes(d, shown, ask) ==>
                Snapshot() == Stepped(env, old(Snapshot()), at, VoucherNotes(step, ask, at), true,
                                      Pruned(Spend(old(books), [SpendFor(ask, pushedAt)]), prunedAt),
                                      Working(old(Mem()), ask.req.agentId, Drawing(approving, true, shown)))
    {
      d := Decide(env.policy, Judged(ledger, reserved, approving), ask.req, judgedAt);
      if Goes(d, shown, ask) {
        now, tasks := at, tasks[ask.req.agentId := Drawing(approving, true, shown)];
        BookVoucher(ask, step, pushedAt, prunedAt, at);
      }
    }

    method BookVoucher(ask: Ask, step: Option<Entry>, pushedAt: int, prunedAt: int, at: int)
      requires Chaining() && ledger == books.ledger
      modifies this`ledger, this`books, this`auditSeq, this`auditPrevHash, this`disk
      ensures Chaining() && ledger == books.ledger && disk.torn == old(disk.torn)
      ensures books == Pruned(Spend(old(books), [SpendFor(ask, pushedAt)]), prunedAt)
      ensures SavedAfter(old(AuditState()), VoucherNotes(step, ask, at))
    {
      PushVoucher(ask, pushedAt, prunedAt);
      AuditAndSave(VoucherNotes(step, ask, at));
    }

    /** The locked part of `releaseExpired`: the record first, then the spend, then the checkpoint. */
    method GiveBack(s: SpendRecord, at: int)
      requires Serving() && s.tx.Some?
      modifies this
      ensures Serving()
      ensures var i := FindTx(old(ledger), s.tx.value);
              Snapshot() == if i < |old(ledger)|
                            then Stepped(env, old(Snapshot()), at, [Timed(at, ReleasedNote(old(ledger)[i], s))], true,
                                         History.Free(old(books), s.tx.value), old(Mem()))
                            else Stepped(env, old(Snapshot()), at, [], false, old(books), old(Mem()))
    {
      var i := FindTx(ledger, s.tx.value);
      if i == |ledger| {
        now := at;
      } else {
        SpliceOut(s, i, at);
      }
    }

    method SpliceOut(s: SpendRecord, i: nat, at: int)
      requires Serving() && s.tx.Some? && i == FindTx(ledger, s.tx.value) < |ledger|
      modifies this
      ensures Serving()
      ensures Snapshot() == Stepped(env, old(Snapshot()), at, [Timed(at, ReleasedNote(old(ledger)[i], s))], true,
                                    History.Free(old(books), s.tx.value), old(Mem()))
    {
      Audit(Timed(at, ReleasedNote(ledger[i], s)));
      ledger := ledger[..i] + ledger[i + 1..];
      books := History.Free(books, s.tx.value);
      WriteCheckpoint();
      now := at;
    }

    /** `enqueue`: the budget is held before the record is written, and the request queued after. */
    method QueueUp(ask: Ask, id: string, heldAt: int, at: int)
      requires Serving()
      modifies this
      ensures Serving()
      ensures Snapshot() == Stepped(env, old(Snapshot()), at, [Timed(at, PendingNote(id, ask))], false, old(books),
                                    Queued(old(Mem()), ask, id, heldAt))
    {
      reserved := reserved + [Held(id, SpendFor(ask, heldAt))];
      Audit(Timed(at, PendingNote(id, ask)));
      pending := pending[id := ask];
      tasks := tasks - {ask.req.agentId};
      now := at;
    }

    /** `closePending`: whoever takes the request out of the queue answers it, and nobody else. */
    method ClosePending(id: string, how: Terminal, at: int) returns (closed: bool)
      requires Serving()
      modifies this
      ensures Serving()
      ensures closed == (id in old(pending))
      ensures closed ==>
                Snapshot() == Stepped(env, old(Snapshot()), at, [Timed(at, ClosedNote(id, old(pending)[id], how))],
                                      false,
                                      old(books), old(Mem()).(queue := old(pending) - {id},
                                                              held := Without(old(reserved), id)))
      ensures !closed ==> Snapshot() == old(Snapshot())
    {
      if id !in pending { return false; }
      var ask := pending[id];
      pending := pending - {id};
      reserved := DropReservation(id);
      Audit(Timed(at, ClosedNote(id, ask, how)));
      now := at;
      closed := true;
    }

    /** `reserved.delete(id)` */
    method DropReservation(id: string) returns (left: seq<Held>)
      ensures left == Without(reserved, id)
    {
      left := [];
      var n := 0;
      while n < |reserved|
        invariant n <= |reserved| && left == Without(reserved[..n], id)
      {
        assert reserved[..n + 1][..n] == reserved[..n];
        if reserved[n].id != id { left := left + [reserved[n]]; }
        n := n + 1;
      }
      assert reserved[..n] == reserved;
    }

    /** The decision at the head of `/approve` for an `exact` payment: stale, or off the queue and under way. */
    method ApproveExact(id: string, at: int) returns (verdict: Decision)
      requires Serving() && id in pending
      modifies this
      ensures Serving()
      ensures verdict == Decide(env.policy, Judged(old(ledger), old(reserved), Some(id)), old(pending)[id].req, at)
      ensures verdict.Deny? ==>
                Snapshot() == Stepped(env, old(Snapshot()), at,
                                      [Timed(at, ClosedNote(id, old(pending)[id], ApprovalStale))], false,
                                      old(books), old(Mem()).(queue := old(pending) - {id},
                                                              held := Without(old(reserved), id)))
      ensures !verdict.Deny? ==>
                var ask := old(pending)[id];
                Snapshot() == Stepped(env, old(Snapshot()), at, [], false, old(books),
                                      Working(old(Mem()), ask.req.agentId,
                                              Building(ask, Some(id))).(queue := old(pending) - {id}))
    {
      var ask := pending[id];
      verdict := Decide(env.policy, Judged(ledger, reserved, Some(id)), ask.req, at);
      if verdict.Deny? {
        var closed := ClosePending(id, ApprovalStale, at);
      } else {
        pending := pending - {id};
        tasks := tasks[ask.req.agentId := Building(ask, Some(id))];
        now := at;
      }
    }

    /** The end of an approval: the reservation goes, whatever became of the payment. */
    method FinishApproval(agent: string, id: string, how: Terminal, at: int)
      requires Serving()
      modifies this
      ensures Serving()
      ensures Snapshot()
              == Stepped(env, old(Snapshot()), at, [Timed(at, AnsweredNote(id, agent, Undefined, how))], false,
                                    old(books), Idle(old(Mem()), agent).(held := Without(old(reserved), id)))
    {
      reserved := DropReservation(id);
      Audit(Timed(at, AnsweredNote(id, agent, Undefined, how)));
      tasks := tasks - {agent};
      now := at;
    }

    // ---- startup -----------------------------------------------------------------------------------------

    /** Repair, replay, refuse what does not check, and go on from what was found. */
    method Start(readAt: int, at: int) returns (served: bool)
      requires !running && Kept(env.codec, disk)
      modifies this
      ensures served && Serving()
      ensures var r := Startup(env.codec, old(disk), readAt - DAY);
              r.Some? && Snapshot() == Restarted(env, old(Snapshot()), readAt, r.value, at)
    {
      StartFinds(env.codec, disk, readAt - DAY);
      var found := Check(FileText(env.codec, disk), OptionsOf(disk, readAt - DAY));
      if found.None? { return false; }
      Resume(readAt, found.value, at);
      served := true;
    }

    method Resume(readAt: int, found: Replay, at: int)
      requires found.lastSeq == |disk.log| && found.lastHash == LastHash(env.codec, disk.log)
      modifies this
      ensures Serving() && Snapshot() == Restarted(env, old(Snapshot()), readAt, found, at)
    {
      Load(readAt, found, at);
      AbandonAndSave(found.openApprovals, at);
    }

    /** What a start goes on from, whatever the file holds; None where it refuses to serve. */
    method Check(file: string, o: Options) returns (found: Option<Replay>)
      ensures var r := Replayed(env.codec, o, Lines(Repaired(file)));
              found == if Accepts(r) then r else None
    {
      var kept := RepairTornAppend(file);
      var replay := ReplayAudit(env.codec, o, Lines(kept));
      if replay.None? { return None; }
      if replay.value.malformedAt.Some? { return None; }
      if replay.value.chainBrokenAt.Some? { return None; }
      ReplayReads.SeenExactly(env.codec, o, Lines(kept));
      if o.checkpoint.Some? && !replay.value.sawCheckpoint { return None; }
      found := replay;
    }

    /** The repaired file, and the ledger and the chain as replay found them. */
    method Load(readAt: int, found: Replay, at: int)
      modifies this
      ensures running && ledger == books.ledger
              && AuditState() == Writer(found.lastSeq, found.lastHash, old(disk).(torn := ""))
      ensures Snapshot()
              == State(at, old(books).(past := Pruned(old(books), readAt).past, ledger := found.spends),
                       old(disk).(torn := ""),
                                  Some(Memory(found.lastSeq, found.lastHash, [], map[], map[], [])))
    {
      now, running, tasks, absent := at, true, map[], [];
      books := books.(past := Pruned(books, readAt).past, ledger := found.spends);
      ledger, reserved, pending := found.spends, [], map[];
      auditSeq, auditPrevHash, disk := found.lastSeq, found.lastHash, disk.(torn := "");
    }

    /** What a previous run left open is closed, and the checkpoint written at once. */
    method AbandonAndSave(open: seq<OpenApproval>, at: int)
      requires Chaining()
      modifies this`auditSeq, this`auditPrevHash, this`disk
      ensures Chaining() && disk.torn == old(disk.torn)
      ensures SavedAfter(old(AuditState()), AbandonAll(open, at))
    {
      AbandonOpen(open, at);
      WriteCheckpoint();
    }

    method AbandonOpen(open: seq<OpenApproval>, at: int)
      requires Chaining()
      modifies this`auditSeq, this`auditPrevHash, this`disk
      ensures Chaining() && disk.torn == old(disk.torn)
      ensures AuditState() == AuditAll(env.codec, old(AuditState()), AbandonAll(open, at))
    {
      ghost var notes, w := AbandonAll(open, at), AuditState();
      assert notes[..0] == [];
      var n := 0;
      while n < |open|
        invariant n <= |open| && Chaining() && disk.torn == old(disk.torn)
        invariant AuditState() == AuditAll(env.codec, w, notes[..n])
      {
        AuditOneMore(env.codec, w, notes, n);
        Audit(Timed(at, AnsweredNote(open[n].id, open[n].agentId, open[n].reason, PendingAbandoned)));
        n := n + 1;
      }
      assert notes[..n] == notes;
    }
  }

  lemma AppendedText(codec: Codec, d: Disk, e: Entry)
    requires d.torn == ""
    ensures FileText(codec, Appended(d, e)) == FileText(codec, d) + codec.write(e) + "\n"
  {
    assert (d.log + [e])[..|d.log|] == d.log;
    var lines := Written(codec, d.log);
    assert (lines + [codec.write(e)])[..|lines|] == lines;
  }

  /** What `/sign` and `sign` write when the policy refuses. */
  function DeniedNote(ask: Ask): Entry {
    BLANK.(event := AnyOther("denied"), agentId := Str(ask.req.agentId), reason := Daemon.Text(ask.req.reason),
           asset := Str(ask.req.asset), amount := Str(ask.spelled))
  }

  lemma SingleAudit(codec: Codec, w: Writer, t: Timed)
    ensures AuditAll(codec, w, [t]) == Daemon.Audit(codec, w, t)
  {
    assert [t][..0] == [] && AuditAll(codec, w, []) == w;
  }

  lemma AuditOneMore(codec: Codec, w: Writer, notes: seq<Timed>, n: nat)
    requires n < |notes|
    ensures AuditAll(codec, w, notes[..n + 1]) == AuditAll(codec, AuditAll(codec, w, notes[..n]), [notes[n]])
  {
    assert notes[..n + 1][..n] == notes[..n];
    SingleAudit(codec, AuditAll(codec, w, notes[..n]), notes[n]);
  }

  lemma DoubleAudit(codec: Codec, w: Writer, t: Timed, u: Timed)
    ensures AuditAll(codec, w, [t, u]) == Daemon.Audit(codec, Daemon.Audit(codec, w, t), u)
  {
    assert [t, u][..1] == [t];
    SingleAudit(codec, w, t);
  }

  function ClosedNote(id: string, ask: Ask, how: Terminal): Entry {
    AnsweredNote(id, ask.req.agentId, Daemon.Text(ask.req.reason), how)
  }

  function VoucherNotes(step: Option<Entry>, ask: Ask, at: int): seq<Timed> {
    if step.Some? then [Timed(at, step.value), Timed(at, VoucherNote(ask))] else [Timed(at, VoucherNote(ask))]
  }

  /** The spend is recorded: an approval still has its reservation to drop, and any other task is done. */
  function Committed(m: Memory, agent: string, approving: Option<string>): Memory {
    if approving.Some? then Working(m, agent, Recorded(approving.value)) else Idle(m, agent)
  }

  /** The request is queued and its budget held; the task that asked is done. */
  function Queued(m: Memory, ask: Ask, id: string, heldAt: int): Memory {
    Idle(m, ask.req.agentId).(held := m.held + [Held(id, SpendFor(ask, heldAt))], queue := m.queue[id := ask])
  }

  /** What the files and the counters become when these records are written, and the checkpoint if the step saves it. */
  function Stepped(env: Env, s: State, at: int, notes: seq<Timed>, saves: bool, b: Books, m: Memory): State
    requires s.up.Some?
  {
    var w := AuditAll(env.codec, Writer(s.up.value.no, s.up.value.prev, s.disk), notes);
    State(at, b, if saves then SavedAt(env.codec, w.disk, b.ledger) else w.disk, Some(m.(no := w.no, prev := w.prev)))
  }

  /** What a start makes of a disk. */
  function Restarted(env: Env, s: State, readAt: int, found: Replay, at: int): State {
    var w := AuditAll(env.codec, Writer(found.lastSeq, found.lastHash, s.disk.(torn := "")),
                      AbandonAll(found.openApprovals, at));
    State(at, s.books.(past := Pruned(s.books, readAt).past, ledger := found.spends),
          SavedAt(env.codec, w.disk, found.spends),
          Some(Memory(w.no, w.prev, [], map[], map[], [])))
  }
}
