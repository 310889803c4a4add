/**
 * The log as the records in it: what each accumulator of the replay loop holds, as a function of the
 * records alone. Everything proved about whole logs is proved about these.
 */
module LogView {
  import opened Wrappers
  import opened Decimal
  import opened Policy
  import opened Replay
  import opened Text

  /** The lines that hold a record. */
  function Entries(codec: Codec, lines: seq<string>): seq<Entry> {
    if lines == [] then []
    else
      var before, line := Entries(codec, lines[..|lines| - 1]), lines[|lines| - 1];
      if IsBlank(line) || codec.parse(line).None? then before else before + [codec.parse(line).value]
  }

  /** A spending record that replay counts, rather than skips as old or as held by the checkpoint. */
  predicate Counts(o: Options, e: Entry) {
    (e.event.Signed? || e.event.VoucherSigned?) && Recent(o, e) && Unseen(o, e)
  }

  predicate Gives(o: Options, e: Entry) {
    e.event.SpendReleased? && Recent(o, e) && Unseen(o, e) && IsTxHash(e.tx)
  }

  function SpendsOf(o: Options, es: seq<Entry>): seq<SpendRecord> {
    if es == [] then []
    else if Counts(o, es[|es| - 1]) then SpendsOf(o, es[..|es| - 1]) + ReadLogged(es[|es| - 1]).records
    else SpendsOf(o, es[..|es| - 1])
  }

  function ReleasesOf(o: Options, es: seq<Entry>): seq<string> {
    if es == [] then []
    else if Gives(o, es[|es| - 1]) then ReleasesOf(o, es[..|es| - 1]) + [es[|es| - 1].tx.s]
    else ReleasesOf(o, es[..|es| - 1])
  }

  function PendingOf(o: Options, es: seq<Entry>): seq<OpenApproval> {
    if es == [] then []
    else
      var e := es[|es| - 1];
      var before := PendingOf(o, es[..|es| - 1]);
      if e.event.Pending?
         && Recent(o, e) then PutApproval(before, OpenApproval(StringOf(e.id), StringOf(e.agentId), e.reason))
         else before
  }

  function AnsweredOf(o: Options, es: seq<Entry>): set<string> {
    set i | 0 <= i < |es| && es[i].event.Answered? && Recent(o, es[i]) :: StringOf(es[i].id)
  }

  predicate Holds(o: Options, content: Content, es: seq<Entry>) {
    && content.after == SpendsOf(o, es)
    && content.released == ReleasesOf(o, es)
    && content.pendingSeen == PendingOf(o, es)
    && content.terminated == AnsweredOf(o, es)
  }

  lemma EntryIsHeld(o: Options, content: Content, lineNo: nat, es: seq<Entry>, e: Entry)
    requires Holds(o, content, es)
    ensures Holds(o, ContentEntry(o, content, lineNo, e), es + [e])
  {
    assert (es + [e])[..|es|] == es;
    AnsweredGrows(o, es, e);
  }

  lemma {:induction false} ContentIsOfEntries(codec: Codec, o: Options, lines: seq<string>)
    ensures Holds(o, ContentOf(codec, o, lines), Entries(codec, lines))
  {
    if lines != [] {
      var before, line := lines[..|lines| - 1], lines[|lines| - 1];
      ContentIsOfEntries(codec, o, before);
      if !IsBlank(line) && codec.parse(line).Some? {
        EntryIsHeld(o, ContentOf(codec, o, before), |lines|, Entries(codec, before), codec.parse(line).value);
      }
    }
  }

  lemma AnsweredGrows(o: Options, es: seq<Entry>, e: Entry)
    ensures AnsweredOf(o, es + [e]) == if e.event.Answered?
            && Recent(o, e) then AnsweredOf(o, es) + {StringOf(e.id)} else AnsweredOf(o, es)
  {
    var all := es + [e];
    assert forall i | 0 <= i < |es| :: all[i] == es[i];
    assert all[|es|] == e;
    forall id | id in AnsweredOf(o, es) ensures id in AnsweredOf(o, all) {
      var i :| 0 <= i < |es| && es[i].event.Answered? && Recent(o, es[i]) && StringOf(es[i].id) == id;
      assert all[i] == es[i];
    }
    if e.event.Answered? && Recent(o, e) {
      assert all[|es|].event.Answered? && Recent(o, all[|es|]);
    }
  }

  lemma {:induction false} SpendsConcat(o: Options, xs: seq<Entry>, ys: seq<Entry>)
    ensures SpendsOf(o, xs + ys) == SpendsOf(o, xs) + SpendsOf(o, ys)
    ensures ReleasesOf(o, xs + ys) == ReleasesOf(o, xs) + ReleasesOf(o, ys)
  {
    if ys == [] {
      assert xs + ys == xs;
    } else {
      assert (xs + ys)[..|xs| + |ys| - 1] == xs + ys[..|ys| - 1];
      SpendsConcat(o, xs, ys[..|ys| - 1]);
    }
  }

  /** Records the checkpoint was written after spend and release nothing again. */
  lemma {:induction false} SeenSpendsNothing(o: Options, es: seq<Entry>)
    requires forall i | 0 <= i < |es| :: !Unseen(o, es[i])
    ensures SpendsOf(o, es) == [] && ReleasesOf(o, es) == []
  {
    if es != [] { SeenSpendsNothing(o, es[..|es| - 1]); }
  }

  /** Records the checkpoint has not seen read as they would without one. */
  lemma {:induction false} UnseenReadsAlike(o: Options, p: Options, es: seq<Entry>)
    requires o.cutoff == p.cutoff && forall i | 0 <= i < |es| :: Unseen(o, es[i]) && Unseen(p, es[i])
    ensures SpendsOf(o, es) == SpendsOf(p, es) && ReleasesOf(o, es) == ReleasesOf(p, es)
  {
    if es != [] { UnseenReadsAlike(o, p, es[..|es| - 1]); }
  }

  // ---- the checkpoint's own spelling of a spend ------------------------------------------------------

  /** A spend as the ledger holds it: readable, and naming a transaction only if it is not a voucher. */
  predicate Sound(r: SpendRecord) {
    && r.agentId != "" && r.asset != ""
    && (r.voucher ==> r.tx.None? && r.ttlSlot.None? && !r.overhead)
    && (r.overhead ==> r.asset == LOVELACE)
    && (r.tx.Some? ==> IsTxHash(Str(r.tx.value)))
    && (r.ttlSlot.Some? ==> IsSlot(Num(r.ttlSlot.value)))
  }

  /** One spend of `writeCheckpoint`'s body. */
  function CheckpointEntry(r: SpendRecord): Entry {
    BLANK.(ts := Num(r.ts),
           agentId := Str(r.agentId),
           asset := Str(r.asset),
           amount := Str(ToDecimal(r.amount)),
           voucher := if r.voucher then Bool(true) else Undefined,
           overhead := if r.overhead then Bool(true) else Undefined,
           tx := if r.tx.Some? then Str(r.tx.value) else Undefined,
           ttlSlot := if r.ttlSlot.Some? then Num(r.ttlSlot.value) else Undefined)
  }

  function CheckpointEntries(rs: seq<SpendRecord>): (es: seq<Entry>)
    ensures |es| == |rs|
  {
    if rs == [] then [] else CheckpointEntries(rs[..|rs| - 1]) + [CheckpointEntry(rs[|rs| - 1])]
  }

  lemma CheckpointReadsBack(r: SpendRecord)
    requires Sound(r)
    ensures ReadSpend(CheckpointEntry(r), r.ts) == Some(r)
  {
    PrintThenRead(r.amount);
  }

  function InWindow(rs: seq<SpendRecord>, cutoff: int): seq<SpendRecord> {
    if rs == [] then []
    else if rs[|rs| - 1].ts >= cutoff then InWindow(rs[..|rs| - 1], cutoff) + [rs[|rs| - 1]]
    else InWindow(rs[..|rs| - 1], cutoff)
  }

  predicate AllSound(rs: seq<SpendRecord>) {
    forall i | 0 <= i < |rs| :: Sound(rs[i])
  }

  /** A checkpoint read back is the ledger it was written from, less what has left the window. */
  lemma {:induction false} CheckpointHoldsWindow(rs: seq<SpendRecord>, cutoff: int)
    requires AllSound(rs)
    ensures CheckpointSpends(CheckpointEntries(rs), cutoff) == Some(InWindow(rs, cutoff))
  {
    if rs != [] {
      var es := CheckpointEntries(rs);
      CheckpointHoldsWindow(rs[..|rs| - 1], cutoff);
      CheckpointReadsBack(rs[|rs| - 1]);
      assert es[..|es| - 1] == CheckpointEntries(rs[..|rs| - 1]);
      assert es[|es| - 1] == CheckpointEntry(rs[|rs| - 1]);
    }
  }

  lemma LoggedIsSound(e: Entry)
    requires e.ts.Num?
    ensures AllSound(ReadLogged(e).records)
    ensures forall i | 0 <= i < |ReadLogged(e).records| :: ReadLogged(e).records[i].ts == e.ts.n
  {
  }

  lemma {:induction false} SpendsAreSound(o: Options, es: seq<Entry>)
    ensures AllSound(SpendsOf(o, es))
  {
    if es != [] {
      SpendsAreSound(o, es[..|es| - 1]);
      if Counts(o, es[|es| - 1]) { LoggedIsSound(es[|es| - 1]); }
    }
  }

  // ---- removing by transaction -----------------------------------------------------------------------

  predicate Names(r: SpendRecord, tx: string) {
    r.tx == Some(tx) && !r.voucher
  }

  predicate NoneNames(rs: seq<SpendRecord>, tx: string) {
    forall i | 0 <= i < |rs| :: !Names(rs[i], tx)
  }

  lemma FindTxIs(rs: seq<SpendRecord>, tx: string, i: nat)
    requires i <= |rs| && NoneNames(rs[..i], tx) && (i < |rs| ==> Names(rs[i], tx))
    ensures FindTx(rs, tx) == i
  {
    var k := FindTx(rs, tx);
    assert forall j | 0 <= j < i :: !Names(rs[..i][j], tx) && rs[..i][j] == rs[j];
  }

  lemma RemoveNothing(rs: seq<SpendRecord>, tx: string)
    requires NoneNames(rs, tx)
    ensures RemoveTx(rs, tx) == rs
  {
  }

  lemma RemoveFirst(before: seq<SpendRecord>, r: SpendRecord, after: seq<SpendRecord>, tx: string)
    requires NoneNames(before, tx) && Names(r, tx)
    ensures RemoveTx(before + [r] + after, tx) == before + after
  {
    var all := before + [r] + after;
    assert all[..|before|] == before && all[|before|] == r && all[|before| + 1..] == after;
    FindTxIs(all, tx, |before|);
  }

  lemma FoundInFirst(xs: seq<SpendRecord>, ys: seq<SpendRecord>, tx: string)
    requires FindTx(xs, tx) < |xs|
    ensures FindTx(xs + ys, tx) == FindTx(xs, tx)
  {
    var i := FindTx(xs, tx);
    assert (xs + ys)[..i] == xs[..i] && (xs + ys)[i] == xs[i];
    FindTxIs(xs + ys, tx, i);
  }

  lemma RemoveAtConcat<T>(xs: seq<T>, ys: seq<T>, i: nat)
    requires i < |xs|
    ensures RemoveAt(xs + ys, i) == RemoveAt(xs, i) + ys
  {
    assert (xs + ys)[..i] == xs[..i] && (xs + ys)[i + 1..] == xs[i + 1..] + ys;
  }

  /** A removal that finds its spend in the first list leaves the second alone. */
  lemma RemoveTxConcat(xs: seq<SpendRecord>, ys: seq<SpendRecord>, tx: string)
    requires FindTx(xs, tx) < |xs| || NoneNames(ys, tx)
    ensures RemoveTx(xs + ys, tx) == RemoveTx(xs, tx) + ys
  {
    var i := FindTx(xs, tx);
    if i < |xs| {
      FoundInFirst(xs, ys, tx);
      RemoveAtConcat(xs, ys, i);
    } else {
      assert NoneNames(xs, tx);
      NoneInEither(xs, ys, tx);
    }
  }

  lemma NoneInEither(xs: seq<SpendRecord>, ys: seq<SpendRecord>, tx: string)
    requires NoneNames(xs, tx) && NoneNames(ys, tx)
    ensures RemoveTx(xs + ys, tx) == xs + ys && RemoveTx(xs, tx) == xs
  {
    RemoveNothing(xs, tx);
    RemoveNothing(xs + ys, tx);
  }

  lemma {:induction false} RemoveTxsConcat(rs: seq<SpendRecord>, xs: seq<string>, ys: seq<string>)
    ensures RemoveTxs(rs, xs + ys) == RemoveTxs(RemoveTxs(rs, xs), ys)
  {
    if ys == [] {
      assert xs + ys == xs;
    } else {
      assert (xs + ys)[..|xs| + |ys| - 1] == xs + ys[..|ys| - 1];
      RemoveTxsConcat(rs, xs, ys[..|ys| - 1]);
    }
  }

  lemma RemovedComesFrom(rs: seq<SpendRecord>, tx: string)
    ensures forall r | r in RemoveTx(rs, tx) :: r in rs
    ensures TimeSorted(rs) ==> TimeSorted(RemoveTx(rs, tx))
    ensures AllSound(rs) ==> AllSound(RemoveTx(rs, tx))
  {
    var out, i := RemoveTx(rs, tx), FindTx(rs, tx);
    assert forall j | 0 <= j < |out| :: out[j] == rs[if j < i then j else j + 1];
  }

  lemma {:induction false} RemovedAllComeFrom(rs: seq<SpendRecord>, txs: seq<string>)
    ensures forall r | r in RemoveTxs(rs, txs) :: r in rs
    ensures TimeSorted(rs) ==> TimeSorted(RemoveTxs(rs, txs))
    ensures AllSound(rs) ==> AllSound(RemoveTxs(rs, txs))
  {
    if txs != [] {
      RemovedAllComeFrom(rs, txs[..|txs| - 1]);
      RemovedComesFrom(RemoveTxs(rs, txs[..|txs| - 1]), txs[|txs| - 1]);
    }
  }

  lemma {:induction false} WindowOf(rs: seq<SpendRecord>, cutoff: int)
    ensures forall r :: r in InWindow(rs, cutoff) <==> r in rs && r.ts >= cutoff
    ensures AllSound(rs) ==> AllSound(InWindow(rs, cutoff))
  {
    if rs != [] {
      WindowOf(rs[..|rs| - 1], cutoff);
      assert rs == rs[..|rs| - 1] + [rs[|rs| - 1]];
    }
  }

  lemma {:induction false} WindowIsSorted(rs: seq<SpendRecord>, cutoff: int)
    requires TimeSorted(rs)
    ensures TimeSorted(InWindow(rs, cutoff))
  {
    if rs != [] {
      var before, last := rs[..|rs| - 1], rs[|rs| - 1];
      WindowIsSorted(before, cutoff);
      WindowOf(before, cutoff);
      assert forall r | r in before :: r.ts <= last.ts;
    }
  }

  lemma {:induction false} WindowConcat(xs: seq<SpendRecord>, ys: seq<SpendRecord>, cutoff: int)
    ensures InWindow(xs + ys, cutoff) == InWindow(xs, cutoff) + InWindow(ys, cutoff)
  {
    if ys == [] {
      assert xs + ys == xs;
    } else {
      assert (xs + ys)[..|xs| + |ys| - 1] == xs + ys[..|ys| - 1];
      WindowConcat(xs, ys[..|ys| - 1], cutoff);
    }
  }

  lemma {:induction false} WindowWhole(rs: seq<SpendRecord>, cutoff: int)
    requires forall i | 0 <= i < |rs| :: rs[i].ts >= cutoff
    ensures InWindow(rs, cutoff) == rs
  {
    if rs != [] {
      WindowWhole(rs[..|rs| - 1], cutoff);
      assert rs == rs[..|rs| - 1] + [rs[|rs| - 1]];
    }
  }

  lemma {:induction false} WindowEmpty(rs: seq<SpendRecord>, cutoff: int)
    requires forall i | 0 <= i < |rs| :: rs[i].ts < cutoff
    ensures InWindow(rs, cutoff) == []
  {
    if rs != [] { WindowEmpty(rs[..|rs| - 1], cutoff); }
  }

  lemma {:induction false} WindowTwice(rs: seq<SpendRecord>, early: int, late: int)
    requires early <= late
    ensures InWindow(InWindow(rs, early), late) == InWindow(rs, late)
  {
    if rs != [] {
      WindowTwice(rs[..|rs| - 1], early, late);
      var last := rs[|rs| - 1];
      if last.ts >= early { WindowConcat(InWindow(rs[..|rs| - 1], early), [last], late); }
    }
  }

  /** All spends of one transaction were made at one time: a payment and its overhead. */
  predicate OneTime(rs: seq<SpendRecord>, tx: string) {
    forall i, j | 0 <= i < |rs| && 0 <= j < |rs| && Names(rs[i], tx) && Names(rs[j], tx) :: rs[i].ts == rs[j].ts
  }

  lemma WindowAround(before: seq<SpendRecord>, r: SpendRecord, after: seq<SpendRecord>, cutoff: int)
    ensures InWindow(before + [r] + after, cutoff) == InWindow(before, cutoff) + (if r.ts >= cutoff then [r] else [])
            + InWindow(after, cutoff)
  {
    WindowConcat(before, [r], cutoff);
    WindowConcat(before + [r], after, cutoff);
    assert [r][..0] == [];
  }

  lemma WindowOfRemovedAround(before: seq<SpendRecord>, r: SpendRecord, after: seq<SpendRecord>, tx: string,
                              cutoff: int)
    requires NoneNames(before, tx) && Names(r, tx)
    requires forall i | 0 <= i < |after| && Names(after[i], tx) :: after[i].ts == r.ts
    ensures InWindow(before + after, cutoff) == RemoveTx(InWindow(before + [r] + after, cutoff), tx)
  {
    WindowAround(before, r, after, cutoff);
    WindowConcat(before, after, cutoff);
    WindowOf(before, cutoff);
    WindowOf(after, cutoff);
    var x, y := InWindow(before, cutoff), InWindow(after, cutoff);
    if r.ts >= cutoff {
      RemoveFirst(x, r, y, tx);
    } else {
      assert x + [] + y == x + y;
      RemoveNothing(x + y, tx);
    }
  }

  lemma SplitAtFound(rs: seq<SpendRecord>, tx: string) returns (i: nat, after: seq<SpendRecord>)
    requires OneTime(rs, tx) && FindTx(rs, tx) < |rs|
    ensures i < |rs| && rs == rs[..i] + [rs[i]] + after
    ensures NoneNames(rs[..i], tx) && Names(rs[i], tx) && RemoveTx(rs, tx) == rs[..i] + after
    ensures forall j | 0 <= j < |after| && Names(after[j], tx) :: after[j].ts == rs[i].ts
  {
    i := FindTx(rs, tx);
    after := rs[i + 1..];
    assert forall j | 0 <= j < |after| :: after[j] == rs[i + 1 + j];
  }

  /** Releasing a transaction and letting the window pass commute. */
  lemma WindowOfRemoved(rs: seq<SpendRecord>, tx: string, cutoff: int)
    requires OneTime(rs, tx)
    ensures InWindow(RemoveTx(rs, tx), cutoff) == RemoveTx(InWindow(rs, cutoff), tx)
  {
    if FindTx(rs, tx) == |rs| {
      WindowOf(rs, cutoff);
      RemoveNothing(InWindow(rs, cutoff), tx);
    } else {
      var i, after := SplitAtFound(rs, tx);
      WindowOfRemovedAround(rs[..i], rs[i], after, tx, cutoff);
    }
  }
}
