/**
 * What signerd keeps on disk for its ledger: the audit log, which records are appended to, and the
 * checkpoint file, which is replaced whole. A crash falls between two writes, or inside an append.
 */
module Journal {
  import opened Wrappers
  import opened Policy
  import opened Replay
  import opened Text
  import opened LogView
  import opened CheckpointIndependence
  import opened AuditFile

  /** A checkpoint, by the ledger it was written from. */
  datatype Saved = Saved(no: nat, hash: string, window: seq<SpendRecord>)

  /** The log by its records, what a torn append left after the last of them, and the checkpoint. */
  datatype Disk = Disk(log: seq<Entry>, torn: string, saved: Option<Saved>)

  // ---- the writes ----------------------------------------------------------------------------------

  /** A record as `JSON.stringify` prints it: one line that parses back, shorter than what a repair can cut. */
  predicate Printable(codec: Codec, e: Entry) {
    var line := codec.write(e);
    codec.parse(line) == Some(e) && !IsBlank(line) && OneLine(line) && |line| < AUDIT_TAIL_BYTES
  }

  function Written(codec: Codec, log: seq<Entry>): seq<string> {
    if log == [] then [] else Written(codec, log[..|log| - 1]) + [codec.write(log[|log| - 1])]
  }

  function LastHash(codec: Codec, log: seq<Entry>): string {
    if log == [] then "" else codec.hash(codec.write(log[|log| - 1]))
  }

  function Stamped(e: Entry, ts: int, no: int, prev: string): Entry {
    e.(ts := Num(ts), no := Num(no), prev := Str(prev))
  }

  function Appended(d: Disk, e: Entry): Disk {
    d.(log := d.log + [e])
  }

  function SavedAt(codec: Codec, d: Disk, ledger: seq<SpendRecord>): Disk {
    d.(saved := Some(Saved(|d.log|, LastHash(codec, d.log), ledger)))
  }

  // ---- what a start reads --------------------------------------------------------------------------

  function FileText(codec: Codec, d: Disk): string {
    AuditFile.Text(Written(codec, d.log)) + d.torn
  }

  function OptionsOf(d: Disk, cutoff: int): Options {
    match d.saved
    case None => Bare(cutoff)
    case Some(s) => Backed(CheckpointAt(s.no, s.hash, s.window), cutoff)
  }

  /** The repair, then the replay of what it left. */
  function Startup(codec: Codec, d: Disk, cutoff: int): Option<Replay> {
    Replayed(codec, OptionsOf(d, cutoff), Lines(Repaired(FileText(codec, d))))
  }

  /** Startup goes on: no malformed line, no break in the chain, and the checkpoint's record found. */
  predicate Accepts(r: Option<Replay>) {
    r.Some? && r.value.malformedAt.None? && r.value.chainBrokenAt.None? && r.value.sawCheckpoint
  }

  // ---- what the disk stands for --------------------------------------------------------------------

  predicate IsSpend(e: Entry) {
    e.event.Signed? || e.event.VoucherSigned?
  }

  /** What one record of the log does to the ledger, whenever it is read. */
  function Step(xs: seq<SpendRecord>, e: Entry): seq<SpendRecord> {
    if IsSpend(e) && e.ts.Num? then xs + ReadLogged(e).records
    else if e.event.SpendReleased? && IsTxHash(e.tx) then RemoveTx(xs, e.tx.s)
    else xs
  }

  function Standing(xs: seq<SpendRecord>, es: seq<Entry>): seq<SpendRecord> {
    if es == [] then xs else Step(Standing(xs, es[..|es| - 1]), es[|es| - 1])
  }

  function Base(d: Disk): seq<SpendRecord> {
    if d.saved.Some? then d.saved.value.window else []
  }

  function Since(d: Disk): seq<Entry> {
    if d.saved.Some? && d.saved.value.no <= |d.log| then d.log[d.saved.value.no..] else d.log
  }

  /** The ledger on this disk: the checkpoint's, and what the records after it say. */
  function Stands(d: Disk): seq<SpendRecord> {
    Standing(Base(d), Since(d))
  }

  lemma AppendStands(d: Disk, e: Entry)
    requires d.saved.Some? ==> d.saved.value.no <= |d.log|
    ensures Stands(Appended(d, e)) == Step(Stands(d), e)
  {
    assert Since(Appended(d, e)) == Since(d) + [e];
  }

  lemma SaveStands(codec: Codec, d: Disk, ledger: seq<SpendRecord>)
    ensures Stands(SavedAt(codec, d, ledger)) == ledger
  {
  }

  // ---- what the daemon keeps true of it ------------------------------------------------------------

  /** The record in this place of the log, as `audit` writes it there. */
  predicate InPlace(codec: Codec, before: seq<Entry>, e: Entry) {
    && Printable(codec, e)
    && e.no == Num(|before| + 1)
    && e.prev == Str(LastHash(codec, before))
    && e.ts.Num?
    && (IsSpend(e) ==> !ReadLogged(e).unreadable)
  }

  predicate Chained(codec: Codec, log: seq<Entry>) {
    forall i | 0 <= i < |log| :: InPlace(codec, log[..i], log[i])
  }

  /** The transactions a record signs are new to the ledger so far and to the records before it. */
  predicate SignsNew(xs: seq<SpendRecord>, before: seq<Entry>, e: Entry) {
    e.event.Signed? && IsTxHash(e.tx) ==>
      && NoneNames(xs, e.tx.s)
      && forall i | 0 <= i < |before| && (before[i].event.Signed? || before[i].event.SpendReleased?) ::
           before[i].tx != e.tx
  }

  predicate AllSignNew(xs: seq<SpendRecord>, es: seq<Entry>) {
    forall i | 0 <= i < |es| :: SignsNew(xs, es[..i], es[i])
  }

  predicate NotAfter(xs: seq<SpendRecord>, ts: int) {
    forall i | 0 <= i < |xs| :: xs[i].ts <= ts
  }

  /** Every transaction's spends were made at one time. */
  ghost predicate Paired(xs: seq<SpendRecord>) {
    forall tx :: OneTime(xs, tx)
  }

  /** A ledger a checkpoint can hold and a later log follow. */
  ghost predicate Whole(xs: seq<SpendRecord>) {
    AllSound(xs) && TimeSorted(xs) && Paired(xs)
  }

  ghost predicate Follows(xs: seq<SpendRecord>, es: seq<Entry>) {
    && (forall i | 0 <= i < |es| :: es[i].ts.Num? && NotAfter(xs, es[i].ts.n))
    && TimeOrdered(es)
    && AllSignNew(xs, es)
  }

  ghost predicate Kept(codec: Codec, d: Disk) {
    && Chained(codec, d.log)
    && (d.saved.Some? ==>
          && d.saved.value.no <= |d.log|
          && d.saved.value.hash == LastHash(codec, d.log[..d.saved.value.no]))
    && Whole(Base(d)) && Follows(Base(d), Since(d))
    && OneLine(d.torn) && |d.torn| < AUDIT_TAIL_BYTES
  }

  // ---- the recovered window ------------------------------------------------------------------------

  lemma StepsTx(e: Entry, tx: string, r: SpendRecord)
    requires IsSpend(e) && e.ts.Num? && r in ReadLogged(e).records && Names(r, tx)
    ensures e.event.Signed? && e.tx == Str(tx) && IsTxHash(e.tx) && r.ts == e.ts.n
  {
  }

  lemma FollowsPrefix(xs: seq<SpendRecord>, es: seq<Entry>)
    requires es != [] && Follows(xs, es)
    ensures Follows(xs, es[..|es| - 1])
  {
    var before := es[..|es| - 1];
    forall i | 0 <= i < |before| ensures SignsNew(xs, before[..i], before[i]) {
      assert before[..i] == es[..i] && before[i] == es[i];
      assert SignsNew(xs, es[..i], es[i]);
    }
  }

  /** A spend of the ledger a log leads to is one it began with, or one that a record says. */
  lemma {:induction false} StandingComesFrom(xs: seq<SpendRecord>, es: seq<Entry>, r: SpendRecord) returns (i: nat)
    requires r in Standing(xs, es)
    ensures r in xs || (i < |es| && IsSpend(es[i]) && es[i].ts.Num? && r in ReadLogged(es[i]).records)
  {
    i := 0;
    if es != [] {
      var before, e := es[..|es| - 1], es[|es| - 1];
      if IsSpend(e) && e.ts.Num? && r in ReadLogged(e).records {
        i := |es| - 1;
      } else {
        if e.event.SpendReleased? && IsTxHash(e.tx) { RemovedComesFrom(Standing(xs, before), e.tx.s); }
        i := StandingComesFrom(xs, before, r);
      }
    }
  }

  lemma StepIsNotAfter(xs: seq<SpendRecord>, es: seq<Entry>, ts: int)
    requires NotAfter(xs, ts) && forall i | 0 <= i < |es| :: es[i].ts.Num? && es[i].ts.n <= ts
    ensures NotAfter(Standing(xs, es), ts)
  {
    var out := Standing(xs, es);
    forall k | 0 <= k < |out| ensures out[k].ts <= ts {
      var i := StandingComesFrom(xs, es, out[k]);
      if out[k] !in xs { LoggedIsSound(es[i]); }
    }
  }

  /** A transaction that is new names nothing that stands. */
  lemma NewNamesNothing(xs: seq<SpendRecord>, es: seq<Entry>, e: Entry)
    requires SignsNew(xs, es, e) && e.event.Signed? && IsTxHash(e.tx)
    ensures NoneNames(Standing(xs, es), e.tx.s)
  {
    var out := Standing(xs, es);
    forall k | 0 <= k < |out| ensures !Names(out[k], e.tx.s) {
      if Names(out[k], e.tx.s) {
        var i := StandingComesFrom(xs, es, out[k]);
        if out[k] !in xs { StepsTx(es[i], e.tx.s, out[k]); }
      }
    }
  }

  lemma SpendIsPaired(xs: seq<SpendRecord>, e: Entry)
    requires Paired(xs) && IsSpend(e) && e.ts.Num?
    requires e.event.Signed? && IsTxHash(e.tx) ==> NoneNames(xs, e.tx.s)
    ensures Paired(Step(xs, e))
  {
    var rs := ReadLogged(e).records;
    var all := xs + rs;
    forall tx ensures OneTime(all, tx) {
      assert OneTime(xs, tx);
      forall i, j | 0 <= i < |all| && 0 <= j < |all| && Names(all[i], tx)
      && Names(all[j], tx) ensures all[i].ts == all[j].ts {
        if i >= |xs| { assert all[i] in rs; StepsTx(e, tx, all[i]); }
        if j >= |xs| { assert all[j] in rs; StepsTx(e, tx, all[j]); }
      }
    }
  }

  lemma RemovedIsPaired(xs: seq<SpendRecord>, tx: string)
    requires Paired(xs)
    ensures Paired(RemoveTx(xs, tx))
  {
    RemovedComesFrom(xs, tx);
    var out := RemoveTx(xs, tx);
    forall other ensures OneTime(out, other) {
      assert OneTime(xs, other);
      forall i, j | 0 <= i < |out| && 0 <= j < |out| && Names(out[i], other)
      && Names(out[j], other) ensures out[i].ts == out[j].ts {
        assert out[i] in xs && out[j] in xs;
      }
    }
  }

  lemma StepIsWhole(xs: seq<SpendRecord>, e: Entry)
    requires Whole(xs) && e.ts.Num? && NotAfter(xs, e.ts.n)
    requires e.event.Signed? && IsTxHash(e.tx) ==> NoneNames(xs, e.tx.s)
    ensures Whole(Step(xs, e))
  {
    if IsSpend(e) {
      LoggedIsSound(e);
      SpendIsPaired(xs, e);
    } else if e.event.SpendReleased? && IsTxHash(e.tx) {
      RemovedComesFrom(xs, e.tx.s);
      RemovedIsPaired(xs, e.tx.s);
    }
  }

  lemma {:induction false} StandingIsWhole(xs: seq<SpendRecord>, es: seq<Entry>)
    requires Whole(xs) && Follows(xs, es)
    ensures Whole(Standing(xs, es))
  {
    if es != [] {
      var before, e := es[..|es| - 1], es[|es| - 1];
      FollowsPrefix(xs, es);
      StandingIsWhole(xs, before);
      StepIsNotAfter(xs, before, e.ts.n);
      assert SignsNew(xs, before, e);
      if e.event.Signed? && IsTxHash(e.tx) { NewNamesNothing(xs, before, e); }
      StepIsWhole(Standing(xs, before), e);
    }
  }

  /** What replay makes of the records after a checkpoint, before it sorts. */
  function Rebuilt(xs: seq<SpendRecord>, es: seq<Entry>, cutoff: int): seq<SpendRecord> {
    RemoveTxs(InWindow(xs, cutoff) + SpendsOf(Bare(cutoff), es), ReleasesOf(Bare(cutoff), es))
  }

  /** Releases name transactions that are not signed again. */
  lemma {:induction false} ReleasedIsNotSignedLater(xs: seq<SpendRecord>, cutoff: int, before: seq<Entry>, e: Entry)
    requires SignsNew(xs, before, e) && IsSpend(e) && e.ts.Num?
    ensures forall j | 0 <= j < |ReleasesOf(Bare(cutoff), before)| ::
            NoneNames(ReadLogged(e).records, ReleasesOf(Bare(cutoff), before)[j])
  {
    if before != [] {
      var p, last := before[..|before| - 1], before[|before| - 1];
      ReleasedIsNotSignedLater(xs, cutoff, p, e);
      var rs := ReadLogged(e).records;
      if Gives(Bare(cutoff), last) {
        forall k | 0 <= k < |rs| ensures !Names(rs[k], last.tx.s) {
          if Names(rs[k], last.tx.s) { StepsTx(e, last.tx.s, rs[k]); }
        }
      }
    }
  }

  lemma SpendIsAppended(o: Options, before: seq<Entry>, e: Entry)
    requires IsSpend(e) && e.ts.Num?
    ensures SpendsOf(o, before + [e]) == if Counts(o, e) then SpendsOf(o, before) + ReadLogged(e).records
            else SpendsOf(o, before)
    ensures ReleasesOf(o, before + [e]) == ReleasesOf(o, before)
  {
    assert (before + [e])[..|before|] == before;
  }

  lemma AddedLate(head: seq<SpendRecord>, spends: seq<SpendRecord>, rs: seq<SpendRecord>, released: seq<string>)
    requires forall j | 0 <= j < |released| :: NoneNames(rs, released[j])
    ensures RemoveTxs(head + (spends + rs), released) == RemoveTxs(head + spends, released) + rs
  {
    assert head + (spends + rs) == head + spends + rs;
    RemovalsStayInFirst(head + spends, rs, released);
  }

  lemma WindowOfMore(xs: seq<SpendRecord>, rs: seq<SpendRecord>, ts: int, cutoff: int)
    requires forall i | 0 <= i < |rs| :: rs[i].ts == ts
    ensures InWindow(xs + rs, cutoff) == if ts >= cutoff then InWindow(xs, cutoff) + rs else InWindow(xs, cutoff)
  {
    WindowConcat(xs, rs, cutoff);
    if ts >= cutoff { WindowWhole(rs, cutoff); } else { WindowEmpty(rs, cutoff); }
  }

  lemma RebuiltSpend(xs: seq<SpendRecord>, cutoff: int, before: seq<Entry>, e: Entry, rs: seq<SpendRecord>)
    requires SignsNew(xs, before, e) && IsSpend(e) && e.ts.Num? && rs == ReadLogged(e).records
    requires Rebuilt(xs, before, cutoff) == InWindow(Standing(xs, before), cutoff)
    ensures Rebuilt(xs, before + [e], cutoff) == InWindow(Standing(xs, before) + rs, cutoff)
  {
    var o := Bare(cutoff);
    SpendIsAppended(o, before, e);
    LoggedIsSound(e);
    ReleasedIsNotSignedLater(xs, cutoff, before, e);
    WindowOfMore(Standing(xs, before), rs, e.ts.n, cutoff);
    AddedLate(InWindow(xs, cutoff), SpendsOf(o, before), rs, ReleasesOf(o, before));
  }

  lemma RebuiltRelease(xs: seq<SpendRecord>, cutoff: int, before: seq<Entry>, e: Entry)
    requires e.event.SpendReleased? && IsTxHash(e.tx) && e.ts.Num?
    requires OneTime(Standing(xs, before), e.tx.s) && NotAfter(Standing(xs, before), e.ts.n)
    requires Rebuilt(xs, before, cutoff) == InWindow(Standing(xs, before), cutoff)
    ensures Rebuilt(xs, before + [e], cutoff) == InWindow(RemoveTx(Standing(xs, before), e.tx.s), cutoff)
  {
    var o, L := Bare(cutoff), Standing(xs, before);
    assert (before + [e])[..|before|] == before;
    WindowOfRemoved(L, e.tx.s, cutoff);
    if Gives(o, e) {
      assert ReleasesOf(o, before + [e])[..|ReleasesOf(o, before)|] == ReleasesOf(o, before);
    } else {
      WindowEmpty(L, cutoff);
      RemoveNothing([], e.tx.s);
    }
  }

  /** Replay's late removals and its window give the ledger that stands, less what has left the window. */
  lemma {:induction false} RebuiltIsStanding(xs: seq<SpendRecord>, es: seq<Entry>, cutoff: int)
    requires Whole(xs) && Follows(xs, es)
    ensures Rebuilt(xs, es, cutoff) == InWindow(Standing(xs, es), cutoff)
  {
    if es == [] {
      assert InWindow(xs, cutoff) + [] == InWindow(xs, cutoff);
    } else {
      var before, e := es[..|es| - 1], es[|es| - 1];
      assert es == before + [e];
      FollowsPrefix(xs, es);
      RebuiltIsStanding(xs, before, cutoff);
      if IsSpend(e) {
        assert SignsNew(xs, before, e);
        RebuiltSpend(xs, cutoff, before, e, ReadLogged(e).records);
      } else if e.event.SpendReleased? && IsTxHash(e.tx) {
        StandingIsWhole(xs, before);
        StepIsNotAfter(xs, before, e.ts.n);
        RebuiltRelease(xs, cutoff, before, e);
      }
    }
  }

  // ---- startup -------------------------------------------------------------------------------------

  lemma {:induction false} WrittenLines(codec: Codec, log: seq<Entry>)
    requires forall i | 0 <= i < |log| :: Printable(codec, log[i])
    ensures |Written(codec, log)| == |log|
    ensures forall i | 0 <= i < |log| :: OneLine(Written(codec, log)[i])
    ensures Entries(codec, Written(codec, log)) == log
  {
    if log != [] {
      var before := log[..|log| - 1];
      WrittenLines(codec, before);
      assert Printable(codec, log[|log| - 1]);
      assert Written(codec, log)[..|log| - 1] == Written(codec, before);
    }
  }

  lemma ChainedPrefix(codec: Codec, log: seq<Entry>, n: nat)
    requires Chained(codec, log) && n <= |log|
    ensures Chained(codec, log[..n])
  {
    forall i | 0 <= i < n ensures InPlace(codec, log[..n][..i], log[..n][i]) {
      assert log[..n][..i] == log[..i] && InPlace(codec, log[..i], log[i]);
    }
  }

  /** The checkpoint's place in the log, once the log has reached it. */
  predicate Reached(codec: Codec, o: Options, log: seq<Entry>) {
    o.checkpoint.None? || o.checkpoint.value.no == 0
    || (0 < o.checkpoint.value.no <= |log| && o.checkpoint.value.hash == LastHash(codec, log[..o.checkpoint.value.no]))
  }

  lemma ContentReads(codec: Codec, o: Options, before: seq<Entry>, e: Entry, st: Content, lineNo: nat)
    requires InPlace(codec, before, e) && st.malformedAt.None?
    ensures ContentLine(codec, o, st, lineNo, codec.write(e)).malformedAt.None?
  {
    assert ContentLine(codec, o, st, lineNo, codec.write(e)) == ContentEntry(o, st, lineNo, e);
  }

  lemma ChainGoesOn(codec: Codec, o: Options, log: seq<Entry>, e: Entry, st: Chain, lineNo: nat)
    requires InPlace(codec, log, e)
    requires st.lastHash == LastHash(codec, log) && st.brokenAt.None? && (Reached(codec, o, log) ==> st.sawCheckpoint)
    ensures var st' := ChainLine(codec, o, st, lineNo, codec.write(e));
            && st'.lastSeq == |log| + 1 && st'.lastHash == LastHash(codec, log + [e]) && st'.hasRecords
            && st'.brokenAt.None?
            && (Reached(codec, o, log + [e]) ==> st'.sawCheckpoint)
  {
    var all := log + [e];
    if Reached(codec, o, all) && !Reached(codec, o, log) {
      var no := o.checkpoint.value.no;
      assert no <= |log| ==> all[..no] == log[..no];
      assert all[..|all|] == all;
    }
  }

  /** A log of `audit`'s replays with no break, no malformed line, and the checkpoint found where it is. */
  lemma {:induction false} ChainReplays(codec: Codec, o: Options, log: seq<Entry>)
    requires Chained(codec, log)
    ensures var chain := ChainOf(codec, o, Written(codec, log));
            && chain.lastSeq == |log| && chain.lastHash == LastHash(codec, log) && chain.hasRecords == (log != [])
            && chain.brokenAt.None? && (Reached(codec, o, log) ==> chain.sawCheckpoint)
    ensures ContentOf(codec, o, Written(codec, log)).malformedAt.None?
  {
    if log != [] {
      var n := |log| - 1;
      var before, e := log[..n], log[n];
      assert log == before + [e];
      ChainedPrefix(codec, log, n);
      ChainReplays(codec, o, before);
      assert InPlace(codec, before, e);
      var lines, earlier := Written(codec, log), Written(codec, before);
      assert lines[..|lines| - 1] == earlier && lines[|lines| - 1] == codec.write(e);
      ContentReads(codec, o, before, e, ContentOf(codec, o, earlier), |lines|);
      ChainGoesOn(codec, o, before, e, ChainOf(codec, o, earlier), |lines|);
    }
  }

  /** Before the checkpoint, and since. */
  lemma LogInTwo(codec: Codec, d: Disk, cutoff: int)
    requires Chained(codec, d.log) && d.saved.Some? && d.saved.value.no <= |d.log|
    ensures SpendsOf(OptionsOf(d, cutoff), d.log) == SpendsOf(Bare(cutoff), Since(d))
    ensures ReleasesOf(OptionsOf(d, cutoff), d.log) == ReleasesOf(Bare(cutoff), Since(d))
  {
    var no := d.saved.value.no;
    var p, s := d.log[..no], d.log[no..];
    assert d.log == p + s;
    forall i | 0 <= i < |d.log| ensures d.log[i].no == Num(i + 1) {
      assert InPlace(codec, d.log[..i], d.log[i]);
    }
    BackedReadsOnlyTheRest(CheckpointAt(no, d.saved.value.hash, d.saved.value.window), cutoff, p, s);
  }

  lemma WindowIsRebuilt(codec: Codec, d: Disk, cutoff: int)
    requires Chained(codec, d.log) && AllSound(Base(d))
    requires d.saved.Some? ==> d.saved.value.no <= |d.log|
    ensures Window(OptionsOf(d, cutoff), ContentOf(codec, OptionsOf(d, cutoff), Written(codec, d.log)))
            == Some(SortByTs(Rebuilt(Base(d), Since(d), cutoff)))
  {
    var o := OptionsOf(d, cutoff);
    forall i | 0 <= i < |d.log| ensures Printable(codec, d.log[i]) {
      assert InPlace(codec, d.log[..i], d.log[i]);
    }
    WrittenLines(codec, d.log);
    if d.saved.Some? {
      CheckpointHoldsWindow(d.saved.value.window, cutoff);
      LogInTwo(codec, d, cutoff);
    }
    WindowIsFromEntries(codec, o, InWindow(Base(d), cutoff), Written(codec, d.log));
  }

  lemma RepairedText(codec: Codec, d: Disk)
    requires Chained(codec, d.log) && OneLine(d.torn) && |d.torn| < AUDIT_TAIL_BYTES
    ensures Lines(Repaired(FileText(codec, d))) == Written(codec, d.log)
    ensures Repaired(FileText(codec, d)) == AuditFile.Text(Written(codec, d.log))
  {
    forall i | 0 <= i < |d.log| ensures Printable(codec, d.log[i]) {
      assert InPlace(codec, d.log[..i], d.log[i]);
    }
    WrittenLines(codec, d.log);
    TornAppendIsCut(Written(codec, d.log), d.torn);
  }

  /**
   * What a start finds on any disk the daemon leaves: it is accepted, the numbering and the chain go
   * on where they stopped, and the spends are the ledger this disk stands for, less what is older
   * than the window: the same records in the same order.
   */
  lemma StartFinds(codec: Codec, d: Disk, cutoff: int)
    requires Kept(codec, d)
    ensures var r := Startup(codec, d, cutoff);
            && Accepts(r)
            && r.value.spends == InWindow(Stands(d), cutoff)
            && r.value.lastSeq == |d.log| && r.value.lastHash == LastHash(codec, d.log)
            && r.value.openApprovals
                == StillOpen(PendingOf(OptionsOf(d, cutoff), d.log), AnsweredOf(OptionsOf(d, cutoff), d.log))
  {
    var o := OptionsOf(d, cutoff);
    RepairedText(codec, d);
    ChainReplays(codec, o, d.log);
    WindowIsRebuilt(codec, d, cutoff);
    RebuiltIsStanding(Base(d), Since(d), cutoff);
    StandingIsWhole(Base(d), Since(d));
    WindowIsSorted(Stands(d), cutoff);
    SortKeepsSorted(InWindow(Stands(d), cutoff));
    forall i | 0 <= i < |d.log| ensures Printable(codec, d.log[i]) {
      assert InPlace(codec, d.log[..i], d.log[i]);
    }
    WrittenLines(codec, d.log);
    ContentIsOfEntries(codec, o, Written(codec, d.log));
    if d.saved.Some? && d.saved.value.no > 0 { assert Reached(codec, o, d.log); }
  }

  // ---- the writes keep it --------------------------------------------------------------------------

  lemma AppendKeeps(codec: Codec, d: Disk, e: Entry)
    requires Kept(codec, d) && InPlace(codec, d.log, e)
    requires forall x | x in d.log :: x.ts.Num? && x.ts.n <= e.ts.n
    requires NotAfter(Base(d), e.ts.n) && SignsNew(Base(d), Since(d), e)
    ensures Kept(codec, Appended(d, e))
  {
    var d' := Appended(d, e);
    ChainedMore(codec, d.log, e);
    SinceGrows(d, e);
    FollowsMore(Base(d), Since(d), e);
    if d.saved.Some? { assert d'.log[..d.saved.value.no] == d.log[..d.saved.value.no]; }
  }

  lemma SinceGrows(d: Disk, e: Entry)
    requires d.saved.Some? ==> d.saved.value.no <= |d.log|
    ensures Since(Appended(d, e)) == Since(d) + [e]
    ensures forall i | 0 <= i < |Since(d)| :: Since(d)[i] in d.log
  {
  }

  lemma ChainedMore(codec: Codec, log: seq<Entry>, e: Entry)
    requires Chained(codec, log) && InPlace(codec, log, e)
    ensures Chained(codec, log + [e])
  {
    var all := log + [e];
    forall i | 0 <= i < |all| ensures InPlace(codec, all[..i], all[i]) {
      if i < |log| {
        assert all[..i] == log[..i];
        assert InPlace(codec, log[..i], log[i]);
      } else {
        assert all[..i] == log;
      }
    }
  }

  lemma FollowsMore(xs: seq<SpendRecord>, es: seq<Entry>, e: Entry)
    requires Follows(xs, es) && e.ts.Num? && NotAfter(xs, e.ts.n) && SignsNew(xs, es, e)
    requires forall i | 0 <= i < |es| :: es[i].ts.n <= e.ts.n
    ensures Follows(xs, es + [e])
  {
    var all := es + [e];
    forall i | 0 <= i < |all| ensures SignsNew(xs, all[..i], all[i]) {
      if i < |es| {
        assert all[..i] == es[..i] && SignsNew(xs, es[..i], es[i]);
      } else {
        assert all[..i] == es;
      }
    }
  }

  lemma SaveKeeps(codec: Codec, d: Disk, ledger: seq<SpendRecord>)
    requires Kept(codec, d) && Whole(ledger)
    ensures Kept(codec, SavedAt(codec, d, ledger)) && Since(SavedAt(codec, d, ledger)) == []
  {
    assert d.log[..|d.log|] == d.log;
  }

  lemma RepairKeeps(codec: Codec, d: Disk)
    requires Kept(codec, d)
    ensures Kept(codec, d.(torn := ""))
  {
  }
}
