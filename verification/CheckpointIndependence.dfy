/**
 * A checkpoint changes how much of the log is read again, never what comes out: replaying a log with
 * the checkpoint taken after any prefix of it gives the spends of replaying it with none. Replay takes
 * released spends out only at the end, so this is where removals done late are shown to agree with
 * removals done in order.
 */
module CheckpointIndependence {
  import opened Wrappers
  import opened Policy
  import opened Replay
  import opened Text
  import opened LogView

  function CountTx(rs: seq<SpendRecord>, tx: string): nat {
    if rs == [] then 0 else CountTx(rs[..|rs| - 1], tx) + (if Names(rs[|rs| - 1], tx) then 1 else 0)
  }

  function CountOf(xs: seq<string>, x: string): nat {
    if xs == [] then 0 else CountOf(xs[..|xs| - 1], x) + (if xs[|xs| - 1] == x then 1 else 0)
  }

  lemma {:induction false} CountConcat(xs: seq<SpendRecord>, ys: seq<SpendRecord>, tx: string)
    ensures CountTx(xs + ys, tx) == CountTx(xs, tx) + CountTx(ys, tx)
  {
    if ys == [] {
      assert xs + ys == xs;
    } else {
      assert (xs + ys)[..|xs| + |ys| - 1] == xs + ys[..|ys| - 1];
      CountConcat(xs, ys[..|ys| - 1], tx);
    }
  }

  lemma {:induction false} CountNone(rs: seq<SpendRecord>, tx: string)
    ensures CountTx(rs, tx) == 0 <==> NoneNames(rs, tx)
  {
    if rs != [] {
      CountNone(rs[..|rs| - 1], tx);
      assert forall i | 0 <= i < |rs| - 1 :: rs[..|rs| - 1][i] == rs[i];
    }
  }

  lemma RemoveTxCount(rs: seq<SpendRecord>, tx: string, other: string)
    ensures CountTx(RemoveTx(rs, tx), other) == if tx == other
            && CountTx(rs, tx) > 0 then CountTx(rs, other) - 1 else CountTx(rs, other)
  {
    CountNone(rs, tx);
    var i := FindTx(rs, tx);
    if i < |rs| {
      var before, after := rs[..i], rs[i + 1..];
      assert rs == before + [rs[i]] + after;
      CountConcat(before + [rs[i]], after, other);
      CountConcat(before, [rs[i]], other);
      CountConcat(before, after, other);
      assert [rs[i]][..0] == [];
    }
  }

  lemma {:induction false} RemoveTxsCount(rs: seq<SpendRecord>, txs: seq<string>, tx: string)
    ensures CountTx(RemoveTxs(rs, txs), tx) == if CountTx(rs, tx) > CountOf(txs, tx)
            then CountTx(rs, tx) - CountOf(txs, tx) else 0
  {
    if txs != [] {
      RemoveTxsCount(rs, txs[..|txs| - 1], tx);
      RemoveTxCount(RemoveTxs(rs, txs[..|txs| - 1]), txs[|txs| - 1], tx);
    }
  }

  /** Every release finds its spend in the first list, or there is none for it in the second. */
  predicate Settled(xs: seq<SpendRecord>, ys: seq<SpendRecord>, txs: seq<string>) {
    forall j | 0 <= j < |txs| :: CountTx(xs, txs[j]) > CountOf(txs[..j], txs[j]) || NoneNames(ys, txs[j])
  }

  lemma {:induction false} RemovalsStayInFirst(xs: seq<SpendRecord>, ys: seq<SpendRecord>, txs: seq<string>)
    requires Settled(xs, ys, txs)
    ensures RemoveTxs(xs + ys, txs) == RemoveTxs(xs, txs) + ys
  {
    if txs != [] {
      var before, tx := txs[..|txs| - 1], txs[|txs| - 1];
      assert forall j | 0 <= j < |before| :: before[j] == txs[j] && before[..j] == txs[..j];
      RemovalsStayInFirst(xs, ys, before);
      RemoveTxsCount(xs, before, tx);
      CountNone(RemoveTxs(xs, before), tx);
      RemoveTxConcat(RemoveTxs(xs, before), ys, tx);
    }
  }

  // ---- logs ------------------------------------------------------------------------------------------

  predicate TimeOrdered(es: seq<Entry>) {
    forall i, j | 0 <= i < j < |es| && es[i].ts.Num? && es[j].ts.Num? :: es[i].ts.n <= es[j].ts.n
  }

  /** Each release follows a still unreleased spend of its transaction: more spends than releases so far. */
  predicate ReleasesFollowSpends(o: Options, es: seq<Entry>) {
    forall i | 0 <= i < |es| && Gives(o, es[i]) ::
      CountTx(SpendsOf(o, es[..i]), es[i].tx.s) > CountOf(ReleasesOf(o, es[..i]), es[i].tx.s)
  }

  predicate NumberedUpTo(es: seq<Entry>, no: int) {
    forall i | 0 <= i < |es| && es[i].no.Num? :: es[i].no.n <= no
  }

  predicate NumberedAbove(es: seq<Entry>, no: int) {
    forall i | 0 <= i < |es| :: es[i].no.Num? && es[i].no.n > no
  }

  lemma {:induction false} SpendComesFrom(o: Options, es: seq<Entry>, r: SpendRecord) returns (i: nat)
    requires r in SpendsOf(o, es)
    ensures i < |es| && Counts(o, es[i]) && r in ReadLogged(es[i]).records && r.ts == es[i].ts.n
  {
    var before, e := es[..|es| - 1], es[|es| - 1];
    if r in SpendsOf(o, before) {
      i := SpendComesFrom(o, before, r);
    } else {
      LoggedIsSound(e);
      i := |es| - 1;
    }
  }

  lemma {:induction false} SpendsAreSorted(o: Options, es: seq<Entry>)
    requires TimeOrdered(es)
    ensures TimeSorted(SpendsOf(o, es))
  {
    if es != [] {
      var before, e := es[..|es| - 1], es[|es| - 1];
      SpendsAreSorted(o, before);
      if Counts(o, e) {
        LoggedIsSound(e);
        forall r | r in SpendsOf(o, before) ensures r.ts <= e.ts.n {
          var i := SpendComesFrom(o, before, r);
          assert before[i] == es[i];
        }
      }
    }
  }

  lemma SpendsAreRecent(o: Options, es: seq<Entry>)
    ensures forall r | r in SpendsOf(o, es) :: r.ts >= o.cutoff
  {
    forall r | r in SpendsOf(o, es) ensures r.ts >= o.cutoff {
      var i := SpendComesFrom(o, es, r);
    }
  }

  lemma {:induction false} FollowingIsSettled(o: Options, es: seq<Entry>, ys: seq<SpendRecord>)
    requires ReleasesFollowSpends(o, es)
    ensures Settled(SpendsOf(o, es), ys, ReleasesOf(o, es))
  {
    if es != [] {
      var before, e := es[..|es| - 1], es[|es| - 1];
      assert forall i | 0 <= i < |before| :: before[i] == es[i] && before[..i] == es[..i];
      FollowingIsSettled(o, before, ys);
      var xs, txs := SpendsOf(o, before), ReleasesOf(o, before);
      forall j | 0 <= j < |ReleasesOf(o, es)|
        ensures CountTx(SpendsOf(o, es), ReleasesOf(o, es)[j]) > CountOf(ReleasesOf(o, es)[..j], ReleasesOf(o, es)[j])
                || NoneNames(ys, ReleasesOf(o, es)[j])
      {
        if j < |txs| {
          assert ReleasesOf(o, es)[..j] == txs[..j] && ReleasesOf(o, es)[j] == txs[j];
          if Counts(o, e) { CountConcat(xs, ReadLogged(e).records, txs[j]); }
        } else {
          assert ReleasesOf(o, es)[..j] == txs && es[..|es| - 1] == before;
        }
      }
    }
  }

  /** What `writeCheckpoint` stores for a window. */
  function CheckpointAt(no: int, hash: string, window: seq<SpendRecord>): Checkpoint {
    Checkpoint(no, hash, CheckpointEntries(window))
  }

  function Bare(cutoff: int): Options {
    Options(None, cutoff)
  }

  function Backed(c: Checkpoint, cutoff: int): Options {
    Options(Some(c), cutoff)
  }

  /** The spends of the window, from the records of the log and what a checkpoint held. */
  function WindowFrom(o: Options, held: seq<SpendRecord>, es: seq<Entry>): seq<SpendRecord> {
    SortByTs(RemoveTxs(held + SpendsOf(o, es), ReleasesOf(o, es)))
  }

  lemma WindowIsFromEntries(codec: Codec, o: Options, held: seq<SpendRecord>, lines: seq<string>)
    requires if o.checkpoint.None? then held == []
             else CheckpointSpends(o.checkpoint.value.spends, o.cutoff) == Some(held)
    ensures Window(o, ContentOf(codec, o, lines)) == Some(WindowFrom(o, held, Entries(codec, lines)))
  {
    ContentIsOfEntries(codec, o, lines);
  }

  /** With a checkpoint taken after `p`, replay reads only `s`, on top of what the checkpoint held. */
  lemma BackedReadsOnlyTheRest(c: Checkpoint, cutoff: int, p: seq<Entry>, s: seq<Entry>)
    requires NumberedUpTo(p, c.no) && NumberedAbove(s, c.no)
    ensures SpendsOf(Backed(c, cutoff), p + s) == SpendsOf(Bare(cutoff), s)
    ensures ReleasesOf(Backed(c, cutoff), p + s) == ReleasesOf(Bare(cutoff), s)
  {
    var o := Backed(c, cutoff);
    SpendsConcat(o, p, s);
    SeenSpendsNothing(o, p);
    UnseenReadsAlike(o, Bare(cutoff), s);
    assert [] + SpendsOf(o, s) == SpendsOf(o, s) && [] + ReleasesOf(o, s) == ReleasesOf(o, s);
  }

  /** The window after `p` in order, then what `s` adds and takes away. */
  lemma BareReadsInTwo(cutoff: int, p: seq<Entry>, s: seq<Entry>)
    requires Settled(SpendsOf(Bare(cutoff), p), SpendsOf(Bare(cutoff), s), ReleasesOf(Bare(cutoff), p))
    ensures var o := Bare(cutoff);
            WindowFrom(o, [], p + s)
                == SortByTs(RemoveTxs(RemoveTxs(SpendsOf(o, p), ReleasesOf(o, p)) + SpendsOf(o, s), ReleasesOf(o, s)))
  {
    var o := Bare(cutoff);
    SpendsConcat(o, p, s);
    assert [] + SpendsOf(o, p + s) == SpendsOf(o, p) + SpendsOf(o, s);
    RemoveTxsConcat(SpendsOf(o, p) + SpendsOf(o, s), ReleasesOf(o, p), ReleasesOf(o, s));
    RemovalsStayInFirst(SpendsOf(o, p), SpendsOf(o, s), ReleasesOf(o, p));
  }

  lemma RemovedIsSortedAlready(o: Options, es: seq<Entry>)
    requires TimeOrdered(es)
    ensures WindowFrom(o, [], es) == RemoveTxs(SpendsOf(o, es), ReleasesOf(o, es))
    ensures AllSound(WindowFrom(o, [], es))
    ensures forall r | r in WindowFrom(o, [], es) :: r.ts >= o.cutoff
  {
    assert [] + SpendsOf(o, es) == SpendsOf(o, es);
    SpendsAreSorted(o, es);
    SpendsAreSound(o, es);
    SpendsAreRecent(o, es);
    RemovedAllComeFrom(SpendsOf(o, es), ReleasesOf(o, es));
    SortKeepsSorted(RemoveTxs(SpendsOf(o, es), ReleasesOf(o, es)));
  }

  lemma {:induction false} EntriesConcat(codec: Codec, p: seq<string>, s: seq<string>)
    ensures Entries(codec, p + s) == Entries(codec, p) + Entries(codec, s)
  {
    if s == [] {
      assert p + s == p;
    } else {
      assert (p + s)[..|p| + |s| - 1] == p + s[..|s| - 1];
      EntriesConcat(codec, p, s[..|s| - 1]);
    }
  }

  /**
   * Checkpoint independence. The log is `p` then `s`, the checkpoint the one taken when `p` was the
   * log, and the records are in time order. If each release follows a still unreleased spend of its
   * transaction, the window replay rebuilds is the same with that checkpoint and without it.
   */
  lemma SameWindowWithCheckpoint(codec: Codec, p: seq<string>, s: seq<string>, no: int, hash: string, cutoff: int,
                                 window: seq<SpendRecord>)
    requires Window(Bare(cutoff), ContentOf(codec, Bare(cutoff), p)) == Some(window)
    requires NumberedUpTo(Entries(codec, p), no) && NumberedAbove(Entries(codec, s), no)
    requires TimeOrdered(Entries(codec, p))
    requires ReleasesFollowSpends(Bare(cutoff), Entries(codec, p))
    ensures var o := Backed(CheckpointAt(no, hash, window), cutoff);
            Window(o, ContentOf(codec, o, p + s)) == Window(Bare(cutoff), ContentOf(codec, Bare(cutoff), p + s))
  {
    var c := CheckpointAt(no, hash, window);
    var o, bare := Backed(c, cutoff), Bare(cutoff);
    var ep, es := Entries(codec, p), Entries(codec, s);
    EntriesConcat(codec, p, s);
    WindowIsFromEntries(codec, bare, [], p);
    RemovedIsSortedAlready(bare, ep);
    CheckpointHoldsWindow(window, cutoff);
    WindowWhole(window, cutoff);
    WindowIsFromEntries(codec, o, window, p + s);
    WindowIsFromEntries(codec, bare, [], p + s);
    BackedReadsOnlyTheRest(c, cutoff, ep, es);
    FollowingIsSettled(bare, ep, SpendsOf(bare, es));
    BareReadsInTwo(cutoff, ep, es);
  }

  // ---- a checkpoint taken earlier ------------------------------------------------------------------

  /** A transaction is signed once, before any release of it: what `sign` and `releaseExpired` write. */
  predicate SignedOnce(es: seq<Entry>) {
    forall i, j | 0 <= i < j < |es| && es[j].event.Signed? && IsTxHash(es[j].tx) ::
      !((es[i].event.Signed? || es[i].event.SpendReleased?) && es[i].tx == es[j].tx)
  }

  /** The spends of a window that name a transaction all come from the one record that signed it. */
  lemma NamedByOneRecord(o: Options, es: seq<Entry>, r: SpendRecord, tx: string) returns (i: nat)
    requires r in SpendsOf(o, es) && Names(r, tx)
    ensures i < |es| && es[i].event.Signed? && es[i].tx == Str(tx) && IsTxHash(es[i].tx) && es[i].ts == Num(r.ts)
  {
    i := SpendComesFrom(o, es, r);
  }

  lemma SignedOnceIsOneTime(o: Options, es: seq<Entry>, txs: seq<string>, tx: string)
    requires SignedOnce(es)
    ensures OneTime(RemoveTxs(SpendsOf(o, es), txs), tx)
  {
    var rs := RemoveTxs(SpendsOf(o, es), txs);
    RemovedAllComeFrom(SpendsOf(o, es), txs);
    forall i, j | 0 <= i < |rs| && 0 <= j < |rs| && Names(rs[i], tx) && Names(rs[j], tx) ensures rs[i].ts == rs[j].ts {
      var k := NamedByOneRecord(o, es, rs[i], tx);
      var l := NamedByOneRecord(o, es, rs[j], tx);
    }
  }

  /** What is spent after a release is of another transaction. */
  lemma {:induction false} ReleasedEarlierIsNotSpent(o: Options, p: seq<Entry>, q: Options, s: seq<Entry>)
    requires SignedOnce(p + s)
    ensures forall j | 0 <= j < |ReleasesOf(o, p)| :: NoneNames(SpendsOf(q, s), ReleasesOf(o, p)[j])
  {
    if p != [] {
      var before, e := p[..|p| - 1], p[|p| - 1];
      assert before + ([e] + s) == p + s;
      ReleasedEarlierIsNotSpent(o, before, q, [e] + s);
      SpendsConcat(q, [e], s);
      var head := SpendsOf(q, [e]);
      assert forall i | 0 <= i < |SpendsOf(q, s)| :: SpendsOf(q, [e] + s)[|head| + i] == SpendsOf(q, s)[i];
      assert (p + s)[|p| - 1] == e && forall k | 0 <= k < |s| :: (p + s)[|p| + k] == s[k];
      if Gives(o, e) {
        forall i | 0 <= i < |SpendsOf(q, s)| ensures !Names(SpendsOf(q, s)[i], e.tx.s) {
          if Names(SpendsOf(q, s)[i], e.tx.s) {
            var k := NamedByOneRecord(q, s, SpendsOf(q, s)[i], e.tx.s);
            assert false;
          }
        }
      }
    }
  }

  /** The window that passes over a replayed log is the replay of the log at the later time. */
  lemma {:induction false} WindowPasses(early: int, late: int, es: seq<Entry>)
    requires early <= late && TimeOrdered(es) && SignedOnce(es)
    ensures var o, q := Bare(early), Bare(late);
            InWindow(RemoveTxs(SpendsOf(o, es), ReleasesOf(o, es)), late)
                == RemoveTxs(SpendsOf(q, es), ReleasesOf(q, es))
  {
    if es != [] {
      var before, e := es[..|es| - 1], es[|es| - 1];
      assert es == before + [e];
      WindowPasses(early, late, before);
      if e.event.Signed? || e.event.VoucherSigned? {
        WindowPassesSpend(early, late, before, e);
      } else if e.event.SpendReleased? {
        WindowPassesRelease(early, late, before, e);
      }
    }
  }

  lemma RemovalsStayBeforeSpend(o: Options, before: seq<Entry>, e: Entry)
    requires SignedOnce(before + [e]) && Counts(o, e)
    ensures RemoveTxs(SpendsOf(o, before + [e]), ReleasesOf(o, before + [e]))
            == RemoveTxs(SpendsOf(o, before), ReleasesOf(o, before)) + ReadLogged(e).records
  {
    var es := before + [e];
    assert es[..|es| - 1] == before;
    ReleasedEarlierIsNotSpent(o, before, o, [e]);
    assert [e][..0] == [] && SpendsOf(o, [e]) == [] + ReadLogged(e).records == ReadLogged(e).records;
    RemovalsStayInFirst(SpendsOf(o, before), ReadLogged(e).records, ReleasesOf(o, before));
  }

  lemma WindowPassesSpend(early: int, late: int, before: seq<Entry>, e: Entry)
    requires early <= late && SignedOnce(before + [e]) && (e.event.Signed? || e.event.VoucherSigned?)
    requires InWindow(RemoveTxs(SpendsOf(Bare(early), before), ReleasesOf(Bare(early), before)), late)
          == RemoveTxs(SpendsOf(Bare(late), before), ReleasesOf(Bare(late), before))
    ensures InWindow(RemoveTxs(SpendsOf(Bare(early), before + [e]), ReleasesOf(Bare(early), before + [e])), late)
         == RemoveTxs(SpendsOf(Bare(late), before + [e]), ReleasesOf(Bare(late), before + [e]))
  {
    var o, q, es := Bare(early), Bare(late), before + [e];
    assert es[..|es| - 1] == before;
    if Counts(o, e) {
      LoggedIsSound(e);
      var kept, added := RemoveTxs(SpendsOf(o, before), ReleasesOf(o, before)), ReadLogged(e).records;
      RemovalsStayBeforeSpend(o, before, e);
      WindowConcat(kept, added, late);
      if Counts(q, e) {
        RemovalsStayBeforeSpend(q, before, e);
        WindowWhole(added, late);
      } else {
        WindowEmpty(added, late);
      }
    }
  }

  /** A release that has itself left the window names only spends that have. */
  lemma AgedReleaseNamesNothing(o: Options, late: int, before: seq<Entry>, e: Entry)
    requires TimeOrdered(before + [e]) && Gives(o, e) && e.ts.n < late
    ensures NoneNames(InWindow(RemoveTxs(SpendsOf(o, before), ReleasesOf(o, before)), late), e.tx.s)
  {
    var es, kept := before + [e], RemoveTxs(SpendsOf(o, before), ReleasesOf(o, before));
    RemovedAllComeFrom(SpendsOf(o, before), ReleasesOf(o, before));
    WindowOf(kept, late);
    assert es[|before|] == e && forall i | 0 <= i < |before| :: es[i] == before[i];
    forall r | r in InWindow(kept, late) ensures !Names(r, e.tx.s) {
      if Names(r, e.tx.s) {
        var i := NamedByOneRecord(o, before, r, e.tx.s);
        assert false;
      }
    }
  }

  lemma WindowPassesRelease(early: int, late: int, before: seq<Entry>, e: Entry)
    requires early <= late && TimeOrdered(before + [e]) && SignedOnce(before + [e]) && e.event.SpendReleased?
    requires InWindow(RemoveTxs(SpendsOf(Bare(early), before), ReleasesOf(Bare(early), before)), late)
          == RemoveTxs(SpendsOf(Bare(late), before), ReleasesOf(Bare(late), before))
    ensures InWindow(RemoveTxs(SpendsOf(Bare(early), before + [e]), ReleasesOf(Bare(early), before + [e])), late)
         == RemoveTxs(SpendsOf(Bare(late), before + [e]), ReleasesOf(Bare(late), before + [e]))
  {
    var o, q, es := Bare(early), Bare(late), before + [e];
    assert es[..|es| - 1] == before;
    if Gives(o, e) {
      var kept, tx := RemoveTxs(SpendsOf(o, before), ReleasesOf(o, before)), e.tx.s;
      assert ReleasesOf(o, es)[..|ReleasesOf(o, before)|] == ReleasesOf(o, before);
      assert SignedOnce(before) by { assert forall i | 0 <= i < |before| :: es[i] == before[i]; }
      SignedOnceIsOneTime(o, before, ReleasesOf(o, before), tx);
      WindowOfRemoved(kept, tx, late);
      if Gives(q, e) {
        assert ReleasesOf(q, es)[..|ReleasesOf(q, before)|] == ReleasesOf(q, before);
      } else {
        AgedReleaseNamesNothing(o, late, before, e);
        RemoveNothing(InWindow(kept, late), tx);
      }
    }
  }

  /**
   * The same when the checkpoint is older than the replay, as at every restart: it was taken after
   * `p` at a time whose window began at `early`, and is replayed with a window beginning at `late`.
   */
  lemma SameWindowWithEarlierCheckpoint(codec: Codec, p: seq<string>, s: seq<string>, no: int, hash: string, early: int,
                                        late: int, window: seq<SpendRecord>)
    requires early <= late
    requires Window(Bare(early), ContentOf(codec, Bare(early), p)) == Some(window)
    requires NumberedUpTo(Entries(codec, p), no) && NumberedAbove(Entries(codec, s), no)
    requires TimeOrdered(Entries(codec, p)) && SignedOnce(Entries(codec, p + s))
    ensures var o := Backed(CheckpointAt(no, hash, window), late);
            Window(o, ContentOf(codec, o, p + s)) == Window(Bare(late), ContentOf(codec, Bare(late), p + s))
  {
    var c := CheckpointAt(no, hash, window);
    var o, bare := Backed(c, late), Bare(late);
    var ep, es := Entries(codec, p), Entries(codec, s);
    EntriesConcat(codec, p, s);
    assert SignedOnce(ep) by { assert forall i | 0 <= i < |ep| :: (ep + es)[i] == ep[i]; }
    WindowIsFromEntries(codec, Bare(early), [], p);
    RemovedIsSortedAlready(Bare(early), ep);
    CheckpointHoldsWindow(window, late);
    WindowPasses(early, late, ep);
    WindowIsFromEntries(codec, o, InWindow(window, late), p + s);
    WindowIsFromEntries(codec, bare, [], p + s);
    BackedReadsOnlyTheRest(c, late, ep, es);
    ReleasedEarlierIsNotSpent(bare, ep, bare, es);
    BareReadsInTwo(late, ep, es);
  }
}
