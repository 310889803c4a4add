/**
 * No spend is passed over: what replay cannot read it reports, at the first line it stands on, or
 * refuses, and what it does read comes to what the records say.
 */
module ReplayReads {
  import opened Wrappers
  import opened Decimal
  import opened Text
  import opened Policy
  import opened Replay
  import opened LogView
  import opened History

  // ---- what a record must say -----------------------------------------------------------------------------

  predicate Name(v: Json) {
    v.Str? && |v.s| > 0
  }

  predicate InDigits(v: Json) {
    v.Str? && |v.s| > 0 && forall i | 0 <= i < |v.s| :: '0' <= v.s[i] <= '9'
  }

  /**
   * A spend that can be read: whose it is, of what, and how much, in digits; and what ADA went with
   * a payment, if any.
   */
  predicate Legible(e: Entry) {
    && Name(e.agentId) && Name(e.asset) && InDigits(e.amount)
    && (e.event.Signed? ==> e.overheadLovelace == Undefined || InDigits(e.overheadLovelace))
  }

  /** A spend that replay is to count: of the window, and not in the checkpoint already. */
  predicate ToCount(o: Options, e: Entry) {
    && (e.event.Signed? || e.event.VoucherSigned?)
    && e.ts.Num? && e.ts.n >= o.cutoff
    && (o.checkpoint.Some? ==> e.no.Num? && e.no.n > o.checkpoint.value.no)
  }

  predicate AllLegible(o: Options, es: seq<Entry>) {
    forall i | 0 <= i < |es| && ToCount(o, es[i]) :: Legible(es[i])
  }

  /** A line with something on it that is no record, or is a spend to count that cannot be read. */
  predicate Faulty(codec: Codec, o: Options, line: string) {
    && (exists i :: 0 <= i < |line| && !IsSpace(line[i]))
    && match codec.parse(line)
       case None => true
       case Some(e) => ToCount(o, e) && !Legible(e)
  }

  lemma BlankIs(s: string)
    ensures IsBlank(s) <==> forall i | 0 <= i < |s| :: IsSpace(s[i])
  {
    var i, j := TrimIs(s);
  }

  lemma FaultIsReported(codec: Codec, o: Options, st: Content, lineNo: nat, line: string)
    ensures ContentLine(codec, o, st, lineNo, line).malformedAt
         == if st.malformedAt.None? && Faulty(codec, o, line) then Some(lineNo) else st.malformedAt
  {
    BlankIs(line);
  }

  /** Replay names a line as malformed exactly when there is one, and the first there is. */
  lemma {:induction false} MalformedIsTheFirst(codec: Codec, o: Options, lines: seq<string>)
    ensures var at := ContentOf(codec, o, lines).malformedAt;
            && (at.None? <==> forall i | 0 <= i < |lines| :: !Faulty(codec, o, lines[i]))
            && (at.Some? ==> && 1 <= at.value <= |lines| && Faulty(codec, o, lines[at.value - 1])
                             && forall i | 0 <= i < at.value - 1 :: !Faulty(codec, o, lines[i]))
  {
    if lines != [] {
      var n := |lines| - 1;
      MalformedIsTheFirst(codec, o, lines[..n]);
      FaultIsReported(codec, o, ContentOf(codec, o, lines[..n]), n + 1, lines[n]);
      assert forall i | 0 <= i < n :: lines[..n][i] == lines[i];
    }
  }

  // ---- what the records come to -----------------------------------------------------------------------------

  /** What an agent's spends of an asset come to. */
  function Of(a: string, x: string): SpendRecord -> nat {
    (r: SpendRecord) => if r.agentId == a && r.asset == x then r.amount else 0
  }

  function Digits(v: Json): nat {
    if InDigits(v) then FromDecimal(v.s) else 0
  }

  /** What one record says an agent spent of an asset: its amount, and the lovelace that went with a payment. */
  function Said(e: Entry, a: string, x: string): nat {
    if e.agentId != Str(a) then 0
    else (if e.asset == Str(x) then Digits(e.amount) else 0)
         + (if e.event.Signed? && x == "lovelace" then Digits(e.overheadLovelace) else 0)
  }

  function AllSaid(o: Options, es: seq<Entry>, a: string, x: string): nat {
    if es == [] then 0
    else AllSaid(o, es[..|es| - 1], a, x) + if ToCount(o, es[|es| - 1]) then Said(es[|es| - 1], a, x) else 0
  }

  lemma LoggedSaysSo(e: Entry, a: string, x: string)
    requires Legible(e) && e.ts.Num? && (e.event.Signed? || e.event.VoucherSigned?) && a != ""
    ensures Weight(ReadLogged(e).records, Of(a, x)) == Said(e, a, x)
  {
    var rs := ReadLogged(e).records;
    assert IsName(e.agentId) && IsName(e.asset) && IsAmount(e.amount);
    assert [rs[0]][..0] == [];
    if |rs| > 1 {
      assert rs[..1] == [rs[0]];
    } else {
      assert rs == [rs[0]];
    }
  }

  /** What replay adds for the log is what its records say, for every agent and asset. */
  lemma {:induction false} SpendsComeTo(o: Options, es: seq<Entry>, a: string, x: string)
    requires a != "" && AllLegible(o, es)
    ensures Weight(SpendsOf(o, es), Of(a, x)) == AllSaid(o, es, a, x)
  {
    if es != [] {
      var n := |es| - 1;
      assert forall i | 0 <= i < n :: es[..n][i] == es[i];
      SpendsComeTo(o, es[..n], a, x);
      if ToCount(o, es[n]) {
        LoggedSaysSo(es[n], a, x);
        WeightConcat(SpendsOf(o, es[..n]), ReadLogged(es[n]).records, Of(a, x));
      }
    }
  }

  /**
   * What else a spend is read as: made when the record says, a voucher's by its event alone, and
   * naming the transaction and the slot of a payment where they are well formed.
   */
  lemma LoggedSpends(e: Entry)
    requires Legible(e) && e.ts.Num? && (e.event.Signed? || e.event.VoucherSigned?)
    ensures var rs := ReadLogged(e).records;
            && 1 <= |rs| <= 2 && (|rs| == 2 ==> rs[1].overhead && e.event.Signed?)
            && (rs[0].overhead <==> e.event.Signed? && e.overhead == Bool(true) && e.asset == Str("lovelace"))
            && forall i | 0 <= i < |rs| ::
                 && rs[i].ts == e.ts.n && Str(rs[i].agentId) == e.agentId && (rs[i].voucher <==> e.event.VoucherSigned?)
                 && rs[i].tx == (if e.event.Signed? && IsTxHash(e.tx) then Some(e.tx.s) else None)
                 && rs[i].ttlSlot == (if e.event.Signed? && IsSlot(e.ttlSlot) then Some(e.ttlSlot.n) else None)
  {
  }

  // ---- what the checkpoint holds ------------------------------------------------------------------------------

  predicate Stored(e: Entry) {
    e.ts.Num? && Name(e.agentId) && Name(e.asset) && InDigits(e.amount)
  }

  function AllStored(spends: seq<Entry>, cutoff: int, a: string, x: string): nat {
    if spends == [] then 0
    else
      var e := spends[|spends| - 1];
      AllStored(spends[..|spends| - 1], cutoff, a, x)
      + if e.ts.Num? && e.ts.n >= cutoff && e.agentId == Str(a) && e.asset == Str(x) then Digits(e.amount) else 0
  }

  /** A stored spend that cannot be read is refused. */
  lemma {:induction false} StoredIsRefused(spends: seq<Entry>, cutoff: int)
    ensures CheckpointSpends(spends, cutoff).None? <==> exists i :: 0 <= i < |spends| && !Stored(spends[i])
  {
    if spends != [] {
      var n := |spends| - 1;
      StoredIsRefused(spends[..n], cutoff);
      assert forall i | 0 <= i < n :: spends[..n][i] == spends[i];
      assert ReadSpend(spends[n], 0).None? <==> !(Name(spends[n].agentId) && Name(spends[n].asset)
                                                   && InDigits(spends[n].amount));
    }
  }

  /** Otherwise those of the window come to what they say. */
  lemma {:induction false} StoredComesTo(spends: seq<Entry>, cutoff: int, a: string, x: string)
    requires a != "" && CheckpointSpends(spends, cutoff).Some?
    ensures Weight(CheckpointSpends(spends, cutoff).value, Of(a, x)) == AllStored(spends, cutoff, a, x)
  {
    if spends != [] {
      var n := |spends| - 1;
      var before, e := spends[..n], spends[n];
      StoredComesTo(before, cutoff, a, x);
      if e.ts.n >= cutoff {
        var r := ReadSpend(e, e.ts.n).value;
        WeightConcat(CheckpointSpends(before, cutoff).value, [r], Of(a, x));
        assert [r][..0] == [];
      }
    }
  }

  /** A stored spend is read as what it says of itself. */
  lemma StoredIsRead(e: Entry)
    requires Stored(e)
    ensures var r := ReadSpend(e, e.ts.n);
            && r.Some? && r.value.ts == e.ts.n && Str(r.value.agentId) == e.agentId && Str(r.value.asset) == e.asset
            && (r.value.voucher <==> e.voucher == Bool(true))
            && (r.value.overhead <==> e.voucher != Bool(true) && e.overhead == Bool(true) && e.asset == Str("lovelace"))
            && r.value.tx == (if e.voucher != Bool(true) && IsTxHash(e.tx) then Some(e.tx.s) else None)
            && r.value.ttlSlot == (if e.voucher != Bool(true) && IsSlot(e.ttlSlot) then Some(e.ttlSlot.n) else None)
  {
  }

  // ---- what replay answers ------------------------------------------------------------------------------------

  lemma {:induction false} InsertWeighs(xs: seq<SpendRecord>, r: SpendRecord, w: SpendRecord -> nat)
    ensures Weight(InsertByTs(xs, r), w) == Weight(xs, w) + w(r)
  {
    assert (xs + [r])[..|xs|] == xs;
    if !(xs == [] || xs[|xs| - 1].ts <= r.ts) {
      InsertWeighs(xs[..|xs| - 1], r, w);
      var out := InsertByTs(xs[..|xs| - 1], r);
      assert (out + [xs[|xs| - 1]])[..|out|] == out;
    }
  }

  lemma {:induction false} SortWeighs(xs: seq<SpendRecord>, w: SpendRecord -> nat)
    ensures Weight(SortByTs(xs), w) == Weight(xs, w)
  {
    if xs != [] {
      SortWeighs(xs[..|xs| - 1], w);
      InsertWeighs(SortByTs(xs[..|xs| - 1]), xs[|xs| - 1], w);
    }
  }

  function StoredIn(o: Options): seq<Entry> {
    if o.checkpoint.Some? then o.checkpoint.value.spends else []
  }

  /** Replay refuses exactly a checkpoint with a spend that cannot be read. */
  lemma RefusesExactly(codec: Codec, o: Options, lines: seq<string>)
    ensures Replayed(codec, o, lines).None? <==> exists i :: 0 <= i < |StoredIn(o)| && !Stored(StoredIn(o)[i])
  {
    StoredIsRefused(StoredIn(o), o.cutoff);
  }

  /**
   * No spend is passed over. Where replay answers and reports nothing malformed, every line is a record
   * or blank and every spend it is to count can be read, and what it makes the window from comes, for
   * each agent and asset, to what those records say and the checkpoint's spends of the window say;
   * where nothing was released, so does the window itself.
   */
  lemma NothingIsPassedOver(codec: Codec, o: Options, lines: seq<string>, r: Replay, a: string, x: string)
    returns (held: seq<SpendRecord>)
    requires Replayed(codec, o, lines) == Some(r) && r.malformedAt.None? && a != ""
    ensures forall i | 0 <= i < |lines| :: !Faulty(codec, o, lines[i])
    ensures var es := Entries(codec, lines);
            var said := AllStored(StoredIn(o), o.cutoff, a, x) + AllSaid(o, es, a, x);
            && CheckpointSpends(StoredIn(o), o.cutoff) == Some(held)
            && Weight(held + SpendsOf(o, es), Of(a, x)) == said
            && r.spends == SortByTs(RemoveTxs(held + SpendsOf(o, es), ReleasesOf(o, es)))
            && (ReleasesOf(o, es) == [] ==> Weight(r.spends, Of(a, x)) == said)
  {
    var es := Entries(codec, lines);
    held := ReplayedFrom(codec, o, lines, r);
    MalformedIsTheFirst(codec, o, lines);
    EveryEntryLegible(codec, o, lines);
    WindowComesTo(o, es, held, a, x);
  }

  lemma ReplayedFrom(codec: Codec, o: Options, lines: seq<string>, r: Replay) returns (held: seq<SpendRecord>)
    requires Replayed(codec, o, lines) == Some(r)
    ensures CheckpointSpends(StoredIn(o), o.cutoff) == Some(held)
    ensures r.malformedAt == ContentOf(codec, o, lines).malformedAt
    ensures r.spends == SortByTs(RemoveTxs(held + SpendsOf(o, Entries(codec, lines)),
                                           ReleasesOf(o, Entries(codec, lines))))
  {
    ContentIsOfEntries(codec, o, lines);
    held := CheckpointSpends(StoredIn(o), o.cutoff).value;
  }

  lemma WindowComesTo(o: Options, es: seq<Entry>, held: seq<SpendRecord>, a: string, x: string)
    requires a != "" && AllLegible(o, es)
    requires CheckpointSpends(StoredIn(o), o.cutoff) == Some(held)
    ensures var all, said := held + SpendsOf(o, es), AllStored(StoredIn(o), o.cutoff, a, x) + AllSaid(o, es, a, x);
            Weight(all, Of(a, x)) == said && Weight(SortByTs(all), Of(a, x)) == said
  {
    StoredComesTo(StoredIn(o), o.cutoff, a, x);
    SpendsComeTo(o, es, a, x);
    WeightConcat(held, SpendsOf(o, es), Of(a, x));
    SortWeighs(held + SpendsOf(o, es), Of(a, x));
  }

  lemma EntryLegible(codec: Codec, o: Options, before: seq<Entry>, line: string)
    requires !Faulty(codec, o, line) && AllLegible(o, before)
    ensures !IsBlank(line) && codec.parse(line).Some? ==> AllLegible(o, before + [codec.parse(line).value])
  {
    BlankIs(line);
  }

  lemma {:induction false} EveryEntryLegible(codec: Codec, o: Options, lines: seq<string>)
    requires forall i | 0 <= i < |lines| :: !Faulty(codec, o, lines[i])
    ensures AllLegible(o, Entries(codec, lines))
  {
    if lines != [] {
      var n := |lines| - 1;
      assert forall i | 0 <= i < n :: lines[..n][i] == lines[i];
      EveryEntryLegible(codec, o, lines[..n]);
      EntryLegible(codec, o, Entries(codec, lines[..n]), lines[n]);
    }
  }

  /** Spends from before the window are counted as skipped, and whether there was any record is said. */
  function Older(o: Options, es: seq<Entry>): nat {
    if es == [] then 0
    else
      var e := es[|es| - 1];
      Older(o, es[..|es| - 1])
      + if (e.event.Signed? || e.event.VoucherSigned?) && e.ts.Num? && e.ts.n < o.cutoff then 1 else 0
  }

  lemma {:induction false} SkippedAreOlder(codec: Codec, o: Options, lines: seq<string>)
    ensures ContentOf(codec, o, lines).skipped == Older(o, Entries(codec, lines))
    ensures ChainOf(codec, o, lines).hasRecords <==> Entries(codec, lines) != []
  {
    if lines != [] { SkippedAreOlder(codec, o, lines[..|lines| - 1]); }
  }

  // ---- what is released ---------------------------------------------------------------------------------------

  /** A release that replay is to heed: of the window, after the checkpoint, and naming a transaction. */
  predicate Frees(o: Options, e: Entry, tx: string) {
    && e.event.SpendReleased? && e.ts.Num? && e.ts.n >= o.cutoff
    && (o.checkpoint.Some? ==> e.no.Num? && e.no.n > o.checkpoint.value.no)
    && e.tx == Str(tx) && |tx| == 64 && forall i | 0 <= i < 64 :: '0' <= tx[i] <= '9' || 'a' <= tx[i] <= 'f'
  }

  function TimesFreed(o: Options, es: seq<Entry>, tx: string): nat {
    if es == [] then 0 else TimesFreed(o, es[..|es| - 1], tx) + if Frees(o, es[|es| - 1], tx) then 1 else 0
  }

  /** A transaction is taken off the window as often as a record of it counts. */
  lemma {:induction false} ReleasedAsOften(o: Options, es: seq<Entry>, tx: string)
    ensures multiset(ReleasesOf(o, es))[tx] == TimesFreed(o, es, tx)
  {
    if es != [] {
      ReleasedAsOften(o, es[..|es| - 1], tx);
      assert Gives(o, es[|es| - 1]) ==> (Frees(o, es[|es| - 1], tx) <==> es[|es| - 1].tx.s == tx);
    }
  }

  // ---- what is said of the chain ------------------------------------------------------------------------------

  predicate IsRecord(codec: Codec, line: string) {
    (exists i :: 0 <= i < |line| && !IsSpace(line[i])) && codec.parse(line).Some?
  }

  /** The hash of the last record there is, empty before the first. */
  function HashOfLast(codec: Codec, lines: seq<string>): string {
    if lines == [] then ""
    else if IsRecord(codec, lines[|lines| - 1]) then codec.hash(lines[|lines| - 1])
    else HashOfLast(codec, lines[..|lines| - 1])
  }

  /** A numbered record that says which record it follows, and it is not the one before it. */
  predicate OutOfPlace(codec: Codec, lines: seq<string>, i: int)
    requires 0 <= i < |lines|
  {
    IsRecord(codec, lines[i])
    && var e := codec.parse(lines[i]).value;
       e.no.Num? && e.prev.Str? && e.prev.s != HashOfLast(codec, lines[..i])
  }

  predicate IsCheckpointed(codec: Codec, c: Checkpoint, line: string) {
    IsRecord(codec, line) && codec.parse(line).value.no == Num(c.no) && codec.hash(line) == c.hash
  }

  lemma ChainGoesOn(codec: Codec, o: Options, before: seq<string>, line: string)
    ensures var was, st := ChainOf(codec, o, before), ChainOf(codec, o, before + [line]);
            && st.lastHash == (if IsRecord(codec, line) then codec.hash(line) else was.lastHash)
            && (st.sawCheckpoint <==> was.sawCheckpoint
                                      || (o.checkpoint.Some? && IsCheckpointed(codec, o.checkpoint.value, line)))
            && st.brokenAt == (if was.brokenAt.None? && IsRecord(codec, line)
                                  && var e := codec.parse(line).value;
                                     e.no.Num? && e.prev.Str? && e.prev.s != was.lastHash
                               then Some(|before| + 1) else was.brokenAt)
  {
    assert (before + [line])[..|before|] == before;
    BlankIs(line);
  }

  /** The chain is reported as broken exactly where a record first does not follow the one before it. */
  lemma {:induction false} BrokenIsTheFirst(codec: Codec, o: Options, lines: seq<string>)
    ensures var at := ChainOf(codec, o, lines).brokenAt;
            && (at.None? <==> forall i | 0 <= i < |lines| :: !OutOfPlace(codec, lines, i))
            && (at.Some? ==> && 1 <= at.value <= |lines| && OutOfPlace(codec, lines, at.value - 1)
                             && forall i | 0 <= i < at.value - 1 :: !OutOfPlace(codec, lines, i))
    ensures ChainOf(codec, o, lines).lastHash == HashOfLast(codec, lines)
  {
    if lines != [] {
      var n := |lines| - 1;
      var before := lines[..n];
      BrokenIsTheFirst(codec, o, before);
      assert before + [lines[n]] == lines;
      ChainGoesOn(codec, o, before, lines[n]);
      forall i | 0 <= i < n ensures OutOfPlace(codec, lines, i) == OutOfPlace(codec, before, i) {
        assert before[..i] == lines[..i] && before[i] == lines[i];
      }
      var last := OutOfPlace(codec, lines, n);
      assert last ==> ChainOf(codec, o, lines).brokenAt.Some?;
    }
  }

  /** The checkpoint's record is seen exactly when it is one of the lines, or there is none to see. */
  lemma {:induction false} SeenExactly(codec: Codec, o: Options, lines: seq<string>)
    ensures ChainOf(codec, o, lines).sawCheckpoint
            <==> o.checkpoint.None? || o.checkpoint.value.no == 0
                 || exists i :: 0 <= i < |lines| && IsCheckpointed(codec, o.checkpoint.value, lines[i])
  {
    if lines != [] {
      var n := |lines| - 1;
      var before := lines[..n];
      SeenExactly(codec, o, before);
      assert before + [lines[n]] == lines;
      ChainGoesOn(codec, o, before, lines[n]);
      assert forall i | 0 <= i < n :: before[i] == lines[i];
    }
  }

  function LastNumber(es: seq<Entry>): int {
    if es == [] then 0 else if es[|es| - 1].no.Num? then es[|es| - 1].no.n else LastNumber(es[..|es| - 1])
  }

  /** Numbering goes on from the last number in the log, or the checkpoint's where that is higher. */
  lemma {:induction false} NumberedOn(codec: Codec, o: Options, lines: seq<string>)
    ensures ChainOf(codec, o, lines).lastSeq == LastNumber(Entries(codec, lines))
    ensures Replayed(codec, o, lines).Some? ==>
              var r, last := Replayed(codec, o, lines).value, LastNumber(Entries(codec, lines));
              r.lastSeq >= last && (r.lastSeq != last ==> o.checkpoint.Some? && r.lastSeq == o.checkpoint.value.no)
              && (o.checkpoint.Some? ==> r.lastSeq >= o.checkpoint.value.no)
  {
    if lines != [] {
      var before := Entries(codec, lines[..|lines| - 1]);
      NumberedOn(codec, o, lines[..|lines| - 1]);
      if Entries(codec, lines) != before {
        assert Entries(codec, lines)[..|before|] == before;
      }
    }
  }
}
