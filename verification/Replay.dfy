/**
 * Rebuilding the spend window from the checkpoint and the audit log: replay.ts. A log line is text;
 * what `JSON.parse` makes of it, how a record is printed and what SHA-256 answers are the parameters
 * of a Codec.
 */
module Replay {
  import opened Wrappers
  import opened Decimal
  import opened Policy
  import opened Text

  /** A JSON value, as far as replay tells values apart. Every number in these files is whole. */
  datatype Json = Undefined | Num(n: int) | Str(s: string) | Bool(b: bool) | Other

  /** The seven events that answer a queued approval. */
  datatype Terminal =
    | Approved | ApprovalDenied | ApprovalTimeout | ShutdownDenied
    | ApprovalSignError | ApprovalStale | PendingAbandoned

  /** The event names replay knows; any other text, or none, is one it passes over. */
  datatype Event = Pending | Answered(how: Terminal) | Signed | VoucherSigned | SpendReleased | AnyOther(name: string)

  /** A record of the log, or a spend in the checkpoint; `rest` is every field that replay never reads. */
  datatype Entry = Entry(
    ts: Json, no: Json, prev: Json, event: Event,
    id: Json, agentId: Json, reason: Json, asset: Json, amount: Json,
    voucher: Json, overhead: Json, tx: Json, ttlSlot: Json, overheadLovelace: Json,
    rest: string)

  const BLANK := Entry(Undefined, Undefined, Undefined, AnyOther(""), Undefined, Undefined, Undefined, Undefined,
                       Undefined,
                       Undefined, Undefined, Undefined, Undefined, Undefined, "")

  datatype Codec = Codec(parse: string -> Option<Entry>, write: Entry -> string, hash: string -> string)

  datatype Checkpoint = Checkpoint(no: int, hash: string, spends: seq<Entry>)

  datatype OpenApproval = OpenApproval(id: string, agentId: string, reason: Json)

  /** What replay is given besides the lines: the checkpoint, and the first instant inside the window. */
  datatype Options = Options(checkpoint: Option<Checkpoint>, cutoff: int)

  datatype Replay = Replay(
    spends: seq<SpendRecord>,
    openApprovals: seq<OpenApproval>,
    lastSeq: int,
    lastHash: string,
    skipped: nat,
    hasRecords: bool,
    chainBrokenAt: Option<nat>,
    malformedAt: Option<nat>,
    sawCheckpoint: bool)

  const MAX_SAFE_INTEGER: int := 0x1F_FFFF_FFFF_FFFF

  predicate IsTxHash(v: Json) {
    v.Str? && |v.s| == 64 && forall i | 0 <= i < 64 :: IsDigit(v.s[i]) || 'a' <= v.s[i] <= 'f'
  }

  predicate IsSlot(v: Json) {
    v.Num? && 0 <= v.n <= MAX_SAFE_INTEGER
  }

  predicate IsAmount(v: Json) {
    v.Str? && IsDecimal(v.s)
  }

  predicate IsName(v: Json) {
    v.Str? && v.s != ""
  }

  /** `String(v)` */
  function StringOf(v: Json): string {
    match v
    case Undefined => "undefined"
    case Num(n) => if n < 0 then "-" + ToDecimal(-n) else ToDecimal(n)
    case Str(s) => s
    case Bool(b) => if b then "true" else "false"
    case Other => "[object Object]"
  }

  function TxOf(e: Entry): Option<string> {
    if IsTxHash(e.tx) then Some(e.tx.s) else None
  }

  function SlotOf(e: Entry): Option<nat> {
    if IsSlot(e.ttlSlot) then Some(e.ttlSlot.n) else None
  }

  function ReadSpend(e: Entry, ts: int): Option<SpendRecord> {
    if !IsName(e.agentId) || !IsName(e.asset) || !IsAmount(e.amount) then None
    else
      var voucher := e.voucher == Bool(true);
      Some(SpendRecord(
             ts, e.agentId.s, e.asset.s, FromDecimal(e.amount.s), voucher,
             !voucher && e.overhead == Bool(true) && e.asset == Str(LOVELACE),
             if voucher then None else TxOf(e),
             if voucher then None else SlotOf(e)))
  }

  datatype Overhead = NoOverhead | Unreadable | OverheadOf(amount: nat)

  function ReadOverhead(e: Entry): Overhead {
    if e.overheadLovelace == Undefined then NoOverhead
    else if !IsAmount(e.overheadLovelace) then Unreadable
    else if FromDecimal(e.overheadLovelace.s) > 0 then OverheadOf(FromDecimal(e.overheadLovelace.s))
    else NoOverhead
  }

  /** What one spending record puts in the window, and whether some of it could not be read. */
  datatype Logged = Logged(records: seq<SpendRecord>, unreadable: bool)

  function ReadLogged(e: Entry): Logged
    requires e.ts.Num?
  {
    var spend := ReadSpend(e.(voucher := Bool(e.event.VoucherSigned?)), e.ts.n);
    if spend.None? then Logged([], true)
    else if !e.event.Signed? then Logged([spend.value], false)
    else
      match ReadOverhead(e)
      case NoOverhead => Logged([spend.value], false)
      case Unreadable => Logged([spend.value], true)
      case OverheadOf(amount) =>
        Logged([spend.value,
                SpendRecord(e.ts.n, spend.value.agentId, LOVELACE, amount, false, true, spend.value.tx,
                            spend.value.ttlSlot)],
               false)
  }

  // ---- the pass over the lines -----------------------------------------------------------------------

  /** What the loop carries about the chain: what each record says of its place in the log. */
  datatype Chain = Chain(lastSeq: int, lastHash: string, hasRecords: bool, brokenAt: Option<nat>, sawCheckpoint: bool)

  /**
   * What the loop carries about the content: the window, the approval queue, and the first line
   * that could not be read.
   */
  datatype Content = Content(
    after: seq<SpendRecord>,
    released: seq<string>,
    pendingSeen: seq<OpenApproval>,
    terminated: set<string>,
    skipped: nat,
    malformedAt: Option<nat>)

  function StartChain(o: Options): Chain {
    Chain(0, "", false, None, o.checkpoint.None? || o.checkpoint.value.no == 0)
  }

  const START_CONTENT := Content([], [], [], {}, 0, None)

  function FirstOf(at: Option<nat>, lineNo: nat): Option<nat> {
    if at.Some? then at else Some(lineNo)
  }

  /** `Map.set`: a known key keeps its place. */
  function PutApproval(seen: seq<OpenApproval>, a: OpenApproval): seq<OpenApproval> {
    if seen == [] then [a]
    else if seen[0].id == a.id then [a] + seen[1..]
    else [seen[0]] + PutApproval(seen[1..], a)
  }

  function ChainEntry(codec: Codec, o: Options, st: Chain, lineNo: nat, line: string, e: Entry): Chain {
    Chain(
      if e.no.Num? then e.no.n else st.lastSeq,
      codec.hash(line),
      true,
      if e.no.Num? && st.brokenAt.None? && e.prev.Str? && e.prev.s != st.lastHash then Some(lineNo) else st.brokenAt,
      st.sawCheckpoint || (o.checkpoint.Some? && e.no == Num(o.checkpoint.value.no)
                           && codec.hash(line) == o.checkpoint.value.hash))
  }

  /** Not in the checkpoint yet. A record without a number predates the chain, so the checkpoint has it. */
  predicate Unseen(o: Options, e: Entry) {
    o.checkpoint.None? || (e.no.Num? && e.no.n > o.checkpoint.value.no)
  }

  predicate Recent(o: Options, e: Entry) {
    e.ts.Num? && e.ts.n >= o.cutoff
  }

  function ContentEntry(o: Options, st: Content, lineNo: nat, e: Entry): Content {
    match e.event
    case Pending =>
      if Recent(o, e) then st.(pendingSeen :=
                               PutApproval(st.pendingSeen, OpenApproval(StringOf(e.id), StringOf(e.agentId), e.reason)))
                               else st
    case Answered(_) =>
      if Recent(o, e) then st.(terminated := st.terminated + {StringOf(e.id)}) else st
    case SpendReleased =>
      if Recent(o, e) && Unseen(o, e) && IsTxHash(e.tx) then st.(released := st.released + [e.tx.s]) else st
    case AnyOther(_) => st
    case _ =>
      if !e.ts.Num? then st
      else if e.ts.n < o.cutoff then st.(skipped := st.skipped + 1)
      else if Unseen(o, e) then
        var logged := ReadLogged(e);
        st.(after := st.after + logged.records,
            malformedAt := if logged.unreadable then FirstOf(st.malformedAt, lineNo) else st.malformedAt)
      else st
  }

  function ChainLine(codec: Codec, o: Options, st: Chain, lineNo: nat, line: string): Chain {
    if IsBlank(line) then st
    else match codec.parse(line)
      case None => st
      case Some(e) => ChainEntry(codec, o, st, lineNo, line, e)
  }

  function ContentLine(codec: Codec, o: Options, st: Content, lineNo: nat, line: string): Content {
    if IsBlank(line) then st
    else match codec.parse(line)
      case None => st.(malformedAt := FirstOf(st.malformedAt, lineNo))
      case Some(e) => ContentEntry(o, st, lineNo, e)
  }

  function ChainOf(codec: Codec, o: Options, lines: seq<string>): Chain {
    if lines == [] then StartChain(o)
    else ChainLine(codec, o, ChainOf(codec, o, lines[..|lines| - 1]), |lines|, lines[|lines| - 1])
  }

  function ContentOf(codec: Codec, o: Options, lines: seq<string>): Content {
    if lines == [] then START_CONTENT
    else ContentLine(codec, o, ContentOf(codec, o, lines[..|lines| - 1]), |lines|, lines[|lines| - 1])
  }

  // ---- what is made of it ----------------------------------------------------------------------------

  /** None when a spend of the checkpoint cannot be read, which replay throws on. */
  function CheckpointSpends(spends: seq<Entry>, cutoff: int): Option<seq<SpendRecord>> {
    if spends == [] then Some([])
    else
      var last := spends[|spends| - 1];
      match CheckpointSpends(spends[..|spends| - 1], cutoff)
      case None => None
      case Some(before) =>
        if !last.ts.Num? || ReadSpend(last, last.ts.n).None? then None
        else if last.ts.n >= cutoff then Some(before + [ReadSpend(last, last.ts.n).value])
        else Some(before)
  }

  /** `spends.findIndex(s => s.tx === tx && !s.voucher)`, the length when there is none. */
  function FindTx(spends: seq<SpendRecord>, tx: string): (i: nat)
    ensures i <= |spends|
    ensures i < |spends| ==> spends[i].tx == Some(tx) && !spends[i].voucher
    ensures forall j | 0 <= j < i :: !(spends[j].tx == Some(tx) && !spends[j].voucher)
  {
    if spends == [] || (spends[0].tx == Some(tx) && !spends[0].voucher) then 0 else 1 + FindTx(spends[1..], tx)
  }

  function RemoveAt<T>(xs: seq<T>, i: nat): (r: seq<T>)
    requires i < |xs|
    ensures |r| == |xs| - 1
  {
    xs[..i] + xs[i + 1..]
  }

  /** One release takes one spend, the first of that transaction. */
  function RemoveTx(spends: seq<SpendRecord>, tx: string): seq<SpendRecord> {
    if FindTx(spends, tx) < |spends| then RemoveAt(spends, FindTx(spends, tx)) else spends
  }

  function RemoveTxs(spends: seq<SpendRecord>, txs: seq<string>): seq<SpendRecord> {
    if txs == [] then spends else RemoveTx(RemoveTxs(spends, txs[..|txs| - 1]), txs[|txs| - 1])
  }

  predicate TimeSorted(xs: seq<SpendRecord>) {
    forall i, j | 0 <= i < j < |xs| :: xs[i].ts <= xs[j].ts
  }

  function InsertByTs(xs: seq<SpendRecord>, r: SpendRecord): (out: seq<SpendRecord>)
    ensures multiset(out) == multiset(xs) + multiset{r} && |out| == |xs| + 1
  {
    if xs == [] || xs[|xs| - 1].ts <= r.ts then xs + [r]
    else
      assert xs == xs[..|xs| - 1] + [xs[|xs| - 1]];
      InsertByTs(xs[..|xs| - 1], r) + [xs[|xs| - 1]]
  }

  /** `spends.sort((a, b) => a.ts - b.ts)`, which keeps the order of equal times. */
  function SortByTs(xs: seq<SpendRecord>): (out: seq<SpendRecord>)
    ensures multiset(out) == multiset(xs)
  {
    if xs == [] then []
    else
      assert xs == xs[..|xs| - 1] + [xs[|xs| - 1]];
      InsertByTs(SortByTs(xs[..|xs| - 1]), xs[|xs| - 1])
  }

  function StillOpen(seen: seq<OpenApproval>, terminated: set<string>): seq<OpenApproval> {
    if seen == [] then []
    else StillOpen(seen[..|seen| - 1], terminated)
         + (if seen[|seen| - 1].id !in terminated then [seen[|seen| - 1]] else [])
  }

  /** The spends of the window, None when the checkpoint cannot be read. */
  function Window(o: Options, st: Content): Option<seq<SpendRecord>> {
    var held := if o.checkpoint.Some? then CheckpointSpends(o.checkpoint.value.spends, o.cutoff) else Some([]);
    if held.None? then None else Some(SortByTs(RemoveTxs(held.value + st.after, st.released)))
  }

  function LastSeq(o: Options, st: Chain): int {
    if o.checkpoint.Some? && o.checkpoint.value.no > st.lastSeq then o.checkpoint.value.no else st.lastSeq
  }

  function Replayed(codec: Codec, o: Options, lines: seq<string>): Option<Replay> {
    var chain, content := ChainOf(codec, o, lines), ContentOf(codec, o, lines);
    match Window(o, content)
    case None => None
    case Some(spends) =>
      Some(Replay(spends, StillOpen(content.pendingSeen, content.terminated), LastSeq(o, chain), chain.lastHash,
                  content.skipped, chain.hasRecords, chain.brokenAt, content.malformedAt, chain.sawCheckpoint))
  }

  /**
   * `replayAudit`: the accumulators are updated line by line, then the checkpoint's spends go in
   * and the releases come out.
   */
  method ReplayAudit(codec: Codec, o: Options, lines: seq<string>) returns (out: Option<Replay>)
    ensures out == Replayed(codec, o, lines)
  {
    var chain, content := StartChain(o), START_CONTENT;
    var n := 0;
    while n < |lines|
      invariant n <= |lines|
      invariant chain == ChainOf(codec, o, lines[..n]) && content == ContentOf(codec, o, lines[..n])
    {
      assert lines[..n + 1][..n] == lines[..n];
      chain := ChainLine(codec, o, chain, n + 1, lines[n]);
      content := ContentLine(codec, o, content, n + 1, lines[n]);
      n := n + 1;
    }
    assert lines[..n] == lines;

    var held := [];
    if o.checkpoint.Some? {
      var stored := ReadCheckpoint(o.checkpoint.value, o.cutoff);
      if stored.None? { return None; }
      held := stored.value;
    }
    var spends := ApplyReleases(held + content.after, content.released);
    var open := OpenOnes(content.pendingSeen, content.terminated);
    out := Some(Replay(SortByTs(spends), open, LastSeq(o, chain), chain.lastHash,
                       content.skipped, chain.hasRecords, chain.brokenAt, content.malformedAt, chain.sawCheckpoint));
  }

  method ReadCheckpoint(c: Checkpoint, cutoff: int) returns (held: Option<seq<SpendRecord>>)
    ensures held == CheckpointSpends(c.spends, cutoff)
  {
    var spends: seq<SpendRecord> := [];
    var n := 0;
    while n < |c.spends|
      invariant n <= |c.spends|
      invariant CheckpointSpends(c.spends[..n], cutoff) == Some(spends)
    {
      var s := c.spends[n];
      assert c.spends[..n + 1][..n] == c.spends[..n];
      var spend := if s.ts.Num? then ReadSpend(s, s.ts.n) else None;
      if spend.None? {
        CheckpointSpendsPrefix(c.spends, n + 1, cutoff);
        return None;
      }
      if s.ts.n >= cutoff { spends := spends + [spend.value]; }
      n := n + 1;
    }
    assert c.spends[..n] == c.spends;
    held := Some(spends);
  }

  method ApplyReleases(all: seq<SpendRecord>, released: seq<string>) returns (spends: seq<SpendRecord>)
    ensures spends == RemoveTxs(all, released)
  {
    spends := all;
    var n := 0;
    while n < |released|
      invariant n <= |released|
      invariant spends == RemoveTxs(all, released[..n])
    {
      assert released[..n + 1][..n] == released[..n];
      var i := FindTx(spends, released[n]);
      if i < |spends| { spends := spends[..i] + spends[i + 1..]; }
      n := n + 1;
    }
    assert released[..n] == released;
  }

  method OpenOnes(seen: seq<OpenApproval>, terminated: set<string>) returns (open: seq<OpenApproval>)
    ensures open == StillOpen(seen, terminated)
  {
    open := [];
    var n := 0;
    while n < |seen|
      invariant n <= |seen|
      invariant open == StillOpen(seen[..n], terminated)
    {
      assert seen[..n + 1][..n] == seen[..n];
      if seen[n].id !in terminated { open := open + [seen[n]]; }
      n := n + 1;
    }
    assert seen[..n] == seen;
  }

  lemma {:induction false} CheckpointSpendsPrefix(stored: seq<Entry>, n: nat, cutoff: int)
    requires n <= |stored| && CheckpointSpends(stored[..n], cutoff).None?
    ensures CheckpointSpends(stored, cutoff).None?
    decreases |stored|
  {
    if n < |stored| {
      assert stored[..|stored| - 1][..n] == stored[..n];
      CheckpointSpendsPrefix(stored[..|stored| - 1], n, cutoff);
    } else {
      assert stored[..n] == stored;
    }
  }

  // ---- sorting and removing, as lists ----------------------------------------------------------------

  lemma {:induction false} SortKeepsSorted(xs: seq<SpendRecord>)
    requires TimeSorted(xs)
    ensures SortByTs(xs) == xs
  {
    if xs != [] {
      SortKeepsSorted(xs[..|xs| - 1]);
      assert xs == xs[..|xs| - 1] + [xs[|xs| - 1]];
    }
  }

  lemma {:induction false} InsertSorts(xs: seq<SpendRecord>, r: SpendRecord)
    requires TimeSorted(xs)
    ensures TimeSorted(InsertByTs(xs, r))
    ensures InsertByTs(xs, r)[|xs|].ts == if xs == [] || xs[|xs| - 1].ts <= r.ts then r.ts else xs[|xs| - 1].ts
  {
    if !(xs == [] || xs[|xs| - 1].ts <= r.ts) {
      InsertSorts(xs[..|xs| - 1], r);
    }
  }

  /** The window comes out in time order, and sorting loses and adds nothing (SortByTs says so itself). */
  lemma {:induction false} SortSorts(xs: seq<SpendRecord>)
    ensures TimeSorted(SortByTs(xs))
  {
    if xs != [] {
      SortSorts(xs[..|xs| - 1]);
      InsertSorts(SortByTs(xs[..|xs| - 1]), xs[|xs| - 1]);
    }
  }
}
