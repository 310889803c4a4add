/**
 * Which signed payments can never land: expiry.ts. A pass reads the chain's tip, takes the spends the
 * chain has moved past, asks the provider about at most `max` of them and sorts what came back. The
 * provider's answers are parameters.
 */
module Expiry {
  import opened Wrappers
  import opened Arithmetic
  import opened Policy
  import opened Replay
  import opened Text

  /** `landing`: the hash when it is well formed, the slot when a JSON number holds it exactly. */
  function Landing(txHash: string, ttlSlot: Option<int>): (r: (Option<string>, Option<nat>))
    ensures r.0 == if IsTxHash(Str(ToLower(txHash))) then Some(ToLower(txHash)) else None
    ensures r.1.Some? <==> ttlSlot.Some? && 0 <= ttlSlot.value <= 0x1F_FFFF_FFFF_FFFF
    ensures r.1.Some? ==> IsSlot(Num(r.1.value)) && Some(r.1.value) == ttlSlot
  {
    (if IsTxHash(Str(ToLower(txHash))) then Some(ToLower(txHash)) else None,
     if ttlSlot.Some? && 0 <= ttlSlot.value <= MAX_SAFE_INTEGER then Some(ttlSlot.value) else None)
  }

  predicate Lookupable(s: SpendRecord) {
    !s.voucher && s.tx.Some? && IsTxHash(Str(s.tx.value)) && s.ttlSlot.Some? && IsSlot(Num(s.ttlSlot.value))
  }

  predicate IsDue(s: SpendRecord, tip: int, margin: nat, settled: set<string>) {
    Lookupable(s) && s.tx.value !in settled && tip > s.ttlSlot.value + margin
  }

  function Due(spends: seq<SpendRecord>, tip: int, margin: nat, settled: set<string>): (due: seq<SpendRecord>)
    ensures forall s :: s in due <==> s in spends && IsDue(s, tip, margin, settled)
  {
    if spends == [] then []
    else (if IsDue(spends[0], tip, margin, settled) then [spends[0]] else []) + Due(spends[1..], tip, margin, settled)
  }

  /** `round` rotates which `max` are asked about when there are more. */
  function Asked(due: seq<SpendRecord>, max: nat, round: nat): (asked: seq<SpendRecord>)
    ensures |asked| <= max
    ensures forall s | s in asked :: s in due
  {
    if |due| > max then
      var start := (round * max) % |due|;
      (due[start..] + due[..start])[..max]
    else due
  }

  /** `[...new Set(asked.map(s => s.tx))]` */
  function TxsOf(asked: seq<SpendRecord>): (txs: seq<string>)
    ensures |txs| <= |asked|
    ensures forall i, j | 0 <= i < j < |txs| :: txs[i] != txs[j]
    ensures forall tx :: tx in txs <==> exists i :: 0 <= i < |asked| && asked[i].tx == Some(tx)
  {
    if asked == [] then []
    else
      var last := asked[|asked| - 1];
      var before := TxsOf(asked[..|asked| - 1]);
      assert asked == asked[..|asked| - 1] + [last];
      if last.tx.Some? && last.tx.value !in before then before + [last.tx.value] else before
  }

  predicate Denied(answers: map<string, bool>, tx: string) {
    tx in answers && !answers[tx]
  }

  predicate IsAbsent(s: SpendRecord, txs: seq<string>, answers: map<string, bool>) {
    s.tx.Some? && s.tx.value in txs && Denied(answers, s.tx.value)
  }

  function Absent(due: seq<SpendRecord>, txs: seq<string>, answers: map<string, bool>): (absent: seq<SpendRecord>)
    ensures forall s :: s in absent <==> s in due && IsAbsent(s, txs, answers)
  {
    if due == [] then []
    else (if IsAbsent(due[0], txs, answers) then [due[0]] else []) + Absent(due[1..], txs, answers)
  }

  function Landed(txs: seq<string>, answers: map<string, bool>): (landed: seq<string>)
    ensures forall tx :: tx in landed <==> tx in txs && tx in answers && answers[tx]
  {
    if txs == [] then []
    else (if txs[0] in answers && answers[txs[0]] then [txs[0]] else []) + Landed(txs[1..], answers)
  }

  datatype Reconciled = Reconciled(onChain: seq<string>, absent: seq<SpendRecord>)

  /** What one pass asks and how the limit and the rotation are set. */
  datatype Pass = Pass(margin: nat, settled: set<string>, max: nat, round: nat)

  /** The transactions one pass asks the provider about. */
  function Question(spends: seq<SpendRecord>, tip: int, p: Pass): seq<string> {
    TxsOf(Asked(Due(spends, tip, p.margin, p.settled), p.max, p.round))
  }

  /** `reconcile`, given the tip and what the provider answered; a tip that cannot be read releases nothing. */
  function Reconcile(spends: seq<SpendRecord>, tip: int, answers: map<string, bool>, p: Pass): Reconciled {
    var due := Due(spends, tip, p.margin, p.settled);
    var txs := Question(spends, tip, p);
    Reconciled(Landed(txs, answers), Absent(due, txs, answers))
  }

  // ---- the rotation ----------------------------------------------------------------------------------

  lemma RotatedAt(due: seq<SpendRecord>, start: nat, k: nat)
    requires start < |due| && k < |due|
    ensures (due[start..] + due[..start])[k] == due[(start + k) % |due|]
  {
    if start + k < |due| {
      DivModUnique(start + k, 0, start + k, |due|);
    } else {
      DivModUnique(start + k, 1, start + k - |due|, |due|);
    }
  }

  lemma AskedAt(due: seq<SpendRecord>, max: nat, round: nat, k: nat)
    requires |due| > max && k < max
    ensures due[(round * max + k) % |due|] == Asked(due, max, round)[k]
  {
    var start := (round * max) % |due|;
    ModAdd(round * max, k, |due|);
    RotatedAt(due, start, k);
  }

  /** The least number of passes of `max` that cover n. */
  function Passes(n: nat, max: nat): nat
    requires max > 0
  {
    (n + max - 1) / max
  }

  lemma PassesCover(n: nat, max: nat, t: nat, k: nat)
    requires max > 0 && k < max && t * max + k < n
    ensures t < Passes(n, max)
  {
    var p := Passes(n, max);
    assert n + max - 1 == p * max + (n + max - 1) % max;
    assert (t + 1) * max == t * max + max && (p + 1) * max == p * max + max;
    MulCancels(t + 1, p + 1, max);
  }

  /** Where a pass `t` rounds on looks, for the spend `d` places past where this one starts. */
  lemma PlaceInPass(n: nat, max: nat, round: nat, d: nat, t: nat, k: nat)
    requires n > 0 && d == t * max + k
    ensures ((round + t) * max + k) % n == ((round * max) % n + d) % n
  {
    assert (round + t) * max == round * max + t * max;
    ModAdd(round * max, d, n);
  }

  /** How far past `start`, going round, the j-th of n places is. */
  lemma StepsTo(n: nat, start: nat, j: nat) returns (d: nat)
    requires start < n && j < n
    ensures d < n && (start + d) % n == j
  {
    d := if j >= start then j - start else j + n - start;
    DivModUnique(start + d, if j >= start then 0 else 1, j, n);
  }

  /** The pass that asks about the j-th spend, and its place in that pass. */
  lemma PassFor(n: nat, max: nat, round: nat, j: nat) returns (t: nat, k: nat)
    requires n > max > 0 && j < n
    ensures t < Passes(n, max) && k < max && ((round + t) * max + k) % n == j
  {
    var d := StepsTo(n, (round * max) % n, j);
    t, k := d / max, d % max;
    PassesCover(n, max, t, k);
    PlaceInPass(n, max, round, d, t, k);
  }

  /**
   * While the due list stands as it is, every spend on it is asked about within ceil(n / max)
   * consecutive passes, whichever pass the count starts at, and no pass asks about more than `max`
   * transactions or about one of them twice (TxsOf, Asked).
   */
  lemma RotationReachesAll(due: seq<SpendRecord>, max: nat, round: nat, j: nat) returns (t: nat)
    requires max > 0 && j < |due| && due[j].tx.Some?
    ensures t < Passes(|due|, max)
    ensures due[j] in Asked(due, max, round + t) && due[j].tx.value in TxsOf(Asked(due, max, round + t))
    ensures |TxsOf(Asked(due, max, round + t))| <= max
  {
    if |due| > max {
      var k;
      t, k := PassFor(|due|, max, round, j);
      AskedAt(due, max, round + t, k);
      assert Asked(due, max, round + t)[k] == due[j];
    } else {
      t := 0;
      PassesCover(|due|, max, 0, 0);
      assert Asked(due, max, round)[j] == due[j];
    }
  }

  // ---- what comes back -------------------------------------------------------------------------------

  /** A payment's spend the chain has moved past: 64 hex digits name its transaction, and its slot is long gone. */
  predicate PastItsSlot(s: SpendRecord, tip: int, margin: nat, settled: set<string>) {
    && !s.voucher && s.tx.Some? && s.ttlSlot.Some?
    && |s.tx.value| == 64 && (forall i | 0 <= i < 64 :: '0' <= s.tx.value[i] <= '9' || 'a' <= s.tx.value[i] <= 'f')
    && s.ttlSlot.value < 0x20_0000_0000_0000 && tip > s.ttlSlot.value + margin && s.tx.value !in settled
  }

  lemma {:induction false} DueAsOften(spends: seq<SpendRecord>, tip: int, margin: nat, settled: set<string>,
                                      s: SpendRecord)
    ensures multiset(Due(spends, tip, margin, settled))[s]
         == if PastItsSlot(s, tip, margin, settled) then multiset(spends)[s] else 0
  {
    if spends != [] {
      DueAsOften(spends[1..], tip, margin, settled, s);
      assert spends == [spends[0]] + spends[1..];
    }
  }

  lemma {:induction false} AbsentAsOften(due: seq<SpendRecord>, txs: seq<string>, answers: map<string, bool>,
                                         s: SpendRecord)
    ensures multiset(Absent(due, txs, answers))[s] == if IsAbsent(s, txs, answers) then multiset(due)[s] else 0
  {
    if due != [] {
      AbsentAsOften(due[1..], txs, answers, s);
      assert due == [due[0]] + due[1..];
    }
  }

  /**
   * A pass gives back exactly the spends the chain has moved past whose transaction it asked about and
   * was told is not there, each as often as the ledger has it; and calls on chain exactly the
   * transactions it asked about and was told are.
   */
  lemma ComesBackExactly(spends: seq<SpendRecord>, tip: int, answers: map<string, bool>, p: Pass, s: SpendRecord,
                         tx: string)
    ensures multiset(Reconcile(spends, tip, answers, p).absent)[s]
         == if && PastItsSlot(s, tip, p.margin, p.settled)
               && s.tx.value in Question(spends, tip, p) && s.tx.value in answers && !answers[s.tx.value]
            then multiset(spends)[s] else 0
    ensures tx in Reconcile(spends, tip, answers, p).onChain
       <==> tx in Question(spends, tip, p) && tx in answers && answers[tx]
  {
    DueAsOften(spends, tip, p.margin, p.settled, s);
    AbsentAsOften(Due(spends, tip, p.margin, p.settled), Question(spends, tip, p), answers, s);
  }

  /**
   * It asks about no transaction but of such a spend, about at most `max`, and where no more are
   * due about every one.
   */
  lemma AsksAbout(spends: seq<SpendRecord>, tip: int, p: Pass, tx: string)
    ensures tx in Question(spends, tip, p)
            ==> exists s :: s in spends && PastItsSlot(s, tip, p.margin, p.settled) && s.tx == Some(tx)
    ensures |Question(spends, tip, p)| <= p.max
    ensures |Due(spends, tip, p.margin, p.settled)| <= p.max ==>
              forall s | s in spends && PastItsSlot(s, tip, p.margin, p.settled) ::
                s.tx.value in Question(spends, tip, p)
  {
    var due := Due(spends, tip, p.margin, p.settled);
    var asked := Asked(due, p.max, p.round);
    if tx in Question(spends, tip, p) {
      var i :| 0 <= i < |asked| && asked[i].tx == Some(tx);
      assert asked[i] in due && PastItsSlot(asked[i], tip, p.margin, p.settled);
    }
    forall s | s in spends && PastItsSlot(s, tip, p.margin, p.settled) && |due| <= p.max
      ensures s.tx.value in Question(spends, tip, p)
    {
      assert s in due && due == asked;
      var i :| 0 <= i < |due| && due[i] == s;
      assert asked[i].tx == Some(s.tx.value);
    }
  }

  lemma PlaceAmongDue(spends: seq<SpendRecord>, tip: int, margin: nat, settled: set<string>,
                      s: SpendRecord) returns (j: nat)
    requires s in spends && PastItsSlot(s, tip, margin, settled)
    ensures j < |Due(spends, tip, margin, settled)| && Due(spends, tip, margin, settled)[j] == s
  {
    var due := Due(spends, tip, margin, settled);
    assert s in due;
    j :| 0 <= j < |due| && due[j] == s;
  }

  /** And where more are due, about each within ceil(n / max) passes over the same ledger. */
  lemma EachIsReached(spends: seq<SpendRecord>, tip: int, p: Pass, s: SpendRecord) returns (t: nat)
    requires p.max > 0 && s in spends && PastItsSlot(s, tip, p.margin, p.settled)
    ensures t < Passes(|Due(spends, tip, p.margin, p.settled)|, p.max)
    ensures s.tx.value in Question(spends, tip, p.(round := p.round + t))
  {
    var j := PlaceAmongDue(spends, tip, p.margin, p.settled, s);
    t := RotationReachesAll(Due(spends, tip, p.margin, p.settled), p.max, p.round, j);
  }

  /**
   * A payment and its overhead get one answer: of two spends of one transaction, with the one slot it
   * has, a pass gives back both or neither, wherever its limit fell between them.
   */
  lemma PairsAreNotSplit(spends: seq<SpendRecord>, tip: int, answers: map<string, bool>, p: Pass, s: SpendRecord,
                         other: SpendRecord)
    requires s in spends && other in spends && !s.voucher && !other.voucher && s.tx == other.tx
             && s.ttlSlot == other.ttlSlot
    ensures s in Reconcile(spends, tip, answers, p).absent <==> other in Reconcile(spends, tip, answers, p).absent
  {
  }

  // ---- the chain -------------------------------------------------------------------------------------

  /** The slot of the block a transaction is ever put in, if it ever is. */
  type World = string -> Option<int>

  /** The ledger rule: no block past a transaction's TTL holds it. */
  predicate TtlHolds(world: World, r: SpendRecord) {
    r.tx.Some? && r.ttlSlot.Some? && world(r.tx.value).Some? ==> world(r.tx.value).value <= r.ttlSlot.value
  }

  /**
   * A definite "no" is true of every block up to the margin before the tip the provider reported: it
   * may lag its own tip, or see a block rolled back, by as much as the margin.
   */
  ghost predicate Honest(world: World, tip: int, margin: nat, answers: map<string, bool>) {
    forall tx | Denied(answers, tx) :: world(tx).Some? ==> world(tx).value > tip - margin
  }

  /** What one pass calls absent is never in a block: not yet, and not later. */
  lemma AbsentNeverLands(world: World, spends: seq<SpendRecord>, tip: int, answers: map<string, bool>, p: Pass,
                         s: SpendRecord)
    requires Honest(world, tip, p.margin, answers)
    requires s in Reconcile(spends, tip, answers, p).absent && TtlHolds(world, s)
    ensures s in spends && Lookupable(s) && world(s.tx.value).None?
  {
  }
}
