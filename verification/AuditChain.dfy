/**
 * Tamper evidence: what the hash chain of the audit log lets replay notice. A record of the log is a
 * line that is not blank.
 */
module AuditChain {
  import opened Wrappers
  import opened Policy
  import opened Replay
  import opened Text

  ghost predicate HashIsInjective(codec: Codec) {
    && (forall x, y | codec.hash(x) == codec.hash(y) :: x == y)
    && (forall x :: codec.hash(x) != "")
  }

  function Records(lines: seq<string>): seq<string> {
    if lines == [] then []
    else Records(lines[..|lines| - 1]) + (if IsBlank(lines[|lines| - 1]) then [] else [lines[|lines| - 1]])
  }

  /** What startup asks of a replay before it trusts the log (ALLOW_UNVERIFIED_AUDIT unset). */
  predicate Unbroken(codec: Codec, o: Options, lines: seq<string>) {
    ContentOf(codec, o, lines).malformedAt.None? && ChainOf(codec, o, lines).brokenAt.None?
  }

  /** Written by `audit`: every record carries its number and the hash of the record before it. */
  predicate FullyChained(codec: Codec, lines: seq<string>) {
    forall i | 0 <= i < |lines| && !IsBlank(lines[i]) ::
      var e := codec.parse(lines[i]); e.Some? && e.value.no.Num? && e.value.prev.Str?
  }

  predicate EndsAtCheckpoint(codec: Codec, c: Checkpoint, lines: seq<string>) {
    && lines != [] && !IsBlank(lines[|lines| - 1])
    && codec.hash(lines[|lines| - 1]) == c.hash
    && codec.parse(lines[|lines| - 1]).Some? && codec.parse(lines[|lines| - 1]).value.no == Num(c.no)
  }

  /** A fault once reported stays reported, so a log that passes has prefixes that pass. */
  lemma UnbrokenPrefix(codec: Codec, o: Options, lines: seq<string>)
    requires lines != [] && Unbroken(codec, o, lines)
    ensures Unbroken(codec, o, lines[..|lines| - 1])
    ensures !IsBlank(lines[|lines| - 1]) ==> codec.parse(lines[|lines| - 1]).Some?
  {
  }

  lemma {:induction false} UnbrokenUpTo(codec: Codec, o: Options, lines: seq<string>, n: nat)
    requires n <= |lines| && Unbroken(codec, o, lines)
    ensures Unbroken(codec, o, lines[..n])
    decreases |lines|
  {
    if n == |lines| {
      assert lines[..n] == lines;
    } else {
      UnbrokenPrefix(codec, o, lines);
      UnbrokenUpTo(codec, o, lines[..|lines| - 1], n);
      assert lines[..|lines| - 1][..n] == lines[..n];
    }
  }

  lemma {:induction false} LastHashOfRecords(codec: Codec, o: Options, lines: seq<string>)
    requires Unbroken(codec, o, lines)
    ensures var records := Records(lines);
            ChainOf(codec, o, lines).lastHash == if records == [] then "" else codec.hash(records[|records| - 1])
  {
    if lines != [] {
      UnbrokenPrefix(codec, o, lines);
      LastHashOfRecords(codec, o, lines[..|lines| - 1]);
    }
  }

  /**
   * Two unbroken logs that end on one hash hold the same records, provided one of them is chained
   * throughout: the hash gives the last record, that record's `prev` the hash of the one before it,
   * and so on to the record whose `prev` is empty, which only the first can be.
   */
  lemma {:induction false} SameHashSameRecords(codec: Codec, o1: Options, l1: seq<string>, o2: Options, l2: seq<string>)
    requires HashIsInjective(codec)
    requires Unbroken(codec, o1, l1) && Unbroken(codec, o2, l2) && FullyChained(codec, l1)
    requires ChainOf(codec, o1, l1).lastHash == ChainOf(codec, o2, l2).lastHash
    ensures Records(l1) == Records(l2)
    decreases |l1| + |l2|
  {
    LastHashOfRecords(codec, o1, l1);
    LastHashOfRecords(codec, o2, l2);
    if l1 != [] && IsBlank(l1[|l1| - 1]) {
      UnbrokenPrefix(codec, o1, l1);
      SameHashSameRecords(codec, o1, l1[..|l1| - 1], o2, l2);
    } else if l2 != [] && IsBlank(l2[|l2| - 1]) {
      UnbrokenPrefix(codec, o2, l2);
      SameHashSameRecords(codec, o1, l1, o2, l2[..|l2| - 1]);
    } else if l1 != [] && l2 != [] {
      assert l1[|l1| - 1] == l2[|l2| - 1];
      UnbrokenPrefix(codec, o1, l1);
      UnbrokenPrefix(codec, o2, l2);
      SameHashSameRecords(codec, o1, l1[..|l1| - 1], o2, l2[..|l2| - 1]);
    }
  }

  /** Seeing the checkpoint means a record of the log is the one it was written against. */
  lemma {:induction false} SeenIsPresent(codec: Codec, o: Options, lines: seq<string>) returns (n: nat)
    requires o.checkpoint.Some? && o.checkpoint.value.no != 0
    requires Unbroken(codec, o, lines) && ChainOf(codec, o, lines).sawCheckpoint
    ensures n <= |lines| && EndsAtCheckpoint(codec, o.checkpoint.value, lines[..n])
  {
    var before := lines[..|lines| - 1];
    UnbrokenPrefix(codec, o, lines);
    if ChainOf(codec, o, before).sawCheckpoint {
      n := SeenIsPresent(codec, o, before);
      assert before[..n] == lines[..n];
    } else {
      n := |lines|;
      assert lines[..n] == lines;
    }
  }

  /** Wherever a log names the checkpoint's record, it agrees with the daemon's own log up to there. */
  lemma AgreeUpTo(codec: Codec, c: Checkpoint, o1: Options, l1: seq<string>, n1: nat, o2: Options, l2: seq<string>,
                  n2: nat)
    requires HashIsInjective(codec) && FullyChained(codec, l1)
    requires Unbroken(codec, o1, l1) && n1 <= |l1| && EndsAtCheckpoint(codec, c, l1[..n1])
    requires Unbroken(codec, o2, l2) && n2 <= |l2| && EndsAtCheckpoint(codec, c, l2[..n2])
    ensures Records(l1[..n1]) == Records(l2[..n2])
  {
    UnbrokenUpTo(codec, o1, l1, n1);
    UnbrokenUpTo(codec, o2, l2, n2);
    LastHashOfRecords(codec, o1, l1[..n1]);
    LastHashOfRecords(codec, o2, l2[..n2]);
    SameHashSameRecords(codec, o1, l1[..n1], o2, l2[..n2]);
  }

  /**
   * Tamper evidence. `l1` is a log as the daemon writes it and `l2` any log at all. If both replay
   * without a fault against the same checkpoint, each holds the record that checkpoint names and they
   * agree record for record up to it (AgreeUpTo says so of every place it stands). Nothing before it
   * can have been edited, removed, added or reordered unreported.
   */
  lemma TamperEvidence(codec: Codec, c: Checkpoint, o1: Options, l1: seq<string>, o2: Options,
                       l2: seq<string>) returns (n1: nat, n2: nat)
    requires HashIsInjective(codec) && c.no != 0 && o1.checkpoint == Some(c) && o2.checkpoint == Some(c)
    requires FullyChained(codec, l1)
    requires Unbroken(codec, o1, l1) && ChainOf(codec, o1, l1).sawCheckpoint
    requires Unbroken(codec, o2, l2) && ChainOf(codec, o2, l2).sawCheckpoint
    ensures n1 <= |l1| && EndsAtCheckpoint(codec, c, l1[..n1])
    ensures n2 <= |l2| && EndsAtCheckpoint(codec, c, l2[..n2])
    ensures Records(l1[..n1]) == Records(l2[..n2])
  {
    n1 := SeenIsPresent(codec, o1, l1);
    n2 := SeenIsPresent(codec, o2, l2);
    AgreeUpTo(codec, c, o1, l1, n1, o2, l2, n2);
  }
}
