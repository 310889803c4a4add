/** What a start does with a log that is not the daemon's own: it is refused, or it agrees up to the checkpoint. */
module Tampering {
  import opened Wrappers
  import opened Text
  import opened Policy
  import opened Replay
  import opened LogView
  import opened CheckpointIndependence
  import opened AuditChain
  import opened AuditFile
  import opened Journal
  import opened ReplayReads

  /**
   * A start goes on from a log exactly when every spend of the checkpoint can be read, every line is
   * blank or a record, every spend to count can be read, every record follows the one before it as it
   * says, and the checkpoint's record is there.
   */
  lemma AcceptsExactly(codec: Codec, o: Options, lines: seq<string>)
    ensures Accepts(Replayed(codec, o, lines))
            <==>
            && (forall i | 0 <= i < |StoredIn(o)| :: Stored(StoredIn(o)[i]))
            && (forall i | 0 <= i < |lines| :: !Faulty(codec, o, lines[i]) && !OutOfPlace(codec, lines, i))
            && (o.checkpoint.None? || o.checkpoint.value.no == 0
                || exists i :: 0 <= i < |lines| && IsCheckpointed(codec, o.checkpoint.value, lines[i]))
  {
    RefusesExactly(codec, o, lines);
    MalformedIsTheFirst(codec, o, lines);
    BrokenIsTheFirst(codec, o, lines);
    SeenExactly(codec, o, lines);
    AcceptsAre(codec, o, lines);
  }

  lemma AcceptsAre(codec: Codec, o: Options, lines: seq<string>)
    ensures Accepts(Replayed(codec, o, lines))
            <==> Replayed(codec, o, lines).Some? && Unbroken(codec, o, lines) && ChainOf(codec, o, lines).sawCheckpoint
  {
    assert Replayed(codec, o, lines).Some? <==> Window(o, ContentOf(codec, o, lines)).Some?;
  }

  lemma {:induction false} WrittenAt(codec: Codec, log: seq<Entry>, n: nat)
    requires n <= |log|
    ensures |Written(codec, log)| == |log| && Written(codec, log)[..n] == Written(codec, log[..n])
    ensures n < |log| ==> Written(codec, log)[n] == codec.write(log[n])
  {
    if n == |log| {
      assert log[..n] == log;
      if n > 0 { WrittenAt(codec, log[..n - 1], n - 1); }
      assert Written(codec, log)[..n] == Written(codec, log);
    } else {
      var before := log[..|log| - 1];
      WrittenAt(codec, before, n);
      assert before[..n] == log[..n];
    }
  }

  lemma {:induction false} RecordsWritten(codec: Codec, log: seq<Entry>)
    requires forall i | 0 <= i < |log| :: Printable(codec, log[i])
    ensures Records(Written(codec, log)) == Written(codec, log)
  {
    if log != [] {
      var before, lines := log[..|log| - 1], Written(codec, log);
      RecordsWritten(codec, before);
      assert Printable(codec, log[|log| - 1]);
      assert lines[..|lines| - 1] == Written(codec, before);
    }
  }

  lemma AllPrint(codec: Codec, log: seq<Entry>)
    requires Chained(codec, log)
    ensures forall i | 0 <= i < |log| :: Printable(codec, log[i]) && log[i].no == Num(i + 1) && log[i].prev.Str?
  {
    forall i | 0 <= i < |log| ensures Printable(codec, log[i]) && log[i].no == Num(i + 1) && log[i].prev.Str? {
      assert InPlace(codec, log[..i], log[i]);
    }
  }

  lemma OwnLogIsChained(codec: Codec, log: seq<Entry>)
    requires Chained(codec, log)
    ensures FullyChained(codec, Written(codec, log))
  {
    AllPrint(codec, log);
    WrittenAt(codec, log, |log|);
    forall i | 0 <= i < |log| ensures codec.parse(Written(codec, log)[i]) == Some(log[i]) {
      WrittenAt(codec, log, i);
      assert Printable(codec, log[i]);
    }
  }

  lemma OwnLogPasses(codec: Codec, d: Disk, cutoff: int)
    requires Kept(codec, d) && d.saved.Some? && d.saved.value.no > 0
    ensures var o, lines := OptionsOf(d, cutoff), Written(codec, d.log);
            Unbroken(codec, o, lines) && ChainOf(codec, o, lines).sawCheckpoint
  {
    var o := OptionsOf(d, cutoff);
    ChainReplays(codec, o, d.log);
    assert Reached(codec, o, d.log);
  }

  lemma EndsThere(codec: Codec, c: Checkpoint, log: seq<Entry>, n: nat)
    requires Chained(codec, log) && n <= |Written(codec, log)| && 0 < c.no
    requires EndsAtCheckpoint(codec, c, Written(codec, log)[..n])
    ensures n == c.no <= |log| && Records(Written(codec, log)[..n]) == Written(codec, log[..c.no])
  {
    AllPrint(codec, log);
    WrittenAt(codec, log, |log|);
    WrittenAt(codec, log, n);
    WrittenAt(codec, log, n - 1);
    assert Printable(codec, log[n - 1]) by { assert InPlace(codec, log[..n - 1], log[n - 1]); }
    RecordsWritten(codec, log[..n]);
  }

  /** A log that passes against the daemon's checkpoint agrees with the daemon's own log up to there. */
  lemma PassingAgrees(codec: Codec, o: Options, log: seq<Entry>, lines: seq<string>) returns (n: nat)
    requires HashIsInjective(codec) && Chained(codec, log) && o.checkpoint.Some? && o.checkpoint.value.no > 0
    requires Unbroken(codec, o, Written(codec, log)) && ChainOf(codec, o, Written(codec, log)).sawCheckpoint
    requires Unbroken(codec, o, lines) && ChainOf(codec, o, lines).sawCheckpoint
    ensures n <= |lines| && o.checkpoint.value.no <= |log|
    ensures Records(lines[..n]) == Written(codec, log[..o.checkpoint.value.no])
  {
    var c := o.checkpoint.value;
    OwnLogIsChained(codec, log);
    var m;
    m, n := TamperEvidence(codec, c, o, Written(codec, log), o, lines);
    EndsThere(codec, c, log, m);
  }

  /**
   * Put any file at all in place of the audit log. A start either refuses it, or the file holds, up to
   * some place, exactly the records the daemon had written up to its checkpoint, in order and unchanged.
   */
  lemma TamperedStartIsCaught(codec: Codec, d: Disk, file: string, cutoff: int) returns (n: nat)
    requires HashIsInjective(codec) && Kept(codec, d) && d.saved.Some? && d.saved.value.no > 0
    requires Accepts(Replayed(codec, OptionsOf(d, cutoff), Lines(Repaired(file))))
    ensures var lines := Lines(Repaired(file));
            n <= |lines| && Records(lines[..n]) == Written(codec, d.log[..d.saved.value.no])
  {
    var o, lines := OptionsOf(d, cutoff), Lines(Repaired(file));
    OwnLogPasses(codec, d, cutoff);
    AcceptsAre(codec, o, lines);
    n := PassingAgrees(codec, o, d.log, lines);
  }
}
