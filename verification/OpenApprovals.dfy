/** The approvals replay finds open, for any log at all: asked inside the window, and not answered there. */
module OpenApprovals {
  import opened Wrappers
  import opened Policy
  import opened Replay
  import opened LogView

  predicate DistinctIds(seen: seq<OpenApproval>) {
    forall i, j | 0 <= i < j < |seen| :: seen[i].id != seen[j].id
  }

  lemma {:induction false} StillOpenIs(seen: seq<OpenApproval>, done: set<string>)
    ensures forall a :: a in StillOpen(seen, done) <==> a in seen && a.id !in done
    ensures DistinctIds(seen) ==> DistinctIds(StillOpen(seen, done))
  {
    if seen != [] {
      StillOpenIs(seen[..|seen| - 1], done);
      assert seen == seen[..|seen| - 1] + [seen[|seen| - 1]];
    }
  }

  predicate AsksFor(o: Options, e: Entry, id: string) {
    e.event.Pending? && e.ts.Num? && e.ts.n >= o.cutoff && StringOf(e.id) == id
  }

  predicate Settles(o: Options, e: Entry, id: string) {
    e.event.Answered? && e.ts.Num? && e.ts.n >= o.cutoff && StringOf(e.id) == id
  }

  /** The record that asks for it last says whose it is and why. */
  predicate AsksLast(o: Options, es: seq<Entry>, i: int, a: OpenApproval) {
    && 0 <= i < |es| && AsksFor(o, es[i], a.id) && (forall j | i < j < |es| :: !AsksFor(o, es[j], a.id))
    && a.agentId == StringOf(es[i].agentId) && a.reason == es[i].reason
  }

  lemma {:induction false} PutHas(seen: seq<OpenApproval>, a: OpenApproval)
    requires DistinctIds(seen)
    ensures DistinctIds(PutApproval(seen, a))
    ensures forall x :: x in PutApproval(seen, a) <==> x == a || (x in seen && x.id != a.id)
  {
    if seen != [] {
      assert seen == [seen[0]] + seen[1..];
      PutHas(seen[1..], a);
    }
  }

  lemma {:induction false} PendingAre(o: Options, es: seq<Entry>)
    ensures DistinctIds(PendingOf(o, es))
    ensures forall a :: a in PendingOf(o, es) <==> exists i :: AsksLast(o, es, i, a)
  {
    if es != [] {
      var n := |es| - 1;
      var before, e := es[..n], es[n];
      PendingAre(o, before);
      var put := OpenApproval(StringOf(e.id), StringOf(e.agentId), e.reason);
      PutHas(PendingOf(o, before), put);
      forall a ensures a in PendingOf(o, es) <==> exists i :: AsksLast(o, es, i, a) {
        OneMore(o, before, e, a);
        assert before + [e] == es;
      }
    }
  }

  /** One record more is the last to ask for what it asks for, and leaves the rest. */
  lemma OneMore(o: Options, before: seq<Entry>, e: Entry, a: OpenApproval)
    ensures (exists i :: AsksLast(o, before + [e], i, a))
       <==> if AsksFor(o, e, a.id) then a == OpenApproval(StringOf(e.id), StringOf(e.agentId), e.reason)
            else exists i :: AsksLast(o, before, i, a)
  {
    var es := before + [e];
    assert forall i | 0 <= i < |before| :: es[i] == before[i];
    if AsksFor(o, e, a.id) {
      assert es[|before|] == e;
      if a == OpenApproval(StringOf(e.id), StringOf(e.agentId), e.reason) { assert AsksLast(o, es, |before|, a); }
    } else {
      if i :| AsksLast(o, before, i, a) { assert AsksLast(o, es, i, a); }
      if i :| AsksLast(o, es, i, a) { assert AsksLast(o, before, i, a); }
    }
  }

  lemma AnsweredIs(o: Options, es: seq<Entry>, id: string)
    ensures id in AnsweredOf(o, es) <==> exists i :: 0 <= i < |es| && Settles(o, es[i], id)
  {
  }

  lemma OpenIsOfEntries(codec: Codec, o: Options, lines: seq<string>, r: Replay)
    requires Replayed(codec, o, lines) == Some(r)
    ensures var es := Entries(codec, lines); r.openApprovals == StillOpen(PendingOf(o, es), AnsweredOf(o, es))
  {
    ContentIsOfEntries(codec, o, lines);
  }

  /**
   * For any lines, an approval is found open exactly when a record inside the window asks for it, none
   * there answers it, wherever it stands, and the last that asks says this of it; each once.
   */
  lemma OpenExactly(codec: Codec, o: Options, lines: seq<string>, r: Replay, a: OpenApproval)
    requires Replayed(codec, o, lines) == Some(r)
    ensures DistinctIds(r.openApprovals)
    ensures var es := Entries(codec, lines);
            a in r.openApprovals
            <==> (exists i :: AsksLast(o, es, i, a)) && forall i | 0 <= i < |es| :: !Settles(o, es[i], a.id)
  {
    var es := Entries(codec, lines);
    OpenIsOfEntries(codec, o, lines, r);
    PendingAre(o, es);
    StillOpenIs(PendingOf(o, es), AnsweredOf(o, es));
    AnsweredIs(o, es, a.id);
  }
}
