/**
 * The approval queue and the log agree: what is reserved is what is queued or being signed, what is
 * queued or being signed is what the log has asked and not answered, and no request is answered twice.
 */
module Queue {
  import opened Wrappers
  import opened Policy
  import opened Replay
  import opened LogView
  import opened OpenApprovals
  import opened Journal
  import opened CheckpointIndependence
  import opened History
  import opened Daemon
  import opened Recovery

  // ---- the log ---------------------------------------------------------------------------------------

  predicate Asks(e: Entry, id: string) {
    e.event.Pending? && e.id == Str(id)
  }

  predicate Ends(e: Entry, id: string) {
    e.event.Answered? && e.id == Str(id)
  }

  predicate Asked(log: seq<Entry>, id: string) {
    exists i :: 0 <= i < |log| && Asks(log[i], id)
  }

  predicate Done(log: seq<Entry>, id: string) {
    exists i :: 0 <= i < |log| && Ends(log[i], id)
  }

  predicate OfQueue(e: Entry) {
    e.event.Pending? || e.event.Answered?
  }

  predicate TimedOrder(log: seq<Entry>) {
    (forall i | 0 <= i < |log| :: log[i].ts.Num?) && forall i, j | 0 <= i < j < |log| :: log[i].ts.n <= log[j].ts.n
  }

  predicate IdsNamed(log: seq<Entry>) {
    forall i | 0 <= i < |log| && OfQueue(log[i]) :: log[i].id.Str?
  }

  predicate AskedOnce(log: seq<Entry>) {
    forall i, j | 0 <= i < j < |log| && log[i].event.Pending? && log[j].event.Pending? :: log[i].id != log[j].id
  }

  /** Each request has at most one record that answers it. */
  predicate AnsweredOnce(log: seq<Entry>) {
    forall i, j | 0 <= i < j < |log| && log[i].event.Answered? && log[j].event.Answered? :: log[i].id != log[j].id
  }

  predicate AnswersFollow(log: seq<Entry>) {
    forall j | 0 <= j < |log| && log[j].event.Answered? && log[j].id.Str? :: Asked(log[..j], log[j].id.s)
  }

  predicate LogOk(log: seq<Entry>) {
    TimedOrder(log) && IdsNamed(log) && AskedOnce(log) && AnsweredOnce(log) && AnswersFollow(log)
  }

  lemma AskedMore(log: seq<Entry>, e: Entry, id: string)
    ensures Asked(log + [e], id) <==> Asked(log, id) || Asks(e, id)
    ensures Done(log + [e], id) <==> Done(log, id) || Ends(e, id)
  {
    var all := log + [e];
    assert all[|log|] == e && forall i | 0 <= i < |log| :: all[i] == log[i];
    if Asked(log, id) {
      var i :| 0 <= i < |log| && Asks(log[i], id);
      assert Asks(all[i], id);
    }
    if Done(log, id) {
      var i :| 0 <= i < |log| && Ends(log[i], id);
      assert Ends(all[i], id);
    }
  }

  /** A record the queue's rules let into the log. */
  predicate Admissible(log: seq<Entry>, e: Entry) {
    && e.ts.Num? && (forall i | 0 <= i < |log| && log[i].ts.Num? :: log[i].ts.n <= e.ts.n)
    && (OfQueue(e) ==> e.id.Str?)
    && (e.event.Pending? && e.id.Str? ==> NewId(log, e.id.s))
    && (e.event.Answered? && e.id.Str? ==> Asked(log, e.id.s) && !Done(log, e.id.s))
  }

  lemma AnswersFollowMore(log: seq<Entry>, e: Entry)
    requires AnswersFollow(log) && (e.event.Answered? && e.id.Str? ==> Asked(log, e.id.s))
    ensures AnswersFollow(log + [e])
  {
    var all := log + [e];
    forall j | 0 <= j < |all| && all[j].event.Answered? && all[j].id.Str? ensures Asked(all[..j], all[j].id.s) {
      if j < |log| {
        assert all[..j] == log[..j] && all[j] == log[j];
      } else {
        assert all[..j] == log;
      }
    }
  }

  lemma AppendOk(log: seq<Entry>, e: Entry)
    requires LogOk(log) && Admissible(log, e)
    ensures LogOk(log + [e])
  {
    AnswersFollowMore(log, e);
    OnceMore(log, e);
  }

  lemma OnceMore(log: seq<Entry>, e: Entry)
    requires AskedOnce(log) && AnsweredOnce(log) && IdsNamed(log) && Admissible(log, e)
    ensures AskedOnce(log + [e]) && AnsweredOnce(log + [e])
  {
    var all := log + [e];
    forall i | 0 <= i < |log| && log[i].event.Answered? && e.event.Answered? ensures log[i].id != e.id {
      assert Ends(log[i], log[i].id.s);
    }
  }

  // ---- what replay makes of it -----------------------------------------------------------------------

  function ApprovalOf(e: Entry): OpenApproval {
    OpenApproval(StringOf(e.id), StringOf(e.agentId), e.reason)
  }

  lemma {:induction false} PutNew(seen: seq<OpenApproval>, a: OpenApproval)
    requires forall i | 0 <= i < |seen| :: seen[i].id != a.id
    ensures PutApproval(seen, a) == seen + [a]
  {
    if seen != [] {
      PutNew(seen[1..], a);
      assert seen == [seen[0]] + seen[1..];
    }
  }

  /** The requests replay sees are the recent ones, each once, in order. */
  lemma {:induction false} PendingIs(o: Options, log: seq<Entry>)
    requires IdsNamed(log) && AskedOnce(log)
    ensures forall a ::
              a in PendingOf(o, log) <==>
              exists i :: 0 <= i < |log| && log[i].event.Pending? && Recent(o, log[i]) && a == ApprovalOf(log[i])
    ensures DistinctIds(PendingOf(o, log))
  {
    if log != [] {
      var before, e := log[..|log| - 1], log[|log| - 1];
      PendingIs(o, before);
      var seen := PendingOf(o, before);
      if e.event.Pending? && Recent(o, e) {
        forall i | 0 <= i < |seen| ensures seen[i].id != ApprovalOf(e).id {
          assert seen[i] in seen;
          var k :| 0 <= k < |before| && before[k].event.Pending? && Recent(o, before[k])
            && seen[i] == ApprovalOf(before[k]);
          assert log[k] == before[k] && OfQueue(log[k]) && OfQueue(e);
        }
        PutNew(seen, ApprovalOf(e));
      }
      assert forall i | 0 <= i < |before| :: log[i] == before[i];
    }
  }

  /** A request the log has asked since this instant, and never answered. */
  predicate OpenSince(log: seq<Entry>, cutoff: int, id: string) {
    !Done(log, id) && AskedSince(log, cutoff, id)
  }

  predicate AskedSince(log: seq<Entry>, cutoff: int, id: string) {
    exists i :: 0 <= i < |log| && Asks(log[i], id) && log[i].ts.Num? && log[i].ts.n >= cutoff
  }

  function OpenOf(o: Options, log: seq<Entry>): seq<OpenApproval> {
    StillOpen(PendingOf(o, log), AnsweredOf(o, log))
  }

  /** A recent request that was answered was answered recently. */
  lemma AnsweredRecently(o: Options, log: seq<Entry>, i: nat, id: string)
    requires LogOk(log) && i < |log| && Asks(log[i], id) && Recent(o, log[i])
    ensures id in AnsweredOf(o, log) <==> Done(log, id)
  {
    if Done(log, id) {
      var j :| 0 <= j < |log| && Ends(log[j], id);
      assert log[j].id.Str? && Asked(log[..j], id);
      var k :| 0 <= k < |log[..j]| && Asks(log[..j][k], id);
      assert Asks(log[k], id) && k < j;
      assert k == i;
      assert Recent(o, log[j]) && StringOf(log[j].id) == id;
    }
    if id in AnsweredOf(o, log) {
      var j :| 0 <= j < |log| && log[j].event.Answered? && Recent(o, log[j]) && StringOf(log[j].id) == id;
      assert OfQueue(log[j]);
      assert Ends(log[j], id);
    }
  }

  predicate HasId(open: seq<OpenApproval>, id: string) {
    exists k :: 0 <= k < |open| && open[k].id == id
  }

  lemma OpenIsSince(o: Options, log: seq<Entry>, k: nat) returns (i: nat)
    requires LogOk(log) && k < |OpenOf(o, log)|
    ensures OpenSince(log, o.cutoff, OpenOf(o, log)[k].id)
    ensures i < |log| && log[i].event.Pending? && OpenOf(o, log)[k] == ApprovalOf(log[i])
  {
    PendingIs(o, log);
    StillOpenIs(PendingOf(o, log), AnsweredOf(o, log));
    var a := OpenOf(o, log)[k];
    assert a in PendingOf(o, log) && a.id !in AnsweredOf(o, log);
    i :| 0 <= i < |log| && log[i].event.Pending? && Recent(o, log[i]) && a == ApprovalOf(log[i]);
    assert OfQueue(log[i]);
    assert Asks(log[i], a.id);
    AnsweredRecently(o, log, i, a.id);
  }

  lemma SinceIsOpen(o: Options, log: seq<Entry>, id: string)
    requires LogOk(log) && OpenSince(log, o.cutoff, id)
    ensures HasId(OpenOf(o, log), id)
  {
    PendingIs(o, log);
    StillOpenIs(PendingOf(o, log), AnsweredOf(o, log));
    var i :| 0 <= i < |log| && Asks(log[i], id) && log[i].ts.Num? && log[i].ts.n >= o.cutoff;
    AnsweredRecently(o, log, i, id);
    var a := ApprovalOf(log[i]);
    assert a in PendingOf(o, log) && a.id == id;
    assert a in OpenOf(o, log);
  }

  /** What replay finds open is what the log asked inside the window and never answered, each once. */
  lemma ReplayFindsOpen(o: Options, log: seq<Entry>)
    requires LogOk(log)
    ensures forall id :: HasId(OpenOf(o, log), id) <==> OpenSince(log, o.cutoff, id)
    ensures DistinctIds(OpenOf(o, log))
  {
    PendingIs(o, log);
    StillOpenIs(PendingOf(o, log), AnsweredOf(o, log));
    forall id ensures HasId(OpenOf(o, log), id) <==> OpenSince(log, o.cutoff, id) {
      if HasId(OpenOf(o, log), id) {
        var k :| 0 <= k < |OpenOf(o, log)| && OpenOf(o, log)[k].id == id;
        var i := OpenIsSince(o, log, k);
      }
      if OpenSince(log, o.cutoff, id) { SinceIsOpen(o, log, id); }
    }
  }

  // ---- the daemon's memory ---------------------------------------------------------------------------

  predicate Holds(held: seq<Held>, id: string) {
    exists i :: 0 <= i < |held| && held[i].id == id
  }

  predicate HeldOnce(held: seq<Held>) {
    forall i, j | 0 <= i < j < |held| :: held[i].id != held[j].id
  }

  predicate BeingSigned(tasks: map<string, Task>, id: string) {
    exists a :: a in tasks && Claim(tasks[a]) == Some(id)
  }

  predicate ClaimedOnce(tasks: map<string, Task>) {
    forall a, b | a in tasks && b in tasks && a != b && Claim(tasks[a]).Some? :: Claim(tasks[a]) != Claim(tasks[b])
  }

  /** The reserved ids are exactly the queued ids and those being signed, which are apart. */
  ghost predicate Matches(m: Memory) {
    && HeldOnce(m.held) && ClaimedOnce(m.tasks)
    && (forall id :: Holds(m.held, id) <==> id in m.queue || BeingSigned(m.tasks, id))
    && (forall id | id in m.queue :: !BeingSigned(m.tasks, id))
  }

  /** And they are what the log has asked and not answered; anything else open is older than a day. */
  ghost predicate Tracks(log: seq<Entry>, held: seq<Held>, now: int) {
    && (forall id | Holds(held, id) :: Asked(log, id) && !Done(log, id))
    && (forall id | OpenSince(log, now - DAY, id) :: Holds(held, id))
  }

  lemma {:induction false} WithoutHolds(held: seq<Held>, id: string)
    ensures forall other :: Holds(Without(held, id), other) <==> Holds(held, other) && other != id
    ensures HeldOnce(held) ==> HeldOnce(Without(held, id))
  {
    if held != [] {
      var before, last := held[..|held| - 1], held[|held| - 1];
      WithoutHolds(before, id);
      HoldsMore(before, last);
      HoldsMore(Without(before, id), last);
      assert held == before + [last];
      if last.id != id && HeldOnce(held) {
        assert HeldOnce(before);
        assert !Holds(before, last.id);
      }
    }
  }

  lemma HoldsMore(held: seq<Held>, h: Held)
    ensures forall other :: Holds(held + [h], other) <==> Holds(held, other) || other == h.id
    ensures HeldOnce(held) && !Holds(held, h.id) ==> HeldOnce(held + [h])
  {
    var all := held + [h];
    assert all[|held|] == h && forall i | 0 <= i < |held| :: all[i] == held[i];
    forall other ensures Holds(all, other) <==> Holds(held, other) || other == h.id {
      if Holds(held, other) {
        var i :| 0 <= i < |held| && held[i].id == other;
        assert all[i].id == other;
      }
    }
  }

  /** A task begins to make good a queued request, or none. */
  lemma ClaimMoves(m: Memory, agent: string, t: Task, queue': map<string, Ask>)
    requires Matches(m) && (agent in m.tasks ==> Claim(m.tasks[agent]).None?)
    requires if Claim(t).None? then queue' == m.queue
             else Claim(t).value in m.queue && queue' == m.queue - {Claim(t).value}
    ensures Matches(m.(queue := queue', tasks := m.tasks[agent := t]))
  {
    var tasks' := m.tasks[agent := t];
    forall id ensures BeingSigned(tasks', id) <==> BeingSigned(m.tasks, id) || Claim(t) == Some(id) {
      if BeingSigned(m.tasks, id) {
        var a :| a in m.tasks && Claim(m.tasks[a]) == Some(id);
        assert a in tasks' && Claim(tasks'[a]) == Some(id);
      }
      if Claim(t) == Some(id) { assert agent in tasks' && Claim(tasks'[agent]) == Some(id); }
    }
    assert forall a | a in m.tasks && Claim(m.tasks[a]).Some? :: BeingSigned(m.tasks, Claim(m.tasks[a]).value);
  }

  /** A task moves on with the claim it has. */
  lemma ClaimStays(m: Memory, agent: string, t: Task)
    requires Matches(m) && agent in m.tasks && Claim(m.tasks[agent]) == Claim(t)
    ensures Matches(m.(tasks := m.tasks[agent := t]))
  {
    var tasks' := m.tasks[agent := t];
    forall id ensures BeingSigned(tasks', id) <==> BeingSigned(m.tasks, id) {
      if BeingSigned(m.tasks, id) {
        var a :| a in m.tasks && Claim(m.tasks[a]) == Some(id);
        assert a in tasks' && Claim(tasks'[a]) == Some(id);
      }
      if BeingSigned(tasks', id) {
        var a :| a in tasks' && Claim(tasks'[a]) == Some(id);
        assert a in m.tasks && Claim(m.tasks[a]) == Some(id);
      }
    }
  }

  /** A task ends, and what it claimed is dropped. */
  lemma ClaimEnds(m: Memory, agent: string)
    requires Matches(m) && agent in m.tasks
    ensures Matches(m.(held := Leaving(m.held, Claim(m.tasks[agent])), tasks := m.tasks - {agent}))
  {
    var tasks', claim := m.tasks - {agent}, Claim(m.tasks[agent]);
    if claim.Some? {
      WithoutHolds(m.held, claim.value);
      assert BeingSigned(m.tasks, claim.value);
    }
    forall id ensures BeingSigned(tasks', id) <==> BeingSigned(m.tasks, id) && claim != Some(id) {
      if BeingSigned(tasks', id) {
        var a :| a in tasks' && Claim(tasks'[a]) == Some(id);
        assert a in m.tasks && Claim(m.tasks[a]) == Some(id);
      }
      if BeingSigned(m.tasks, id) && claim != Some(id) {
        var a :| a in m.tasks && Claim(m.tasks[a]) == Some(id);
        assert a in tasks' && Claim(tasks'[a]) == Some(id);
      }
    }
  }

  lemma QueueGrows(m: Memory, h: Held, ask: Ask)
    requires Matches(m) && !Holds(m.held, h.id)
    ensures Matches(m.(held := m.held + [h], queue := m.queue[h.id := ask]))
  {
    HoldsMore(m.held, h);
  }

  lemma QueueShrinks(m: Memory, id: string)
    requires Matches(m) && id in m.queue
    ensures Matches(m.(held := Without(m.held, id), queue := m.queue - {id}))
  {
    WithoutHolds(m.held, id);
  }

  // ---- the steps ---------------------------------------------------------------------------------------

  lemma OpenMore(log: seq<Entry>, e: Entry, cutoff: int, id: string)
    requires e.ts.Num?
    ensures OpenSince(log + [e], cutoff, id)
       <==> !Ends(e, id) && !Done(log, id) && (OpenSince(log, cutoff, id) || (Asks(e, id) && e.ts.n >= cutoff))
  {
    var all := log + [e];
    AskedMore(log, e, id);
    assert all[|log|] == e && forall i | 0 <= i < |log| :: all[i] == log[i];
    if OpenSince(log, cutoff, id) {
      var i :| 0 <= i < |log| && Asks(log[i], id) && log[i].ts.Num? && log[i].ts.n >= cutoff;
      assert Asks(all[i], id) && all[i].ts.n >= cutoff;
    }
    if Asks(e, id) && e.ts.n >= cutoff { assert Asks(all[|log|], id); }
  }

  lemma AskingLater(log: seq<Entry>, held: seq<Held>, now: int, later: int)
    requires Tracks(log, held, now) && now <= later
    ensures Tracks(log, held, later)
  {
    forall id | OpenSince(log, later - DAY, id) ensures Holds(held, id) {
      assert OpenSince(log, now - DAY, id);
    }
  }

  /** One record more, and the reservations that go with it. */
  lemma AskingMore(log: seq<Entry>, e: Entry, held: seq<Held>, held': seq<Held>, now: int)
    requires Tracks(log, held, now) && LogOk(log) && Admissible(log, e) && e.ts.n >= now
    requires if e.event.Pending? then forall id :: Holds(held', id) <==> Holds(held, id) || e.id == Str(id)
             else if e.event.Answered? then forall id :: Holds(held', id) <==> Holds(held, id) && e.id != Str(id)
             else held' == held
    ensures Tracks(log + [e], held', e.ts.n)
  {
    AskingLater(log, held, now, e.ts.n);
    forall id | Holds(held', id) ensures Asked(log + [e], id) && !Done(log + [e], id) {
      AskedMore(log, e, id);
      if Asks(e, id) { NewIsOpen(log, id); }
    }
    forall id | OpenSince(log + [e], e.ts.n - DAY, id) ensures Holds(held', id) {
      OpenMore(log, e, e.ts.n - DAY, id);
    }
  }

  lemma NewIsOpen(log: seq<Entry>, id: string)
    requires NewId(log, id)
    ensures !Asked(log, id) && !Done(log, id)
  {
  }

  lemma {:induction false} QuietLog(log: seq<Entry>, rs: seq<Entry>, now: int, at: int)
    requires LogOk(log) && LogBy(log, now) && now <= at
    requires forall i | 0 <= i < |rs| :: rs[i].ts == Num(at) && !OfQueue(rs[i])
    ensures LogOk(log + rs) && LogBy(log + rs, at)
  {
    if rs == [] {
      assert log + rs == log;
    } else {
      var before, e := rs[..|rs| - 1], rs[|rs| - 1];
      QuietLog(log, before, now, at);
      assert log + rs == (log + before) + [e];
      AppendOk(log + before, e);
    }
  }

  lemma QuietOne(log: seq<Entry>, e: Entry, held: seq<Held>, at: int)
    requires LogOk(log) && Tracks(log, held, at) && LogBy(log, at) && e.ts == Num(at) && !OfQueue(e)
    ensures Tracks(log + [e], held, at)
  {
    AskingMore(log, e, held, held, at);
  }

  lemma {:induction false} QuietAsking(log: seq<Entry>, rs: seq<Entry>, held: seq<Held>, now: int, at: int)
    requires LogOk(log) && Tracks(log, held, now) && LogBy(log, now) && now <= at
    requires forall i | 0 <= i < |rs| :: rs[i].ts == Num(at) && !OfQueue(rs[i])
    ensures Tracks(log + rs, held, at)
  {
    AskingLater(log, held, now, at);
    if rs == [] {
      assert log + rs == log;
    } else {
      var before, e := rs[..|rs| - 1], rs[|rs| - 1];
      QuietAsking(log, before, held, now, at);
      QuietLog(log, before, now, at);
      QuietOne(log + before, e, held, at);
      assert log + rs == (log + before) + [e];
    }
  }

  ghost predicate QueueOk(s: State) {
    && LogOk(s.disk.log) && LogBy(s.disk.log, s.now)
    && (s.up.Some? ==> Matches(s.up.value) && Tracks(s.disk.log, s.up.value.held, s.now))
  }

  predicate Answers(rs: seq<Entry>, ids: seq<string>, at: int) {
    |rs| == |ids| && forall i | 0 <= i < |rs| :: rs[i].ts == Num(at) && rs[i].event.Answered? && rs[i].id == Str(ids[i])
  }

  lemma {:induction false} AnswersEnd(log: seq<Entry>, rs: seq<Entry>, ids: seq<string>, at: int, id: string)
    requires Answers(rs, ids, at)
    ensures Done(log + rs, id) <==> Done(log, id) || id in ids
    ensures Asked(log + rs, id) <==> Asked(log, id)
  {
    if rs == [] {
      assert log + rs == log;
    } else {
      var n := |rs| - 1;
      AnswersEnd(log, rs[..n], ids[..n], at, id);
      assert log + rs == (log + rs[..n]) + [rs[n]];
      assert ids == ids[..n] + [ids[n]];
      AskedMore(log + rs[..n], rs[n], id);
    }
  }

  /** Different requests, each asked and not answered. */
  predicate Answerable(log: seq<Entry>, ids: seq<string>) {
    && (forall i, j | 0 <= i < j < |ids| :: ids[i] != ids[j])
    && (forall i | 0 <= i < |ids| :: Asked(log, ids[i]) && !Done(log, ids[i]))
  }

  lemma AnswerableSome(log: seq<Entry>, ids: seq<string>, n: nat)
    requires Answerable(log, ids) && n <= |ids|
    ensures Answerable(log, ids[..n])
  {
    assert forall i | 0 <= i < n :: ids[..n][i] == ids[i];
  }

  /** The records of a start answer what replay found open, each once. */
  lemma {:induction false} AnswersOk(log: seq<Entry>, rs: seq<Entry>, ids: seq<string>, now: int, at: int)
    requires LogOk(log) && LogBy(log, now) && now <= at && Answers(rs, ids, at)
    requires Answerable(log, ids)
    ensures LogOk(log + rs) && LogBy(log + rs, at)
  {
    if rs == [] {
      assert log + rs == log;
    } else {
      var n := |rs| - 1;
      AnswerableSome(log, ids, n);
      AnswersOk(log, rs[..n], ids[..n], now, at);
      AnswersEnd(log, rs[..n], ids[..n], at, ids[n]);
      assert log + rs == (log + rs[..n]) + [rs[n]];
      AppendOk(log + rs[..n], rs[n]);
    }
  }

  lemma AnsweredIsClosed(log: seq<Entry>, rs: seq<Entry>, ids: seq<string>, at: int, cutoff: int, id: string)
    requires Answers(rs, ids, at) && OpenSince(log + rs, cutoff, id)
    ensures OpenSince(log, cutoff, id) && id !in ids
  {
    AnswersEnd(log, rs, ids, at, id);
    var all := log + rs;
    assert forall k | 0 <= k < |rs| :: all[|log| + k] == rs[k];
    var i :| 0 <= i < |all| && Asks(all[i], id) && all[i].ts.Num? && all[i].ts.n >= cutoff;
    assert Asks(log[i], id);
  }

  lemma MatchesAfter(env: Env, s: State, a: Action)
    requires s.up.Some? && Matches(s.up.value) && Placed(env, s, a)
    requires a.Enqueue? ==> !Holds(s.up.value.held, a.id)
    ensures Matches(MemoryOf(env, s, a))
  {
    var m := s.up.value;
    match a
    case Begin(ask, _) => ClaimMoves(m, ask.req.agentId, Building(ask, None), m.queue);
    case AskHuman(ask, _) => ClaimMoves(m, ask.req.agentId, Asking(ask), m.queue);
    case Approve(id, _) => ClaimMoves(m, m.queue[id].req.agentId, Building(m.queue[id], Some(id)), m.queue - {id});
    case ApproveDraw(id, _) =>
      ClaimMoves(m, m.queue[id].req.agentId, Drawing(Some(id), false, Some(m.queue[id])), m.queue - {id});
    case BeginDraw(agent, _) => ClaimMoves(m, agent, Drawing(None, false, None), m.queue);
    case Enqueue(agent, id, heldAt, _) =>
      ClaimEnds(m, agent);
      QueueGrows(Idle(m, agent), Held(id, SpendFor(m.tasks[agent].ask, heldAt)), m.tasks[agent].ask);
    case Answer(id, _, _) => QueueShrinks(m, id);
    case Commit(agent, _, _, _, _, _) =>
      if m.tasks[agent].approving.Some? {
        ClaimStays(m, agent, Recorded(m.tasks[agent].approving.value));
      } else {
        ClaimEnds(m, agent);
      }
    case Draw(ask, _, _, _, _, _) => ClaimStays(m, ask.req.agentId, m.tasks[ask.req.agentId].(spent := true));
    case Finish(agent, _, _) => ClaimEnds(m, agent);
    case _ =>
  }

  predicate WritesNone(env: Env, s: State, a: Action)
    requires Placed(env, s, a)
  {
    forall i | 0 <= i < |NotesOf(env, s, a)| :: !OfQueue(NotesOf(env, s, a)[i].note)
  }

  predicate OnQueue(s: State, a: Action) {
    a.Enqueue? || a.Answer? || a.Start? || (a.Finish? && Busy(s, a.agent) && Claim(TaskOf(s, a.agent)).Some?)
  }

  lemma OthersWriteNone(env: Env, s: State, a: Action)
    requires Placed(env, s, a) && !OnQueue(s, a)
    ensures WritesNone(env, s, a)
    ensures s.up.Some? ==> MemoryOf(env, s, a).held == s.up.value.held
  {
  }

  lemma SingleRecord(codec: Codec, w: Writer, t: Timed)
    ensures Records(codec, w, [t]) == [Stamp(w, t)]
  {
    assert [t][..0] == [] && AuditAll(codec, w, []) == w;
  }

  /** The one record of an enqueue, an answer or the end of an approval, and the reservation it moves. */
  lemma OnQueueAsks(env: Env, s: State, a: Action)
    requires OnQueue(s, a) && !a.Start? && s.up.Some? && QueueOk(s) && Placed(env, s, a) && Clocked(s, a)
             && Assumed(env, s, a)
    ensures var log' := s.disk.log + Records(env.codec, WriterOf(env, s, a), NotesOf(env, s, a));
            LogOk(log') && LogBy(log', TimeOf(a)) && Tracks(log', MemoryOf(env, s, a).held, TimeOf(a))
  {
    var m, w, notes := s.up.value, WriterOf(env, s, a), NotesOf(env, s, a);
    SingleRecord(env.codec, w, notes[0]);
    var e := Stamp(w, notes[0]);
    OnQueueRecord(env, s, a);
    AppendOk(s.disk.log, e);
    AskingMore(s.disk.log, e, m.held, MemoryOf(env, s, a).held, s.now);
  }

  lemma OnQueueRecord(env: Env, s: State, a: Action)
    requires OnQueue(s, a) && !a.Start? && s.up.Some? && QueueOk(s) && Placed(env, s, a) && Clocked(s, a)
             && Assumed(env, s, a)
    ensures |NotesOf(env, s, a)| == 1
    ensures var m, held', e := s.up.value, MemoryOf(env, s, a).held, Stamp(WriterOf(env, s, a), NotesOf(env, s, a)[0]);
            && Admissible(s.disk.log, e) && e.ts == Num(TimeOf(a)) && OfQueue(e)
            && if e.event.Pending? then forall id :: Holds(held', id) <==> Holds(m.held, id) || e.id == Str(id)
               else forall id :: Holds(held', id) <==> Holds(m.held, id) && e.id != Str(id)
  {
    var m := s.up.value;
    match a
    case Enqueue(agent, id, heldAt, _) => HoldsMore(m.held, Held(id, SpendFor(m.tasks[agent].ask, heldAt)));
    case Answer(id, _, _) =>
      assert Holds(m.held, id);
      WithoutHolds(m.held, id);
    case Finish(agent, _, _) =>
      var id := Claim(m.tasks[agent]).value;
      assert BeingSigned(m.tasks, id) && Holds(m.held, id);
      WithoutHolds(m.held, id);
    case _ =>
  }

  function IdsOf(open: seq<OpenApproval>): (ids: seq<string>)
    ensures |ids| == |open| && forall i | 0 <= i < |ids| :: ids[i] == open[i].id
  {
    if open == [] then [] else IdsOf(open[..|open| - 1]) + [open[|open| - 1].id]
  }

  /** A start is handed what the log has open. */
  predicate FindsOpen(s: State, a: Action) {
    a.Start? ==> a.found.openApprovals == OpenOf(OptionsOf(s.disk, a.readAt - DAY), s.disk.log)
  }

  lemma StartOpens(codec: Codec, d: Disk, cutoff: int, r: Option<Replay>)
    requires Kept(codec, d) && r == Startup(codec, d, cutoff)
    ensures r.Some? && r.value.openApprovals == OpenOf(OptionsOf(d, cutoff), d.log)
  {
    StartFinds(codec, d, cutoff);
  }

  lemma StartedFindsOpen(env: Env, s: State, a: Action)
    requires Kept(env.codec, s.disk) && Started(env, s, a)
    ensures FindsOpen(s, a)
  {
    if a.Start? { StartOpens(env.codec, s.disk, a.readAt - DAY, Some(a.found)); }
  }

  lemma FoundIsOpen(o: Options, log: seq<Entry>, open: seq<OpenApproval>)
    requires LogOk(log) && open == OpenOf(o, log)
    ensures var ids := IdsOf(open);
            && Answerable(log, ids)
            && (forall id | OpenSince(log, o.cutoff, id) :: id in ids)
  {
    ReplayFindsOpen(o, log);
    var ids := IdsOf(open);
    forall i | 0 <= i < |ids| ensures Asked(log, ids[i]) && !Done(log, ids[i]) {
      assert HasId(open, open[i].id) && OpenSince(log, o.cutoff, ids[i]);
    }
    forall id | OpenSince(log, o.cutoff, id) ensures id in ids {
      var k :| 0 <= k < |open| && open[k].id == id;
      assert ids[k] == id;
    }
  }

  lemma AbandonedAll(log: seq<Entry>, o: Options, open: seq<OpenApproval>, rs: seq<Entry>, at: int, id: string)
    requires LogOk(log) && open == OpenOf(o, log) && Answers(rs, IdsOf(open), at)
    ensures !OpenSince(log + rs, o.cutoff, id)
  {
    FoundIsOpen(o, log, open);
    if OpenSince(log + rs, o.cutoff, id) {
      AnsweredIsClosed(log, rs, IdsOf(open), at, o.cutoff, id);
      assert false;
    }
  }

  lemma AbandonRecords(codec: Codec, w: Writer, open: seq<OpenApproval>, at: int, n: nat)
    requires n <= |open|
    ensures Answers(Records(codec, w, AbandonAll(open, at)[..n]), IdsOf(open)[..n], at)
  {
    RecordsAre(codec, w, AbandonAll(open, at)[..n]);
  }

  lemma SinceEarlier(log: seq<Entry>, early: int, late: int, id: string)
    requires early <= late
    ensures OpenSince(log, late, id) ==> OpenSince(log, early, id)
  {
  }

  /** A start, or as much of it as was written. */
  lemma StartAnswers(codec: Codec, d: Disk, w: Writer, open: seq<OpenApproval>, n: nat, now: int, readAt: int, at: int)
    requires LogOk(d.log) && LogBy(d.log, now) && now <= readAt <= at
    requires open == OpenOf(OptionsOf(d, readAt - DAY), d.log) && n <= |open|
    ensures var log' := d.log + Records(codec, w, AbandonAll(open, at)[..n]);
            LogOk(log') && LogBy(log', at) && (n == |open| ==> Tracks(log', [], at))
  {
    var o, rs := OptionsOf(d, readAt - DAY), Records(codec, w, AbandonAll(open, at)[..n]);
    FoundIsOpen(o, d.log, open);
    AbandonRecords(codec, w, open, at, n);
    AnswerableSome(d.log, IdsOf(open), n);
    AnswersOk(d.log, rs, IdsOf(open)[..n], now, at);
    if n == |open| {
      assert IdsOf(open)[..n] == IdsOf(open);
      AllClosed(d.log, o, open, rs, at);
    }
  }

  lemma AllClosed(log: seq<Entry>, o: Options, open: seq<OpenApproval>, rs: seq<Entry>, at: int)
    requires LogOk(log) && open == OpenOf(o, log) && Answers(rs, IdsOf(open), at) && o.cutoff <= at - DAY
    ensures Tracks(log + rs, [], at)
  {
    var cutoff, all := at - DAY, log + rs;
    forall id ensures !OpenSince(all, cutoff, id) {
      AbandonedAll(log, o, open, rs, at, id);
      SinceEarlier(all, o.cutoff, cutoff, id);
    }
  }

  lemma LogAfter(env: Env, s: State, a: Action, n: nat, torn: string)
    requires Placed(env, s, a) && n <= |NotesOf(env, s, a)|
    ensures CutShort(env, s, a, n, torn).disk.log == s.disk.log
            + Records(env.codec, WriterOf(env, s, a), NotesOf(env, s, a)[..n])
  {
    AuditAllAppends(env.codec, WriterOf(env, s, a), NotesOf(env, s, a)[..n]);
  }

  lemma DoneLog(env: Env, s: State, a: Action)
    requires Placed(env, s, a)
    ensures Do(env, s, a).disk.log == if a.Tick? then s.disk.log
            else s.disk.log + Records(env.codec, WriterOf(env, s, a), NotesOf(env, s, a))
  {
    AuditAllAppends(env.codec, WriterOf(env, s, a), NotesOf(env, s, a));
  }

  lemma OthersKeepLog(env: Env, s: State, a: Action, n: nat)
    requires QueueOk(s) && !OnQueue(s, a) && Placed(env, s, a) && Clocked(s, a) && n <= |NotesOf(env, s, a)|
    requires forall i | 0 <= i < |NotesOf(env, s, a)| :: NotesOf(env, s, a)[i].ts == TimeOf(a)
    ensures var log' := s.disk.log + Records(env.codec, WriterOf(env, s, a), NotesOf(env, s, a)[..n]);
            LogOk(log') && LogBy(log', TimeOf(a)) && (s.up.Some? ==> Tracks(log', s.up.value.held, TimeOf(a)))
  {
    var w, notes := WriterOf(env, s, a), NotesOf(env, s, a)[..n];
    OthersWriteNone(env, s, a);
    RecordsAre(env.codec, w, notes);
    QuietLog(s.disk.log, Records(env.codec, w, notes), s.now, TimeOf(a));
    if s.up.Some? { QuietAsking(s.disk.log, Records(env.codec, w, notes), s.up.value.held, s.now, TimeOf(a)); }
  }

  lemma NotesAreTimed(env: Env, s: State, a: Action)
    requires Placed(env, s, a)
    ensures forall i | 0 <= i < |NotesOf(env, s, a)| :: NotesOf(env, s, a)[i].ts == TimeOf(a)
  {
  }

  lemma CutQueue(env: Env, s: State, a: Action, n: nat, torn: string)
    requires QueueOk(s) && Placed(env, s, a) && Clocked(s, a) && Assumed(env, s, a) && FindsOpen(s, a)
             && n <= |NotesOf(env, s, a)|
    ensures QueueOk(CutShort(env, s, a, n, torn))
  {
    LogAfter(env, s, a, n, torn);
    if !OnQueue(s, a) {
      NotesAreTimed(env, s, a);
      OthersKeepLog(env, s, a, n);
    } else if a.Start? {
      StartCutLog(env, s, a, n);
    } else {
      OneOrNone(env, s, a, n);
    }
  }

  lemma StartCutLog(env: Env, s: State, a: Action, n: nat)
    requires a.Start? && QueueOk(s) && Placed(env, s, a) && Clocked(s, a) && FindsOpen(s, a)
             && n <= |NotesOf(env, s, a)|
    ensures var log' := s.disk.log + Records(env.codec, WriterOf(env, s, a), NotesOf(env, s, a)[..n]);
            LogOk(log') && LogBy(log', a.at)
  {
    StartAnswers(env.codec, s.disk, WriterOf(env, s, a), a.found.openApprovals, n, s.now, a.readAt, a.at);
  }

  lemma OneOrNone(env: Env, s: State, a: Action, n: nat)
    requires OnQueue(s, a) && !a.Start? && QueueOk(s) && Placed(env, s, a) && Clocked(s, a) && Assumed(env, s, a)
             && n <= |NotesOf(env, s, a)|
    ensures var log' := s.disk.log + Records(env.codec, WriterOf(env, s, a), NotesOf(env, s, a)[..n]);
            LogOk(log') && LogBy(log', TimeOf(a))
  {
    var notes, w := NotesOf(env, s, a), WriterOf(env, s, a);
    OnQueueAsks(env, s, a);
    if n == 0 {
      ClockedForward(s, a);
      assert s.disk.log + Records(env.codec, w, notes[..0]) == s.disk.log;
    } else {
      assert notes[..n] == notes;
    }
  }

  lemma TickQueue(s: State, at: int)
    requires QueueOk(s) && s.now <= at
    ensures QueueOk(s.(now := at))
  {
    if s.up.Some? { AskingLater(s.disk.log, s.up.value.held, s.now, at); }
  }

  lemma NothingMatches(m: Memory)
    requires m.held == [] && m.queue == map[] && m.tasks == map[]
    ensures Matches(m)
  {
  }

  lemma StartedShape(env: Env, s: State, a: Action)
    requires a.Start? && Placed(env, s, a)
    ensures var s' := Do(env, s, a);
            && s'.now == a.at && s'.up.Some? && s'.up.value.held == [] && s'.up.value.queue == map[]
            && s'.up.value.tasks == map[]
            && s'.disk.log == s.disk.log
                + Records(env.codec, WriterOf(env, s, a), AbandonAll(a.found.openApprovals, a.at))
  {
    DoneLog(env, s, a);
  }

  lemma FreshStateQueues(codec: Codec, d: Disk, w: Writer, open: seq<OpenApproval>, now: int, readAt: int, s': State)
    requires LogOk(d.log) && LogBy(d.log, now) && now <= readAt <= s'.now
             && open == OpenOf(OptionsOf(d, readAt - DAY), d.log)
    requires s'.up.Some? && s'.up.value.held == [] && s'.up.value.queue == map[] && s'.up.value.tasks == map[]
    requires s'.disk.log == d.log + Records(codec, w, AbandonAll(open, s'.now))
    ensures QueueOk(s')
  {
    NothingMatches(s'.up.value);
    assert AbandonAll(open, s'.now)[..|open|] == AbandonAll(open, s'.now);
    StartAnswers(codec, d, w, open, |open|, now, readAt, s'.now);
  }

  lemma StartQueue(env: Env, s: State, a: Action)
    requires a.Start? && QueueOk(s) && Placed(env, s, a) && Clocked(s, a) && FindsOpen(s, a)
    ensures QueueOk(Do(env, s, a))
  {
    StartedShape(env, s, a);
    FreshStateQueues(env.codec, s.disk, WriterOf(env, s, a), a.found.openApprovals, s.now, a.readAt, Do(env, s, a));
  }

  lemma DoQueue(env: Env, s: State, a: Action)
    requires QueueOk(s) && Placed(env, s, a) && Clocked(s, a) && Assumed(env, s, a) && FindsOpen(s, a)
    ensures QueueOk(Do(env, s, a))
  {
    if a.Tick? {
      TickQueue(s, a.at);
    } else if a.Start? {
      StartQueue(env, s, a);
    } else {
      UpQueue(env, s, a);
    }
  }

  lemma UpQueue(env: Env, s: State, a: Action)
    requires QueueOk(s) && Placed(env, s, a) && Clocked(s, a) && Assumed(env, s, a) && !a.Tick? && !a.Start?
    ensures QueueOk(Do(env, s, a))
  {
    DoneLog(env, s, a);
    if a.Enqueue? { assert Holds(s.up.value.held, a.id) ==> Asked(s.disk.log, a.id); NewIsOpen(s.disk.log, a.id); }
    MatchesAfter(env, s, a);
    if OnQueue(s, a) {
      OnQueueAsks(env, s, a);
    } else {
      NotesAreTimed(env, s, a);
      assert NotesOf(env, s, a)[..|NotesOf(env, s, a)|] == NotesOf(env, s, a);
      OthersKeepLog(env, s, a, |NotesOf(env, s, a)|);
      OthersWriteNone(env, s, a);
    }
  }

  lemma MovedQueue(env: Env, s: State, m: Move)
    requires QueueOk(s) && Agree(env, s)
    ensures QueueOk(Moved(env, s, m))
  {
    if CanMove(env, s, m) {
      StartedFindsOpen(env, s, m.a);
      match m
      case Cut(a, n, torn) => CutQueue(env, s, a, n, torn);
      case Full(a) => DoQueue(env, s, a);
    }
  }

  lemma {:induction false} EveryRunQueues(env: Env, begun: int, moves: seq<Move>)
    ensures QueueOk(After(env, begun, moves))
  {
    if moves != [] {
      EveryRunQueues(env, begun, moves[..|moves| - 1]);
      EveryRunAgrees(env, begun, moves[..|moves| - 1]);
      MovedQueue(env, After(env, begun, moves[..|moves| - 1]), moves[|moves| - 1]);
    }
  }

  // ---- the promises ------------------------------------------------------------------------------------

  /** In every state of every run each request has at most one record that answers it, after the one that asks. */
  lemma AnsweredAtMostOnce(env: Env, begun: int, moves: seq<Move>)
    ensures var log := After(env, begun, moves).disk.log;
            AskedOnce(log) && AnsweredOnce(log) && AnswersFollow(log)
  {
    EveryRunQueues(env, begun, moves);
  }

  /**
   * The reserved ids are those queued and those being signed, and of those replay finds open the
   * ones asked since the cutoff.
   */
  predicate InStep(log: seq<Entry>, m: Memory, found: Option<Replay>, cutoff: int, id: string) {
    && (Holds(m.held, id) <==> id in m.queue || BeingSigned(m.tasks, id))
    && !(id in m.queue && BeingSigned(m.tasks, id))
    && found.Some?
    && (HasId(found.value.openApprovals, id) <==> Holds(m.held, id) && AskedSince(log, cutoff, id))
  }

  lemma StateInStep(codec: Codec, s: State, cutoff: int, found: Option<Replay>, id: string)
    requires QueueOk(s) && Kept(codec, s.disk) && s.up.Some? && s.now - DAY <= cutoff
             && found == Startup(codec, s.disk, cutoff)
    ensures InStep(s.disk.log, s.up.value, found, cutoff, id)
  {
    WhatIsOpen(codec, s.disk, cutoff, found, id);
    OpenIsHeld(s, cutoff, id);
  }

  /**
   * Queue and log agree, in every state of every run. While the daemon runs, the reserved ids are
   * exactly those queued and those being signed, and a replay of the disk at any time finds open
   * exactly those of them that the log has asked inside the window.
   */
  lemma QueueAndLogAgree(env: Env, begun: int, moves: seq<Move>, readAt: int, id: string)
    requires var s := After(env, begun, moves); s.up.Some? && s.now <= readAt
    ensures var s := After(env, begun, moves);
            InStep(s.disk.log, s.up.value, Startup(env.codec, s.disk, readAt - DAY), readAt - DAY, id)
  {
    var s := After(env, begun, moves);
    EveryRunQueues(env, begun, moves);
    EveryRunAgrees(env, begun, moves);
    StateInStep(env.codec, s, readAt - DAY, Startup(env.codec, s.disk, readAt - DAY), id);
  }

  /** What a start would find open. */
  lemma WhatIsOpen(codec: Codec, d: Disk, cutoff: int, r: Option<Replay>, id: string)
    requires Kept(codec, d) && LogOk(d.log) && r == Startup(codec, d, cutoff)
    ensures r.Some? && (HasId(r.value.openApprovals, id) <==> OpenSince(d.log, cutoff, id))
  {
    StartOpens(codec, d, cutoff, r);
    ReplayFindsOpen(OptionsOf(d, cutoff), d.log);
  }

  lemma OpenIsHeld(s: State, cutoff: int, id: string)
    requires QueueOk(s) && s.up.Some? && s.now - DAY <= cutoff
    ensures OpenSince(s.disk.log, cutoff, id)
       <==> Holds(s.up.value.held, id) && AskedSince(s.disk.log, cutoff, id)
  {
    SinceEarlier(s.disk.log, s.now - DAY, cutoff, id);
  }

  /** What a start closes stays closed: a replay right after it, or at any later time, finds nothing open. */
  lemma StartLeavesNoneOpen(env: Env, begun: int, moves: seq<Move>, a: Action, readAt: int)
    requires var s := After(env, begun, moves); a.Start? && Enabled(env, s, a) && a.at <= readAt
    ensures var r := Startup(env.codec, Do(env, After(env, begun, moves), a).disk, readAt - DAY);
            r.Some? && r.value.openApprovals == []
  {
    var s := After(env, begun, moves);
    EveryRunQueues(env, begun, moves);
    EveryRunAgrees(env, begun, moves);
    NoneOpenAfter(env, s, a, readAt);
  }

  lemma NoneOpenAfter(env: Env, s: State, a: Action, readAt: int)
    requires QueueOk(s) && Agree(env, s) && WellTasked(s) && a.Start? && Enabled(env, s, a) && a.at <= readAt
    ensures var r := Startup(env.codec, Do(env, s, a).disk, readAt - DAY);
            r.Some? && r.value.openApprovals == []
  {
    var s' := Do(env, s, a);
    StartedRestores(env, s, a);
    StartedFindsOpen(env, s, a);
    DoAgrees(env, s, a);
    DoQueue(env, s, a);
    NoneHeldNoneOpen(env, s', readAt);
  }

  lemma NoneHeldNoneOpen(env: Env, s: State, readAt: int)
    requires QueueOk(s) && Agree(env, s) && s.up.Some? && s.up.value.held == [] && s.now <= readAt
    ensures var r := Startup(env.codec, s.disk, readAt - DAY);
            r.Some? && r.value.openApprovals == []
  {
    NothingFound(env.codec, s, readAt - DAY, Startup(env.codec, s.disk, readAt - DAY));
  }

  lemma NothingFound(codec: Codec, s: State, cutoff: int, r: Option<Replay>)
    requires QueueOk(s) && Kept(codec, s.disk) && s.up.Some? && s.up.value.held == [] && s.now - DAY <= cutoff
    requires r == Startup(codec, s.disk, cutoff)
    ensures r.Some? && r.value.openApprovals == []
  {
    WhatIsOpen(codec, s.disk, cutoff, r, "");
    if r.value.openApprovals != [] {
      var id := r.value.openApprovals[0].id;
      WhatIsOpen(codec, s.disk, cutoff, r, id);
      OpenIsHeld(s, cutoff, id);
      assert false;
    }
  }
}
