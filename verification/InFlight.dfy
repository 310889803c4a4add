/**
 * The inputs of transactions handed out and not settled yet: `inputBusy`, `claimNonce` and what a
 * payment and a tidy book, in signerd.ts. `pending` is the channel client's PENDING_MS, for which the
 * map's times are meant; entries that client drops by itself are not part of this model.
 */
module InFlight {
  import opened Wrappers

  type Times = map<string, int>

  predicate Busy(inFlight: Times, input: string, now: int, pending: nat) {
    input in inFlight && now - inFlight[input] < pending
  }

  /** `inputs.find(...)` */
  function FirstBusy(inFlight: Times, inputs: seq<string>, now: int, pending: nat): (r: Option<string>)
    ensures r.None? <==> forall i | i in inputs :: !Busy(inFlight, i, now, pending)
    ensures r.Some? ==> r.value in inputs && Busy(inFlight, r.value, now, pending)
  {
    if inputs == [] then None
    else if Busy(inFlight, inputs[0], now, pending) then Some(inputs[0])
    else FirstBusy(inFlight, inputs[1..], now, pending)
  }

  function Unexpired(nonces: Times, now: int): Times {
    map n | n in nonces && nonces[n] > now :: nonces[n]
  }

  function Booked(inFlight: Times, inputs: seq<string>, at: int): (r: Times)
    ensures forall i :: i in r <==> i in inFlight || i in inputs
    ensures forall i | i in r :: r[i] == if i in inputs then at else inFlight[i]
  {
    if inputs == [] then inFlight else Booked(inFlight, inputs[..|inputs| - 1], at)[inputs[|inputs| - 1] := at]
  }

  function SetOf(inputs: seq<string>): (s: set<string>)
    ensures forall i :: i in s <==> i in inputs
  {
    if inputs == [] then {} else SetOf(inputs[..|inputs| - 1]) + {inputs[|inputs| - 1]}
  }

  /** The maps as the daemon keeps them. */
  class Book {
    var inFlight: Times
    var nonces: Times

    constructor ()
      ensures inFlight == map[] && nonces == map[]
    {
      inFlight, nonces := map[], map[];
    }

    method InputBusy(inputs: seq<string>, now: int, pending: nat) returns (held: Option<string>)
      ensures held == FirstBusy(inFlight, inputs, now, pending)
    {
      var n := 0;
      while n < |inputs|
        invariant n <= |inputs|
        invariant FirstBusy(inFlight, inputs, now, pending) == FirstBusy(inFlight, inputs[n..], now, pending)
      {
        if Busy(inFlight, inputs[n], now, pending) { return Some(inputs[n]); }
        n := n + 1;
      }
      held := None;
    }

    method ClaimNonce(nonce: string, now: int, ttlMs: nat) returns (claimed: bool)
      modifies this`nonces
      ensures claimed <==> nonce !in Unexpired(old(nonces), now)
      ensures nonces == if claimed then Unexpired(old(nonces), now)[nonce := now + ttlMs]
              else Unexpired(old(nonces), now)
    {
      var left := nonces.Keys;
      while left != {}
        invariant left <= old(nonces).Keys
        invariant forall n :: n in nonces <==> n in old(nonces) && (n in left || old(nonces)[n] > now)
        invariant forall n | n in nonces :: nonces[n] == old(nonces)[n]
        decreases left
      {
        var n :| n in left;
        if nonces[n] <= now { nonces := nonces - {n}; }
        left := left - {n};
      }
      assert nonces == Unexpired(old(nonces), now);
      if nonce in nonces { return false; }
      nonces := nonces[nonce := now + ttlMs];
      claimed := true;
    }

    method Hold(inputs: seq<string>, at: int)
      modifies this`inFlight
      ensures inFlight == Booked(old(inFlight), inputs, at)
    {
      var n := 0;
      while n < |inputs|
        invariant n <= |inputs|
        invariant inFlight == Booked(old(inFlight), inputs[..n], at)
      {
        assert inputs[..n + 1][..n] == inputs[..n];
        inFlight := inFlight[inputs[n] := at];
        n := n + 1;
      }
      assert inputs[..n] == inputs;
    }

    /** A submit the provider refused: its inputs are free again. */
    method Unhold(inputs: seq<string>)
      modifies this`inFlight
      ensures inFlight == old(inFlight) - SetOf(inputs)
    {
      var n := 0;
      while n < |inputs|
        invariant n <= |inputs|
        invariant inFlight == old(inFlight) - SetOf(inputs[..n])
      {
        assert inputs[..n + 1][..n] == inputs[..n];
        inFlight := inFlight - {inputs[n]};
        n := n + 1;
      }
      assert inputs[..n] == inputs;
    }
  }

  // ---- every run of payments and tidies ------------------------------------------------------------------

  /** A transaction handed to a caller or sent to the chain, when its inputs were booked and for how long. */
  datatype Handed = Handed(inputs: seq<string>, at: int, hold: int)

  /** A tidy holds the wallet's lock from reading the wallet to the answer to its submit. */
  datatype Tidying = Idle | Planning(listed: seq<string>) | Submitting(inputs: seq<string>)

  datatype Wallet = Wallet(now: int, inFlight: Times, nonces: Times, tidy: Tidying, handed: seq<Handed>)

  const START := Wallet(0, map[], map[], Idle, [])

  datatype Action =
    | Exact(inputs: seq<string>, nonceAt: nat, hold: nat, checkedAt: int, claimedAt: int, bookedAt: int)
    | TidyReads(listed: seq<string>, at: int)
    | TidyGivesUp
    | TidySubmits(inputs: seq<string>, at: int)
    | TidyStands
    | TidyRefused

  /**
   * When the code reaches the action: the payment that finds an input or its nonce held is refused
   * before it books anything.
   */
  predicate Possible(w: Wallet, a: Action, pending: nat) {
    match a
    case Exact(inputs, nonceAt, hold, checkedAt, claimedAt, bookedAt) =>
      && w.tidy.Idle? && w.now <= checkedAt <= claimedAt <= bookedAt && nonceAt < |inputs|
      && FirstBusy(w.inFlight, inputs, checkedAt, pending).None? && inputs[nonceAt] !in Unexpired(w.nonces, claimedAt)
    case TidyReads(listed, at) => w.tidy.Idle? && w.now <= at && FirstBusy(w.inFlight, listed, at, pending).None?
    case TidyGivesUp => w.tidy.Planning?
    case TidySubmits(inputs, at) => w.tidy.Planning? && w.now <= at && forall i | i in inputs :: i in w.tidy.listed
    case TidyStands => w.tidy.Submitting?
    case TidyRefused => w.tidy.Submitting? && w.handed != []
  }

  function Do(w: Wallet, a: Action, pending: nat): Wallet
    requires Possible(w, a, pending)
  {
    match a
    case Exact(inputs, nonceAt, hold, checkedAt, claimedAt, bookedAt) =>
      Wallet(bookedAt, Booked(w.inFlight, inputs, bookedAt - pending + hold),
             Unexpired(w.nonces, claimedAt)[inputs[nonceAt] := claimedAt + hold], Idle,
             w.handed + [Handed(inputs, bookedAt, hold)])
    case TidyReads(listed, at) => w.(now := at, tidy := Planning(listed))
    case TidyGivesUp => w.(tidy := Idle)
    case TidySubmits(inputs, at) =>
      w.(now := at, inFlight := Booked(w.inFlight, inputs, at), tidy := Submitting(inputs),
         handed := w.handed + [Handed(inputs, at, pending)])
    case TidyStands => w.(tidy := Idle)
    case TidyRefused =>
      w.(inFlight := w.inFlight - SetOf(w.tidy.inputs), tidy := Idle, handed := w.handed[..|w.handed| - 1])
  }

  /** The hold has passed, or the map still says the input is held at least that long. */
  predicate Guarded(w: Wallet, pending: nat, h: Handed, input: string) {
    w.now >= h.at + h.hold || (input in w.inFlight && w.inFlight[input] + pending >= h.at + h.hold)
  }

  predicate AllGuarded(w: Wallet, pending: nat) {
    forall k, i | 0 <= k < |w.handed| && i in w.handed[k].inputs :: Guarded(w, pending, w.handed[k], i)
  }

  /** The property: of two transactions that share an input, the later is booked after the earlier one's hold. */
  predicate Apart(handed: seq<Handed>) {
    forall k, l, i | 0 <= k < l < |handed| && i in handed[k].inputs
    && i in handed[l].inputs :: handed[l].at >= handed[k].at + handed[k].hold
  }

  /** By this time every hold on these inputs has passed. */
  predicate ClearBy(handed: seq<Handed>, inputs: seq<string>, at: int) {
    forall k, i | 0 <= k < |handed| && i in handed[k].inputs && i in inputs :: at >= handed[k].at + handed[k].hold
  }

  lemma ClearLater(handed: seq<Handed>, inputs: seq<string>, some: seq<string>, at: int, later: int)
    requires ClearBy(handed, inputs, at) && at <= later && forall i | i in some :: i in inputs
    ensures ClearBy(handed, some, later)
  {
  }

  /** While a tidy has the lock, what it read is free of every earlier hold. */
  predicate TidyIsClear(w: Wallet) {
    match w.tidy
    case Idle => true
    case Planning(listed) => ClearBy(w.handed, listed, w.now)
    case Submitting(inputs) =>
      w.handed != [] && w.handed[|w.handed| - 1].inputs == inputs && ClearBy(w.handed[..|w.handed| - 1], inputs, w.now)
  }

  predicate Sound(w: Wallet, pending: nat) {
    AllGuarded(w, pending) && Apart(w.handed) && TidyIsClear(w)
  }

  /** A free input is past every hold on it. */
  lemma FreeIsPast(w: Wallet, pending: nat, inputs: seq<string>, at: int)
    requires AllGuarded(w, pending) && w.now <= at && FirstBusy(w.inFlight, inputs, at, pending).None?
    ensures ClearBy(w.handed, inputs, at)
  {
    forall k, i | 0 <= k < |w.handed| && i in w.handed[k].inputs
    && i in inputs ensures at >= w.handed[k].at + w.handed[k].hold {
      assert Guarded(w, pending, w.handed[k], i) && !Busy(w.inFlight, i, at, pending);
    }
  }

  /** Booking inputs whose holds have passed guards them anew, and every other as before. */
  lemma BookingKeeps(w: Wallet, w': Wallet, pending: nat, h: Handed, at: int)
    requires AllGuarded(w, pending) && Apart(w.handed)
    requires w.now <= w'.now == h.at && w'.handed == w.handed + [h]
    requires w'.inFlight == Booked(w.inFlight, h.inputs, at) && at + pending >= h.at + h.hold
    requires ClearBy(w.handed, h.inputs, h.at)
    ensures AllGuarded(w', pending) && Apart(w'.handed)
  {
    forall k, i | 0 <= k < |w'.handed| && i in w'.handed[k].inputs ensures Guarded(w', pending, w'.handed[k], i) {
      if k < |w.handed| {
        assert w'.handed[k] == w.handed[k] && Guarded(w, pending, w.handed[k], i);
      }
    }
  }

  /** Time passing, with the map and the transactions as they were, unguards nothing. */
  lemma WaitingKeeps(w: Wallet, w': Wallet, pending: nat)
    requires AllGuarded(w, pending) && w.now <= w'.now && w'.inFlight == w.inFlight && w'.handed == w.handed
    ensures AllGuarded(w', pending)
  {
    forall k, i | 0 <= k < |w'.handed| && i in w'.handed[k].inputs ensures Guarded(w', pending, w'.handed[k], i) {
      assert Guarded(w, pending, w.handed[k], i);
    }
  }

  lemma RefusalKeeps(w: Wallet, pending: nat)
    requires Sound(w, pending) && w.tidy.Submitting?
    ensures Sound(Do(w, TidyRefused, pending), pending)
  {
    var w' := Do(w, TidyRefused, pending);
    forall k, i | 0 <= k < |w'.handed| && i in w'.handed[k].inputs ensures Guarded(w', pending, w'.handed[k], i) {
      assert w'.handed[k] == w.handed[k] && Guarded(w, pending, w.handed[k], i);
    }
  }

  lemma ExactIsClear(w: Wallet, a: Action, pending: nat)
    requires AllGuarded(w, pending) && a.Exact? && Possible(w, a, pending)
    ensures ClearBy(w.handed, a.inputs, a.bookedAt) && w.now <= a.bookedAt
  {
    FreeIsPast(w, pending, a.inputs, a.checkedAt);
    ClearLater(w.handed, a.inputs, a.inputs, a.checkedAt, a.bookedAt);
  }

  lemma ExactKeeps(w: Wallet, a: Action, pending: nat)
    requires AllGuarded(w, pending) && Apart(w.handed) && a.Exact? && Possible(w, a, pending)
    ensures AllGuarded(Do(w, a, pending), pending) && Apart(Do(w, a, pending).handed)
  {
    ExactIsClear(w, a, pending);
    BookingKeeps(w, Do(w, a, pending), pending, Handed(a.inputs, a.bookedAt, a.hold), a.bookedAt - pending + a.hold);
  }

  lemma ReadingKeeps(w: Wallet, a: Action, pending: nat)
    requires AllGuarded(w, pending) && Apart(w.handed) && a.TidyReads? && Possible(w, a, pending)
    ensures Sound(Do(w, a, pending), pending)
  {
    FreeIsPast(w, pending, a.listed, a.at);
    WaitingKeeps(w, Do(w, a, pending), pending);
  }

  lemma SubmittingKeeps(w: Wallet, a: Action, pending: nat)
    requires Sound(w, pending) && a.TidySubmits? && Possible(w, a, pending)
    ensures Sound(Do(w, a, pending), pending)
  {
    ClearLater(w.handed, w.tidy.listed, a.inputs, w.now, a.at);
    BookingKeeps(w, Do(w, a, pending), pending, Handed(a.inputs, a.at, pending), a.at);
    assert Do(w, a, pending).handed[..|w.handed|] == w.handed;
  }

  lemma ActionKeeps(w: Wallet, a: Action, pending: nat)
    requires Sound(w, pending) && Possible(w, a, pending)
    ensures Sound(Do(w, a, pending), pending)
  {
    match a
    case Exact(_, _, _, _, _, _) => ExactKeeps(w, a, pending);
    case TidyReads(_, _) => ReadingKeeps(w, a, pending);
    case TidyGivesUp => WaitingKeeps(w, Do(w, a, pending), pending);
    case TidySubmits(_, _) => SubmittingKeeps(w, a, pending);
    case TidyStands => WaitingKeeps(w, Do(w, a, pending), pending);
    case TidyRefused => RefusalKeeps(w, pending);
  }

  function After(actions: seq<Action>, pending: nat): Wallet {
    if actions == [] then START
    else
      var w := After(actions[..|actions| - 1], pending);
      if Possible(w, actions[|actions| - 1], pending) then Do(w, actions[|actions| - 1], pending) else w
  }

  /**
   * Over every run of payments and tidies, whatever the sellers' windows and however the submits end,
   * two transactions that share an input are booked at least the first one's hold apart.
   */
  lemma {:induction false} NoSharedInputWhileHeld(actions: seq<Action>, pending: nat)
    ensures Apart(After(actions, pending).handed) && Sound(After(actions, pending), pending)
  {
    if actions != [] {
      NoSharedInputWhileHeld(actions[..|actions| - 1], pending);
      var w, a := After(actions[..|actions| - 1], pending), actions[|actions| - 1];
      if Possible(w, a, pending) { ActionKeeps(w, a, pending); }
    }
  }
}
