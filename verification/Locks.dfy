/**
 * The daemon's two locks together: an agent's, and inside it the wallet's. A task under an agent's
 * lock may ask for the wallet's and wait for it; a tidy asks for the wallet's alone, and nothing
 * waits for it; nothing that holds the wallet's lock asks for another.
 */
module Locks {
  import opened Serialize
  import opened Wrappers

  /** `awaiting` is, for each task under an agent's lock, the wallet task it is waiting for. */
  datatype Daemon = Daemon(agents: Lock, wallet: Lock, awaiting: map<nat, nat>)

  const WALLET := ""

  datatype Move =
    | Agents(turn: Turn)
    | Wallet(turn: Turn)
    | AskWallet(n: nat)
    | Resume(n: nat)

  predicate Allowed(d: Daemon, move: Move) {
    match move
    case Agents(turn) =>
      Enabled(d.agents, turn) && (turn.Finish? ==> turn.n !in d.awaiting)
    case Wallet(turn) => Enabled(d.wallet, turn) && (turn.Call? ==> turn.key == WALLET)
    case AskWallet(n) => n < |d.agents.tasks| && d.agents.tasks[n].phase.Running? && n !in d.awaiting
    case Resume(n) =>
      n in d.awaiting && d.awaiting[n] < |d.wallet.tasks|
      && (d.wallet.tasks[d.awaiting[n]].phase.Finished? || Done(d.wallet.tasks[d.awaiting[n]]))
  }

  function Make(d: Daemon, move: Move): Daemon
    requires Allowed(d, move)
  {
    match move
    case Agents(turn) => d.(agents := Take(d.agents, turn))
    case Wallet(turn) => d.(wallet := Take(d.wallet, turn))
    case AskWallet(n) => d.(wallet := Take(d.wallet, Call(WALLET)), awaiting := d.awaiting[n := |d.wallet.tasks|])
    case Resume(n) => d.(awaiting := d.awaiting - {n})
  }

  predicate Good(d: Daemon) {
    && Inv(d.agents) && Inv(d.wallet)
    && (forall n | n in d.awaiting ::
          n < |d.agents.tasks| && d.agents.tasks[n].phase.Running? && d.awaiting[n] < |d.wallet.tasks|)
    && (forall w | 0 <= w < |d.wallet.tasks| :: d.wallet.tasks[w].key == WALLET)
  }

  lemma MoveKeeps(d: Daemon, move: Move)
    requires Good(d) && Allowed(d, move)
    ensures Good(Make(d, move))
  {
    match move
    case Agents(turn) =>
      TurnKeeps(d.agents, turn);
      TurnTouchesOne(d.agents, turn);
    case Wallet(turn) =>
      TurnKeeps(d.wallet, turn);
      TurnTouchesOne(d.wallet, turn);
    case AskWallet(n) =>
      TurnKeeps(d.wallet, Call(WALLET));
      TurnTouchesOne(d.wallet, Call(WALLET));
    case Resume(n) =>
  }

  /** A turn is of one task: it adds a waiting one, or moves one on, and no other changes. */
  lemma TurnTouchesOne(l: Lock, turn: Turn)
    requires Enabled(l, turn)
    ensures |Take(l, turn).tasks| >= |l.tasks|
    ensures forall n | 0 <= n < |l.tasks| :: Take(l, turn).tasks[n].key == l.tasks[n].key
    ensures forall n | 0 <= n < |l.tasks| && (turn.Call? || n != turn.n) :: Take(l, turn).tasks[n] == l.tasks[n]
    ensures forall n | |l.tasks| <= n < |Take(l, turn).tasks| :: turn.Call? && Take(l, turn).tasks[n].key == turn.key
  {
  }

  function After(moves: seq<Move>): Daemon {
    if moves == [] then Daemon(UNUSED, UNUSED, map[])
    else
      var d := After(moves[..|moves| - 1]);
      if Allowed(d, moves[|moves| - 1]) then Make(d, moves[|moves| - 1]) else d
  }

  lemma {:induction false} EveryRun(moves: seq<Move>)
    ensures Good(After(moves))
  {
    if moves != [] {
      EveryRun(moves[..|moves| - 1]);
      var d, move := After(moves[..|moves| - 1]), moves[|moves| - 1];
      if Allowed(d, move) { MoveKeeps(d, move); }
    }
  }

  predicate Idle(d: Daemon) {
    && (forall n | 0 <= n < |d.agents.tasks| :: Done(d.agents.tasks[n]))
    && (forall w | 0 <= w < |d.wallet.tasks| :: Done(d.wallet.tasks[w]))
  }

  function NextTurn(l: Lock, n: nat): Turn
    requires n < |l.tasks|
  {
    if l.tasks[n].phase.Waiting? then Start(n) else if l.tasks[n].phase.Running? then Finish(n, false) else Settle(n)
  }

  /**
   * No reachable state is deadlocked: while any task under either lock is unsettled, something other
   * than a new call can happen. If a wallet task is unsettled, the oldest one can move; if none is,
   * whoever waited for one can resume.
   */
  lemma NoDeadlock(moves: seq<Move>) returns (move: Move)
    requires !Idle(After(moves))
    ensures Allowed(After(moves), move) && !(move.Agents? && move.turn.Call?) && !(move.Wallet? && move.turn.Call?)
            && !move.AskWallet?
  {
    var d := After(moves);
    EveryRun(moves);
    if w :| 0 <= w < |d.wallet.tasks| && !Done(d.wallet.tasks[w]) {
      var oldest := OldestUnsettled(d.wallet, w);
      OldestCanMove(d.wallet, oldest);
      move := Wallet(NextTurn(d.wallet, oldest));
    } else {
      var n :| 0 <= n < |d.agents.tasks| && !Done(d.agents.tasks[n]);
      var oldest := OldestUnsettled(d.agents, n);
      OldestCanMove(d.agents, oldest);
      move := if oldest in d.awaiting then Resume(oldest) else Agents(NextTurn(d.agents, oldest));
    }
  }
}
