/**
 * The server's game session (src/server/ChessGame.java) as a function of
 * what the two clients send: the turn loop of `run`, the `error` path and
 * the final verdict. The ChessGame class (chess_game.dfy) is proved to
 * produce exactly the outcome `Game` computes.
 */
module Referee {
  import opened Wrappers
  import opened Pieces
  import opened BoardState
  import opened Protocol
  import opened Connections

  /** `clients[0]` and `clients[1]`. */
  datatype Table = Table(first: Peer, second: Peer)

  function Seat(t: Table, i: nat): Peer
    requires i < 2
  {
    if i == 0 then t.first else t.second
  }

  function WithSeat(t: Table, i: nat, p: Peer): (r: Table)
    requires i < 2
    ensures Seat(r, i) == p && Seat(r, 1 - i) == Seat(t, 1 - i)
  {
    if i == 0 then t.(first := p) else t.(second := p)
  }

  /** `clients[i]` writes message `m`. */
  function Tell(t: Table, i: nat, m: Message): Table
    requires i < 2
  {
    WithSeat(t, i, Write(Seat(t, i), Format(m)))
  }

  /** `clients[0]` then `clients[1]` write `m`. */
  function TellBoth(t: Table, m: Message): Table
  {
    Tell(Tell(t, 0, m), 1, m)
  }

  function CloseBoth(t: Table): Table
  {
    Table(Close(t.first), Close(t.second))
  }

  /** Inputs not yet read from either client; every turn reads one. */
  function Pending(t: Table): nat
  {
    |t.first.inbox| + |t.second.inbox|
  }

  /** How `run` ends: the loop condition, a `break` after `error()`, or an exception that kills the thread. */
  datatype Ending = Finished | Errored | Crashed

  datatype Outcome = Outcome(ending: Ending, state: BoardState, table: Table)

  /** One pass of the loop body: either the loop goes on with the next player, or it stops. */
  datatype Step = Next(state: BoardState, table: Table) | Stop(outcome: Outcome)

  /**
   * The loop body for player `mover`: MAKE_MOVE, read the reply, and apply
   * it with `pieceAt` and `movePiece` (no legality check), echoing MOVE_MADE
   * to `clients[0]` and then `clients[1]`. A null read, a first token other
   * than MOVE, an off-board or empty start square and a failed `movePiece`
   * take the error path; a read failure has already run `error()` through the
   * callback and ends the same way. An empty token list, a short MOVE or a
   * bad number throws out of `run`.
   */
  function Turn(s: BoardState, t: Table, mover: nat): (r: Step)
    requires WellFormed(s) && HasRosters(s) && mover < 2
    ensures r.Next? ==> WellFormed(r.state) && HasRosters(r.state) && Pending(r.table) < Pending(t)
    ensures r.Stop? ==> r.outcome.ending != Finished && WellFormed(r.outcome.state) && HasRosters(r.outcome.state)
  {
    var t1 := Tell(t, mover, MakeMove);
    var rc := ReadCommand(Seat(t1, mover));
    Respond(s, WithSeat(t1, mover, rc.peer), Tokens(rc.result))
  }

  /** What the loop does with the tokens read (`None` for a null line), once the reply has been consumed. */
  function Respond(s: BoardState, t: Table, tokens: Option<seq<string>>): (r: Step)
    requires WellFormed(s) && HasRosters(s)
    ensures r.Next? ==> WellFormed(r.state) && HasRosters(r.state) && Pending(r.table) == Pending(t)
    ensures r.Stop? ==> r.outcome.ending != Finished && WellFormed(r.outcome.state) && HasRosters(r.outcome.state)
  {
    match tokens
    case None => Stop(Outcome(Errored, s, TellBoth(t, Error)))
    case Some(move) =>
      match ReadMove(move)
      case Crash => Stop(Outcome(Crashed, s, t))
      case NotMove => Stop(Outcome(Errored, s, TellBoth(t, Error)))
      case MoveTo(a, b, c, d) =>
        var m := MoveFrom(s, a, b, c, d);
        if m.error.Some? then Stop(Outcome(Errored, m.state, TellBoth(t, Error)))
        else Next(m.state, TellBoth(t, MoveMade(a, b, c, d)))
  }

  /** The loop's update `moveNum = (moveNum + 1) % 2`: the other player. */
  function NextMover(mover: nat): (r: nat)
    requires mover < 2
    ensures r < 2 && r != mover
  {
    (mover + 1) % 2
  }

  /** The turn loop from player `mover` on: it runs while no king is dead. */
  function Play(s: BoardState, t: Table, mover: nat): (r: Outcome)
    requires WellFormed(s) && HasRosters(s) && mover < 2
    ensures WellFormed(r.state) && HasRosters(r.state)
    ensures r.ending == Finished ==> GameOver(r.state)
    decreases Pending(t)
  {
    if GameOver(s) then Outcome(Finished, s, t)
    else match Turn(s, t, mover)
      case Stop(o) => o
      case Next(s', t') => Play(s', t', NextMover(mover))
  }

  /** While no king is dead, the loop runs one more turn. */
  lemma PlayStep(s: BoardState, t: Table, mover: nat)
    requires WellFormed(s) && HasRosters(s) && mover < 2 && !GameOver(s)
    ensures Play(s, t, mover) == match Turn(s, t, mover)
                                 case Stop(o) => o
                                 case Next(s', t') => Play(s', t', NextMover(mover))
  {
  }

  /** The verdict after a loop that ended without error. */
  function Announce(t: Table, winner: Color): Table
  {
    if winner == Black then Tell(Tell(t, 0, GameWon), 1, GameLost)
    else if winner == White then Tell(Tell(t, 1, GameWon), 0, GameLost)
    else TellBoth(t, GameTied)
  }

  /** The whole of `run` from board `s`; the game's constructor supplies `InitialState()`. */
  function Game(s: BoardState, t: Table): (r: Outcome)
    requires WellFormed(s) && HasRosters(s)
    ensures WellFormed(r.state) && HasRosters(r.state)
  {
    var o := Play(s, TellBoth(t, StartGame), 0);
    match o.ending
    case Crashed => o
    case Errored => o.(table := CloseBoth(o.table))
    case Finished => o.(table := CloseBoth(Announce(o.table, Winner(o.state))))
  }
}
