/**
 * The server's game thread (src/server/ChessGame.java): two connections, a
 * board, and the `error` flag the connections' callback sets. `Run` is
 * proved to end exactly as `Referee.Game` says, with the board and both
 * connections in the state it computes.
 */
module Games {
  import opened Wrappers
  import opened Pieces
  import opened BoardState
  import BS = BoardState
  import BoardInitLemmas
  import opened Text
  import opened Protocol
  import opened Connections
  import opened Referee
  import opened Chess

  /** How one pass of the loop body left the game: as `step` says, with `error` set exactly on the error path. */
  predicate Took(step: Step, stop: Option<Ending>, s: BoardState, t: Table, error: bool)
  {
    match step
    case Next(s', t') => stop == None && s == s' && t == t' && !error
    case Stop(o) => stop == Some(o.ending) && s == o.state && t == o.table && (error <==> o.ending == Errored)
  }

  /** `new ChessBoard()` followed by `initBoard()`, as the game's constructor does it. */
  method NewBoard() returns (b: ChessBoard)
    ensures fresh(b) && (forall i :: 0 <= i < |b.board| ==> fresh(b.board[i]))
    ensures b.Valid() && b.State() == InitialState() && HasRosters(b.State())
  {
    b := new ChessBoard();
    b.InitBoard();
    BoardInitLemmas.InitialReady();
  }

  class ChessGame {
    const clients: seq<Connection>
    const board: ChessBoard
    var error: bool

    ghost predicate Valid()
      reads this, board, board.board
    {
      |clients| == 2 && clients[0] != clients[1] && board.Valid() && HasRosters(board.State())
    }

    /** The two connections as values. */
    function Clients(): Table
      reads this, clients[0], clients[1]
      requires |clients| == 2
    {
      Table(clients[0].View(), clients[1].View())
    }

    /** A game over two distinct connections with a freshly initialised board. */
    constructor(playerOne: Connection, playerTwo: Connection)
      requires playerOne != playerTwo
      ensures Valid() && clients == [playerOne, playerTwo] && !error
      ensures board.State() == InitialState() && fresh(board) && forall i :: 0 <= i < |board.board| ==> fresh(board.board[i])
    {
      clients := [playerOne, playerTwo];
      error := false;
      var b := NewBoard();
      board := b;
    }

    /**
     * `run`: STARTGAME to both, register the callbacks, then the turn loop
     * from `clients[0]`, the verdict when the loop ended without error, and
     * both sockets closed. An exception the loop does not catch ends the
     * method at once with `Crashed`.
     */
    method Run() returns (ending: Ending)
      requires Valid() && !error
      modifies this, board, board.board, clients[0], clients[1]
      ensures Valid()
      ensures var g := Game(old(board.State()), old(Clients()));
              ending == g.ending && board.State() == g.state && Clients() == g.table
      ensures error <==> ending == Errored
    {
      ghost var s0 := board.State();
      ghost var t0 := Clients();
      Open();
      ghost var goal := Play(s0, TellBoth(t0, StartGame), 0);

      var moveNum: nat := 0;
      ending := Finished;
      while !BS.GameOver(board.State())
        invariant Valid() && moveNum < 2 && !error
        invariant clients[0].handlerSet && clients[1].handlerSet
        invariant Play(board.State(), Clients(), moveNum) == goal
        decreases Pending(Clients())
      {
        ghost var s := board.State();
        ghost var t := Clients();
        ghost var step := Turn(s, t, moveNum);
        PlayStep(s, t, moveNum);
        var stop := TakeTurn(moveNum);
        if stop == Some(Crashed) {
          assert goal == Outcome(Crashed, board.State(), Clients());
          return Crashed;
        } else if stop.Some? {
          ending := stop.value;
          assert goal == Outcome(ending, board.State(), Clients()) && ending == Errored;
          break;
        }
        assert step == Next(board.State(), Clients());
        assert Play(board.State(), Clients(), NextMover(moveNum)) == goal;
        moveNum := NextMover(moveNum);
      }
      assert goal == Outcome(ending, board.State(), Clients());
      assert error <==> ending == Errored;
      Finish();
    }

    /** The start of `run`: STARTGAME to both, then both callbacks registered. */
    method Open()
      requires Valid()
      modifies clients[0], clients[1]
      ensures Valid() && board.State() == old(board.State()) && Clients() == TellBoth(old(Clients()), StartGame)
      ensures clients[0].handlerSet && clients[1].handlerSet
    {
      clients[0].Startgame();
      clients[1].Startgame();
      clients[0].SetError();
      clients[1].SetError();
    }

    /** The end of `run`: the verdict unless `error` is set, then both sockets closed. */
    method Finish()
      requires Valid()
      modifies clients[0], clients[1]
      ensures Valid() && board.State() == old(board.State())
      ensures Clients() == CloseBoth(if error then old(Clients()) else Announce(old(Clients()), Winner(board.State())))
    {
      if !error {
        Verdict();
      }
      CloseAll();
    }

    /**
     * One pass of the loop body of `run` for `clients[moveNum]`: `None` when
     * the loop goes on, otherwise how it ends. The outcome is `Referee.Turn`'s.
     */
    method TakeTurn(moveNum: nat) returns (stop: Option<Ending>)
      requires Valid() && moveNum < 2 && !error && !BS.GameOver(board.State())
      requires clients[0].handlerSet && clients[1].handlerSet
      modifies this, board, board.board, clients[0], clients[1]
      ensures Valid() && clients[0].handlerSet && clients[1].handlerSet
      ensures Took(Turn(old(board.State()), old(Clients()), moveNum), stop, board.State(), Clients(), error)
    {
      ghost var s := board.State();
      ghost var t1 := Tell(Clients(), moveNum, Message.MakeMove);
      ghost var rc := ReadCommand(Seat(t1, moveNum));
      ghost var t2 := WithSeat(t1, moveNum, rc.peer);
      ghost var step := Turn(s, Clients(), moveNum);
      assert step == Respond(s, t2, Tokens(rc.result));
      var tokens := Exchange(moveNum);
      if tokens.None? {
        Error();
        return Some(Errored);
      }
      var move := tokens.value;
      match ReadMove(move)
      case Crash =>
        return Some(Crashed);
      case NotMove =>
        if !error {
          Error();
        }
        return Some(Errored);
      case MoveTo(startRow, startCol, row, col) =>
        assert !rc.failed && !error;
        stop := Advance(move);
    }

    /** The rest of the loop body for a well-formed MOVE: `pieceAt` and `movePiece`, then the echo or `error()`. */
    method Advance(move: seq<string>) returns (stop: Option<Ending>)
      requires Valid() && !error && ReadMove(move).MoveTo?
      modifies this, board, board.board, clients[0], clients[1]
      ensures Valid()
      ensures clients[0].handlerSet == old(clients[0].handlerSet) && clients[1].handlerSet == old(clients[1].handlerSet)
      ensures Took(Respond(old(board.State()), old(Clients()), Some(move)), stop, board.State(), Clients(), error)
    {
      var cmd := ReadMove(move);
      var err := Apply(cmd.startRow, cmd.startCol, cmd.row, cmd.col);
      if err.Some? {
        Error();
        return Some(Errored);
      }
      MoveMade(cmd.startRow, cmd.startCol, cmd.row, cmd.col);
      return None;
    }

    /**
     * MAKE_MOVE to `clients[moveNum]` and `parseCommand` on it; when the read
     * failed, the registered callback `error()` runs before the tokens are returned.
     */
    method Exchange(moveNum: nat) returns (tokens: Option<seq<string>>)
      requires Valid() && moveNum < 2 && !error && clients[0].handlerSet && clients[1].handlerSet
      modifies this, clients[0], clients[1]
      ensures Valid() && board.State() == old(board.State())
      ensures clients[0].handlerSet && clients[1].handlerSet
      ensures var t1 := Tell(old(Clients()), moveNum, Message.MakeMove);
              var rc := ReadCommand(Seat(t1, moveNum));
              var t2 := WithSeat(t1, moveNum, rc.peer);
              && tokens == Tokens(rc.result)
              && (rc.failed ==> error && Clients() == TellBoth(t2, Message.Error))
              && (!rc.failed ==> !error && Clients() == t2)
    {
      var player := clients[moveNum];
      player.MakeMove();
      var callback;
      tokens, callback := player.ParseCommand();
      if callback {
        Error();
      }
    }

    /** `pieceAt` and `movePiece` inside the loop's try: the error is that of `MoveFrom`. */
    method Apply(startRow: int, startCol: int, row: int, col: int) returns (err: Option<MoveError>)
      requires Valid()
      modifies board, board.board
      ensures Valid()
      ensures var r := MoveFrom(old(board.State()), startRow, startCol, row, col);
              board.State() == r.state && err == r.error
    {
      if !InBoard(startRow, startCol) {
        return Some(OutOfBoard);
      }
      var p := board.PieceAt(startRow, startCol);
      if p.None? {
        return Some(EmptySource);
      }
      err := board.MovePiece(p.value, row, col);
    }

    /** The verdict after a loop that ended without error (`getWinner` decides who hears GAME_WON). */
    method Verdict()
      requires Valid()
      modifies clients[0], clients[1]
      ensures Valid() && Clients() == Announce(old(Clients()), BS.Winner(board.State()))
      ensures board.State() == old(board.State())
    {
      var winner := BS.Winner(board.State());
      if winner == Black {
        clients[0].GameWon();
        clients[1].GameLost();
      } else if winner == White {
        clients[1].GameWon();
        clients[0].GameLost();
      } else {
        clients[0].GameTied();
        clients[1].GameTied();
      }
    }

    /** Both sockets closed at the end of `run`. */
    method CloseAll()
      requires Valid()
      modifies clients[0], clients[1]
      ensures Valid() && Clients() == CloseBoth(old(Clients()))
      ensures board.State() == old(board.State())
    {
      clients[0].CloseSocket();
      clients[1].CloseSocket();
    }

    /** The echo of a successful move: MOVE_MADE to `clients[0]`, then `clients[1]`. */
    method MoveMade(startRow: int, startCol: int, row: int, col: int)
      requires Valid()
      modifies clients[0], clients[1]
      ensures Valid() && Clients() == TellBoth(old(Clients()), Message.MoveMade(startRow, startCol, row, col))
      ensures board.State() == old(board.State())
      ensures clients[0].handlerSet == old(clients[0].handlerSet) && clients[1].handlerSet == old(clients[1].handlerSet)
    {
      clients[0].MoveMade(startRow, startCol, row, col);
      clients[1].MoveMade(startRow, startCol, row, col);
    }

    /** `error()`: set the flag and send ERROR to `clients[0]`, then `clients[1]`. */
    method Error()
      requires Valid()
      modifies this, clients[0], clients[1]
      ensures Valid() && error && Clients() == TellBoth(old(Clients()), Message.Error)
      ensures board.State() == old(board.State())
      ensures clients[0].handlerSet == old(clients[0].handlerSet) && clients[1].handlerSet == old(clients[1].handlerSet)
    {
      error := true;
      clients[0].Error();
      clients[1].Error();
    }
  }
}
