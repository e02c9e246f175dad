/**
 * The board object (src/chess/ChessBoard.java): 64 Place objects, the pieces,
 * the two rosters, the two captured lists, the turn flag and the status.
 * Each method is proved to leave the board in the state the matching function
 * of module BoardState computes from the old state.
 */
module Chess {
  import opened Wrappers
  import opened Pieces
  import opened BoardState
  import BS = BoardState
  import opened Places
  import opened Rules

  /** `ChessBoard.Status`; the ERROR status carries its message. */
  datatype Status = IWon | ILost | Tie | Error(message: string)

  /** The colour the board constructor gives the square (row, col). */
  function SquareColor(row: int, col: int): Color
  {
    ParityColor((row + col) % 2)
  }

  class ChessBoard {
    /** `board[row][col]` is `board[Idx(row, col)]`. */
    const board: seq<Place>
    /** Every piece created for this board, by id; Java's Piece objects. */
    var pieces: seq<Piece>
    var takenBlack: seq<PieceId>
    var takenWhite: seq<PieceId>
    var myTurn: bool
    /** `null` until the game ends. */
    var status: Option<Status>
    var white: seq<PieceId>
    var black: seq<PieceId>

    /** 64 distinct squares, and every id in the state names a piece. */
    ghost predicate Valid()
      reads this, board
    {
      && |board| == 64
      && (forall i, j :: 0 <= i < j < 64 ==> board[i] != board[j])
      && WellFormed(State())
    }

    /** The occupants of the 64 squares, in `Idx` order. */
    function Squares(): (sq: seq<Option<PieceId>>)
      reads board
      requires |board| == 64
      ensures |sq| == 64 && forall i :: 0 <= i < 64 ==> sq[i] == board[i].occupant
    {
      seq(64, i requires 0 <= i < 64 reads board => board[i].occupant)
    }

    /** The board as a value. */
    function State(): BoardState
      reads this, board
      requires |board| == 64
    {
      BoardState(Squares(), pieces, black, white, takenBlack, takenWhite)
    }

    /** `new ChessBoard()`: 64 empty squares coloured by parity, nothing else, not our turn. */
    constructor()
      ensures Valid() && State() == EmptyState()
      ensures forall row, col :: InBoard(row, col) ==> board[Idx(row, col)].color == SquareColor(row, col)
      ensures !myTurn && status == None
      ensures forall i :: 0 <= i < |board| ==> fresh(board[i])
    {
      var places: seq<Place> := [];
      for row := 0 to 8
        invariant |places| == row * 8
        invariant forall i :: 0 <= i < |places| ==> fresh(places[i])
        invariant forall i, j :: 0 <= i < j < |places| ==> places[i] != places[j]
        invariant forall i :: 0 <= i < |places| ==> places[i].occupant == None
        invariant forall r, c :: InBoard(r, c) && r < row ==> places[Idx(r, c)].color == SquareColor(r, c)
      {
        for col := 0 to 8
          invariant |places| == row * 8 + col
          invariant forall i :: 0 <= i < |places| ==> fresh(places[i])
          invariant forall i, j :: 0 <= i < j < |places| ==> places[i] != places[j]
          invariant forall i :: 0 <= i < |places| ==> places[i].occupant == None
          invariant forall r, c :: InBoard(r, c) && (r < row || (r == row && c < col)) ==>
                      places[Idx(r, c)].color == SquareColor(r, c)
        {
          var place := new Place((row + col) % 2);
          places := places + [place];
        }
      }
      board := places;
      pieces := [];
      takenBlack := [];
      takenWhite := [];
      white := [];
      black := [];
      myTurn := false;
      status := None;
      new;
      assert Squares() == EmptyState().squares;
    }
 
    /** Replace the occupant of one square; every other square keeps its occupant. */
    method Put(i: nat, p: Option<PieceId>) returns (prev: Option<PieceId>)
      requires Valid() && i < 64 && (p.Some? ==> p.value < |pieces|)
      modifies board[i]
      ensures Valid() && prev == old(Squares())[i] && Squares() == old(Squares())[i := p]
    {
      prev := board[i].SetPiece(p);
      assert Squares() == old(Squares())[i := p];
    }

    /** `addPiece` of a newly created piece `p`: `p` gets the next id. */
    method AddPiece(p: Piece)
      requires Valid() && InBoard(p.row, p.col)
      modifies this, board[Idx(p.row, p.col)]
      ensures Valid() && State() == BS.AddPiece(old(State()), p)
      ensures myTurn == old(myTurn) && status == old(status)
    {
      ghost var s0 := State();
      var id := |pieces|;
      pieces := pieces + [p];
      assert State() == s0.(pieces := s0.pieces + [p]);
      var _ := Put(Idx(p.row, p.col), Some(id));
      assert State() == s0.(squares := s0.squares[Idx(p.row, p.col) := Some(id)], pieces := s0.pieces + [p]);
      if p.color == Black {
        black := black + [id];
      } else {
        white := white + [id];
      }
      assert State() == BS.AddPiece(s0, p);
    }
 
    /** `initColor`: a row of eight pawns, then castles, bishops, knights, queen and king (the PieceSet order). */
    method InitColor(color: Color)
      requires Valid()
      modifies this, board
      ensures Valid() && State() == AddAll(old(State()), Lineup(color))
      ensures myTurn == old(myTurn) && status == old(status)
    {
      ghost var s0 := State();
      AddPawns(color, s0);
      AddMajors(color, s0);
    }

    /** The pawn loop of `initColor`: pawn i on (i, pawnCol). */
    method AddPawns(color: Color, ghost s0: BoardState)
      requires Valid() && State() == s0
      modifies this, board
      ensures Valid() && AllInBoard(Lineup(color)[..8]) && State() == AddAll(s0, Lineup(color)[..8])
      ensures myTurn == old(myTurn) && status == old(status)
    {
      var pawnCol := if color == Black then 1 else 6;
      ghost var line := Lineup(color);
      LineupInBoard(color);
      assert line[..0] == [];
      for i := 0 to 8
        invariant Valid() && State() == AddAll(s0, line[..i])
        invariant myTurn == old(myTurn) && status == old(status)
      {
        LineupAt(color, i);
        AddNext(NewPawn(color, i, pawnCol), s0, line, i);
      }
    }

    /** One `addPiece` of the lineup: the state grows from the first i pieces to the first i + 1. */
    method AddNext(p: Piece, ghost s0: BoardState, ghost line: seq<Piece>, ghost i: nat)
      requires Valid() && |s0.squares| == 64 && AllInBoard(line) && i < |line| && p == line[i]
      requires AllInBoard(line[..i]) && State() == AddAll(s0, line[..i])
      modifies this, board
      ensures Valid() && State() == AddAll(s0, line[..i + 1])
      ensures myTurn == old(myTurn) && status == old(status)
    {
      AddAllNext(s0, line, i);
      AddPiece(p);
    }

    /** The eight explicit `addPiece` calls of `initColor`, in their order, on column majorCol. */
    method AddMajors(color: Color, ghost s0: BoardState)
      requires Valid() && |s0.squares| == 64
      requires AllInBoard(Lineup(color)[..8]) && State() == AddAll(s0, Lineup(color)[..8])
      modifies this, board
      ensures Valid() && State() == AddAll(s0, Lineup(color))
      ensures myTurn == old(myTurn) && status == old(status)
    {
      var majorCol := if color == Black then 0 else 7;
      ghost var line := Lineup(color);
      LineupInBoard(color);
      for j := 0 to 8
        invariant Valid() && State() == AddAll(s0, line[..8 + j])
        invariant myTurn == old(myTurn) && status == old(status)
      {
        LineupAt(color, 8 + j);
        AddNext(NewPiece(MajorKind(j), color, MajorRow(j), majorCol), s0, line, 8 + j);
      }
      assert line[..16] == line;
    }

    /** `initBoard`: the black pieces, then the white ones. */
    method InitBoard()
      requires Valid()
      modifies this, board
      ensures Valid() && State() == AddAll(AddAll(old(State()), Lineup(Black)), Lineup(White))
      ensures old(State()) == EmptyState() ==> State() == InitialState()
      ensures myTurn == old(myTurn) && status == old(status)
    {
      InitColor(Black);
      InitColor(White);
    }

    /** `pieceAt`. */
    function PieceAt(row: int, col: int): (r: Option<PieceId>)
      reads this, board
      requires Valid() && InBoard(row, col)
      ensures r == BS.PieceAt(State(), row, col)
    {
      board[Idx(row, col)].occupant
    }

    /** `takePiece`: record the piece in the captured list of its colour and kill it. */
    method TakePiece(t: PieceId)
      requires Valid() && t < |pieces|
      modifies this
      ensures Valid() && State() == BS.TakePiece(old(State()), t)
      ensures myTurn == old(myTurn) && status == old(status)
    {
      ghost var s := State();
      var c := pieces[t].color;
      if c == White {
        takenWhite := takenWhite + [t];
      } else if c == Black {
        takenBlack := takenBlack + [t];
      }
      pieces := pieces[t := Killed(pieces[t])];
      assert State() == BS.TakePiece(s, t);
    }

    /** `movePiece(p, row, col)` for the piece with id `id`; `err` is the exception raised, if any. */
    method MovePiece(id: PieceId, row: int, col: int) returns (err: Option<MoveError>)
      requires Valid() && id < |pieces|
      modifies this, board
      ensures Valid()
      ensures var r := BS.MovePiece(old(State()), id, row, col);
              State() == r.state && err == r.error
      ensures myTurn == old(myTurn) && status == old(status)
    {
      ghost var s := State();
      var p := pieces[id];
      var src := Idx(p.row, p.col);
      var toMove := Put(src, None);
      ghost var s1 := s.(squares := s.squares[src := None]);
      assert State() == s1;
      if toMove != Some(id) {
        assert BS.MovePiece(s, id, row, col) == MoveResult(s1, Some(StateMismatch));
        return Some(StateMismatch);
      }
      if !InBoard(row, col) {
        assert BS.MovePiece(s, id, row, col) == MoveResult(s1, Some(OutOfBoard));
        return Some(OutOfBoard);
      }
      Land(id, row, col);
      err := None;
    }

    /** What `movePiece` does once the source square is cleared and the destination is on the board. */
    method Land(id: PieceId, row: int, col: int)
      requires Valid() && id < |pieces| && InBoard(row, col)
      modifies this, board
      ensures Valid() && State() == BS.Land(old(State()), id, row, col)
      ensures myTurn == old(myTurn) && status == old(status)
    {
      ghost var s1 := State();
      var dst := Idx(row, col);
      var taken := Put(dst, Some(id));
      ghost var s2 := s1.(squares := s1.squares[dst := Some(id)]);
      assert State() == s2 && taken == s1.squares[dst];
      if taken.Some? {
        TakePiece(taken.value);
      }
      ghost var s3 := if taken.Some? then BS.TakePiece(s2, taken.value) else s2;
      assert State() == s3;
      pieces := pieces[id := Moved(pieces[id], row, col)];
      assert State() == BS.Land(s1, id, row, col);
    }

    /**
     * `moveMade`: move the piece on the start square. On success the turn
     * passes (`myTurn` flips once); on any failure it does not.
     */
    method MoveMade(startRow: int, startCol: int, row: int, col: int) returns (err: Option<MoveError>)
      requires Valid()
      modifies this, board
      ensures Valid()
      ensures var r := MoveFrom(old(State()), startRow, startCol, row, col);
              State() == r.state && err == r.error
      ensures myTurn == (if err.None? then !old(myTurn) else old(myTurn))
      ensures status == old(status)
    {
      if !InBoard(startRow, startCol) {
        return Some(OutOfBoard);
      }
      var p := PieceAt(startRow, startCol);
      if p.None? {
        return Some(EmptySource);
      }
      err := MovePiece(p.value, row, col);
      if err.Some? {
        return;
      }
      myTurn := !myTurn;
    }

    /** `makeMove`: it is now this player's turn. */
    method MakeMove()
      requires Valid()
      modifies this
      ensures Valid() && myTurn && State() == old(State()) && status == old(status)
    {
      myTurn := true;
    }

    /** `start`: the game starts with the other player to move. */
    method Start()
      requires Valid()
      modifies this
      ensures Valid() && !myTurn && State() == old(State()) && status == old(status)
    {
      myTurn := false;
    }

    /** `gameWon`, `gameLost`, `gameTied` and `error(message)`: record how the game ended. */
    method SetStatus(s: Status)
      requires Valid()
      modifies this
      ensures Valid() && status == Some(s) && State() == old(State()) && myTurn == old(myTurn)
    {
      status := Some(s);
    }

    /**
     * `check(c)`: scan the other colour's roster, skipping kings, for a living
     * piece whose rule accepts c's king square.
     */
    method Check(c: Color) returns (b: bool)
      requires Valid() && HasRosters(State())
      ensures b == InCheck(State(), c)
    {
      var king := pieces[GetPiece(State(), c, KingSlot)];
      var other := if c == Black then white else black;
      var i := 0;
      while i < |other|
        invariant 0 <= i <= |other|
        invariant forall k :: 0 <= k < i ==> !Threatens(State(), other[k], king.row, king.col)
      {
        var opponent := other[i];
        if !pieces[opponent].kind.King? {
          if !pieces[opponent].dead && CheckMove(State(), opponent, king.row, king.col) {
            assert other == Opponents(State(), c) && Threatens(State(), other[i], king.row, king.col);
            return true;
          }
        }
        i := i + 1;
      }
      return false;
    }
  }


  /** One more `addPiece` extends the pieces already added by the next one of the list. */
  lemma AddAllNext(s: BoardState, ps: seq<Piece>, i: nat)
    requires |s.squares| == 64 && AllInBoard(ps) && i < |ps|
    ensures AllInBoard(ps[..i]) && AllInBoard(ps[..i + 1])
    ensures AddAll(s, ps[..i + 1]) == BS.AddPiece(AddAll(s, ps[..i]), ps[i])
  {
    assert ps[..i + 1][..i] == ps[..i];
  }
}
