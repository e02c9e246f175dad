/**
 * The state of a ChessBoard (src/chess/ChessBoard.java) as a value: the 8x8
 * grid flattened to 64 squares holding optional piece ids, the arena of
 * pieces the ids index, the two rosters and the two captured lists.
 * The ChessBoard class (chess_board.dfy) keeps exactly this state in its
 * fields; the functions here specify its methods and its pure queries.
 */
module BoardState {
  import opened Wrappers
  import opened Pieces

  type PieceId = nat

  /** ChessBoard.PieceSet; `Ordinal` is `ordinal()`. */
  datatype PieceSet =
    | Pawn1 | Pawn2 | Pawn3 | Pawn4 | Pawn5 | Pawn6 | Pawn7 | Pawn8
    | Castle1 | Castle2 | Bishop1 | Bishop2 | Knight1 | Knight2 | QueenSlot | KingSlot

  function Ordinal(p: PieceSet): (k: nat)
    ensures k < 16
  {
    match p
    case Pawn1 => 0  case Pawn2 => 1  case Pawn3 => 2  case Pawn4 => 3
    case Pawn5 => 4  case Pawn6 => 5  case Pawn7 => 6  case Pawn8 => 7
    case Castle1 => 8  case Castle2 => 9  case Bishop1 => 10  case Bishop2 => 11
    case Knight1 => 12  case Knight2 => 13  case QueenSlot => 14  case KingSlot => 15
  }

  predicate InBoard(row: int, col: int)
  {
    0 <= row < 8 && 0 <= col < 8
  }

  /** Position of `board[row][col]` in the flattened grid. */
  function Idx(row: int, col: int): (i: nat)
    requires InBoard(row, col)
    ensures i < 64
  {
    row * 8 + col
  }

  lemma IdxInjective(r1: int, c1: int, r2: int, c2: int)
    requires InBoard(r1, c1) && InBoard(r2, c2)
    ensures Idx(r1, c1) == Idx(r2, c2) <==> r1 == r2 && c1 == c2
  {
  }

  datatype BoardState = BoardState(
    squares: seq<Option<PieceId>>,
    pieces: seq<Piece>,
    black: seq<PieceId>,
    white: seq<PieceId>,
    takenBlack: seq<PieceId>,
    takenWhite: seq<PieceId>)

  /** The shape every reachable board has: 64 squares, every id names an arena piece, every piece is on the board. */
  predicate WellFormed(s: BoardState)
  {
    && |s.squares| == 64
    && (forall i :: 0 <= i < 64 && s.squares[i].Some? ==> s.squares[i].value < |s.pieces|)
    && (forall id :: 0 <= id < |s.pieces| ==> InBoard(s.pieces[id].row, s.pieces[id].col))
    && (forall k :: 0 <= k < |s.black| ==> s.black[k] < |s.pieces|)
    && (forall k :: 0 <= k < |s.white| ==> s.white[k] < |s.pieces|)
    && (forall k :: 0 <= k < |s.takenBlack| ==> s.takenBlack[k] < |s.pieces|)
    && (forall k :: 0 <= k < |s.takenWhite| ==> s.takenWhite[k] < |s.pieces|)
  }

  /** Both rosters are filled, so `getPiece` of any slot is defined. */
  predicate HasRosters(s: BoardState)
  {
    |s.black| >= 16 && |s.white| >= 16
  }

  /** `pieceAt`. */
  function PieceAt(s: BoardState, row: int, col: int): Option<PieceId>
    requires |s.squares| == 64 && InBoard(row, col)
  {
    s.squares[Idx(row, col)]
  }

  /** The square a piece's coordinates name. */
  function Home(s: BoardState, id: PieceId): nat
    requires WellFormed(s) && id < |s.pieces|
  {
    Idx(s.pieces[id].row, s.pieces[id].col)
  }

  /** `getPiece`: BLACK reads the black roster, every other colour the white one. */
  function GetPiece(s: BoardState, color: Color, slot: PieceSet): (id: PieceId)
    requires WellFormed(s) && HasRosters(s)
    ensures id < |s.pieces|
  {
    if color == Black then s.black[Ordinal(slot)] else s.white[Ordinal(slot)]
  }

  /**
   * The placement invariant: every living piece stands on the square its
   * coordinates name, every occupied square holds a living piece whose
   * coordinates name that square, and captured pieces are dead.
   */
  predicate Consistent(s: BoardState)
    requires WellFormed(s)
  {
    && (forall id :: 0 <= id < |s.pieces| && !s.pieces[id].dead ==> s.squares[Home(s, id)] == Some(id))
    && (forall i :: 0 <= i < 64 && s.squares[i].Some? ==>
          !s.pieces[s.squares[i].value].dead && Home(s, s.squares[i].value) == i)
    && (forall k :: 0 <= k < |s.takenBlack| ==> s.pieces[s.takenBlack[k]].dead)
    && (forall k :: 0 <= k < |s.takenWhite| ==> s.pieces[s.takenWhite[k]].dead)
  }

  /* ---------- construction: the ChessBoard constructor, addPiece, initColor ---------- */

  /** A new ChessBoard: 64 empty squares, empty rosters and captured lists. */
  function EmptyState(): BoardState
  {
    BoardState(seq(64, i => None), [], [], [], [], [])
  }

  /** `addPiece`: put the piece on its square and append it to its colour's roster (BLACK, else white). */
  function AddPiece(s: BoardState, p: Piece): (r: BoardState)
    requires |s.squares| == 64 && InBoard(p.row, p.col)
    ensures WellFormed(s) ==> WellFormed(r)
  {
    var id := |s.pieces|;
    var s1 := s.(squares := s.squares[Idx(p.row, p.col) := Some(id)], pieces := s.pieces + [p]);
    if p.color == Black then s1.(black := s.black + [id]) else s1.(white := s.white + [id])
  }

  predicate AllInBoard(ps: seq<Piece>)
  {
    forall k :: 0 <= k < |ps| ==> InBoard(ps[k].row, ps[k].col)
  }

  /** `addPiece` applied to each piece of `ps` in order. */
  function AddAll(s: BoardState, ps: seq<Piece>): BoardState
    requires |s.squares| == 64 && AllInBoard(ps)
    ensures |AddAll(s, ps).squares| == 64
  {
    if ps == [] then s
    else AddPiece(AddAll(s, ps[..|ps| - 1]), ps[|ps| - 1])
  }

  function PawnCol(c: Color): int { if c == Black then 1 else 6 }
  function MajorCol(c: Color): int { if c == Black then 0 else 7 }

  /** The row of the major piece in slot `8 + j` (castles, bishops, knights, queen, king). */
  function MajorRow(j: nat): int
    requires j < 8
  {
    [0, 7, 2, 5, 1, 6, 3, 4][j]
  }

  function MajorKind(j: nat): Kind
    requires j < 8
  {
    [Castle, Castle, Bishop, Bishop, Knight, Knight, Queen, King][j]
  }

  /** The 16 pieces `initColor` adds, in the order it adds them (the PieceSet order). */
  function Lineup(c: Color): (ps: seq<Piece>)
    ensures |ps| == 16
  {
    seq(8, i => NewPawn(c, i, PawnCol(c)))
    + seq(8, j requires 0 <= j < 8 => NewPiece(MajorKind(j), c, MajorRow(j), MajorCol(c)))
  }

  /** The k-th piece of a lineup: a pawn for k < 8, else the (k - 8)-th major piece. */
  lemma LineupAt(c: Color, k: nat)
    requires k < 16
    ensures k < 8 ==> Lineup(c)[k] == NewPawn(c, k, PawnCol(c))
    ensures k >= 8 ==> Lineup(c)[k] == NewPiece(MajorKind(k - 8), c, MajorRow(k - 8), MajorCol(c))
  {
  }

  /** `new ChessBoard()` followed by `initBoard()`: black first, then white. */
  function InitialState(): BoardState
  {
    LineupInBoard(Black);
    LineupInBoard(White);
    AddAll(AddAll(EmptyState(), Lineup(Black)), Lineup(White))
  }

  lemma LineupInBoard(c: Color)
    ensures AllInBoard(Lineup(c))
  {
  }

  /* ---------- movePiece and takePiece ---------- */

  datatype MoveError =
    | StateMismatch   // the ChessException: p is not on the square its coordinates name
    | OutOfBoard      // an index outside the 8x8 array
    | EmptySource     // no piece on the square a move starts from

  datatype MoveResult = MoveResult(state: BoardState, error: Option<MoveError>)

  /** `takePiece`: append to the captured list of the piece's own colour (none for NONE) and kill it. */
  function TakePiece(s: BoardState, t: PieceId): BoardState
    requires t < |s.pieces|
  {
    var c := s.pieces[t].color;
    var s1 := if c == White then s.(takenWhite := s.takenWhite + [t])
              else if c == Black then s.(takenBlack := s.takenBlack + [t])
              else s;
    s1.(pieces := s.pieces[t := Killed(s.pieces[t])])
  }

  /**
   * `movePiece(p, row, col)`. The source square is cleared first; if it did not
   * hold p the move fails with the square already cleared. An off-board
   * destination fails at the same point (Java's index exception). Otherwise the
   * destination's occupant, of either colour, is taken, p is placed and moved.
   */
  function MovePiece(s: BoardState, id: PieceId, row: int, col: int): (r: MoveResult)
    requires WellFormed(s) && id < |s.pieces|
    ensures WellFormed(r.state) && |r.state.pieces| == |s.pieces|
    ensures r.state.black == s.black && r.state.white == s.white
  {
    var src := Home(s, id);
    var toMove := s.squares[src];
    var s1 := s.(squares := s.squares[src := None]);
    if toMove != Some(id) then MoveResult(s1, Some(StateMismatch))
    else if !InBoard(row, col) then MoveResult(s1, Some(OutOfBoard))
    else MoveResult(Land(s1, id, row, col), None)
  }

  /** The second half of a `movePiece` that got past both checks: take the destination's occupant, place p there and move it. */
  function Land(s: BoardState, id: PieceId, row: int, col: int): (r: BoardState)
    requires WellFormed(s) && id < |s.pieces| && InBoard(row, col)
    ensures WellFormed(r) && |r.pieces| == |s.pieces|
    ensures r.black == s.black && r.white == s.white
  {
    var dst := Idx(row, col);
    var taken := s.squares[dst];
    var s2 := s.(squares := s.squares[dst := Some(id)]);
    var s3 := if taken.Some? then TakePiece(s2, taken.value) else s2;
    s3.(pieces := s3.pieces[id := Moved(s3.pieces[id], row, col)])
  }

  /**
   * The piece found by `pieceAt(startRow, startCol)` moved by `movePiece` to
   * (row, col), as both `moveMade` and the server's turn loop do it: an
   * off-board start is an index error and an empty start square fails before
   * anything changes.
   */
  function MoveFrom(s: BoardState, startRow: int, startCol: int, row: int, col: int): (r: MoveResult)
    requires WellFormed(s)
    ensures WellFormed(r.state) && |r.state.pieces| == |s.pieces|
    ensures r.state.black == s.black && r.state.white == s.white
  {
    if !InBoard(startRow, startCol) then MoveResult(s, Some(OutOfBoard))
    else match PieceAt(s, startRow, startCol)
      case None => MoveResult(s, Some(EmptySource))
      case Some(id) => MovePiece(s, id, row, col)
  }

  /* ---------- queries ---------- */

  /** `gameOver`: either king is dead. */
  predicate GameOver(s: BoardState)
    requires WellFormed(s) && HasRosters(s)
  {
    s.pieces[GetPiece(s, Black, KingSlot)].dead || s.pieces[GetPiece(s, White, KingSlot)].dead
  }

  /** `getWinner`. */
  function Winner(s: BoardState): Color
    requires WellFormed(s) && HasRosters(s)
  {
    if s.pieces[GetPiece(s, Black, KingSlot)].dead then White
    else if s.pieces[GetPiece(s, White, KingSlot)].dead then Black
    else NoColor
  }
}
