/**
 * The movement rules: `checkMove` of each piece class and the helpers of
 * src/chess/pieces/Piece.java it is built from, as predicates of the board
 * state. None of them changes anything.
 */
module Rules {
  import opened Wrappers
  import opened Pieces
  import opened BoardState

  /** A ray direction: each component in {-1, 0, 1}, not both zero. */
  predicate Unit(dr: int, dc: int)
  {
    -1 <= dr <= 1 && -1 <= dc <= 1 && (dr != 0 || dc != 0)
  }

  /** Steps left along one axis before leaving the board (the ray walk's termination measure). */
  function Remaining(x: int, d: int): int
  {
    if d > 0 then 8 - x else if d < 0 then x + 1 else 0
  }

  /** The target is empty or holds a piece of a colour other than `color`. */
  predicate EmptyOrEnemy(s: BoardState, color: Color, row: int, col: int)
    requires WellFormed(s) && InBoard(row, col)
  {
    match PieceAt(s, row, col)
    case None => true
    case Some(t) => s.pieces[t].color != color
  }

  /** The base `Piece.checkMove`: the target is empty or holds a piece of the other colour. */
  predicate BaseCheck(s: BoardState, id: PieceId, row: int, col: int)
    requires WellFormed(s) && id < |s.pieces| && InBoard(row, col)
  {
    EmptyOrEnemy(s, s.pieces[id].color, row, col)
  }

  /** `isAdjacent`: not the piece's own square, and neither coordinate differs by more than one. */
  predicate IsAdjacent(p: Piece, row: int, col: int)
  {
    if p.row == row && p.col == col then false
    else
      var rowTrue := p.row - row == 1 || p.row - row == -1 || p.row == row;
      var colTrue := p.col - col == 1 || p.col - col == -1 || p.col == col;
      rowTrue && colTrue
  }

  /**
   * The loop of `checkPiece` from the square (r, c) on: accept when (r, c) is
   * the target and it is empty or holds an enemy, stop at the first occupied
   * square, and fail on leaving the board.
   */
  predicate Walk(s: BoardState, color: Color, r: int, c: int, row: int, col: int, dr: int, dc: int)
    requires WellFormed(s) && Unit(dr, dc)
    decreases Remaining(r, dr) + Remaining(c, dc)
  {
    if !InBoard(r, c) then false
    else
      var p := PieceAt(s, r, c);
      if r == row && c == col && (p.None? || s.pieces[p.value].color != color) then true
      else if p.Some? then false
      else Walk(s, color, r + dr, c + dc, row, col, dr, dc)
  }

  /** `checkPiece(row, col, dr, dc)`: the ray walk starting next to the piece. */
  predicate CheckPiece(s: BoardState, id: PieceId, row: int, col: int, dr: int, dc: int)
    requires WellFormed(s) && id < |s.pieces| && Unit(dr, dc)
  {
    var p := s.pieces[id];
    Walk(s, p.color, p.row + dr, p.col + dc, row, col, dr, dc)
  }

  /** `isForwardSide`: `checkPiece` along the four orthogonal directions, in the source's order. */
  predicate IsForwardSide(s: BoardState, id: PieceId, row: int, col: int)
    requires WellFormed(s) && id < |s.pieces|
  {
    CheckPiece(s, id, row, col, 1, 0) || CheckPiece(s, id, row, col, -1, 0)
    || CheckPiece(s, id, row, col, 0, 1) || CheckPiece(s, id, row, col, 0, -1)
  }

  /** `isDiagonal`: `checkPiece` along the four diagonals, in the source's order. */
  predicate IsDiagonal(s: BoardState, id: PieceId, row: int, col: int)
    requires WellFormed(s) && id < |s.pieces|
  {
    CheckPiece(s, id, row, col, 1, 1) || CheckPiece(s, id, row, col, 1, -1)
    || CheckPiece(s, id, row, col, -1, 1) || CheckPiece(s, id, row, col, -1, -1)
  }

  /** A pawn's forward direction along the column coordinate: WHITE -1, every other colour +1. */
  function Forward(c: Color): int
  {
    if c == White then -1 else 1
  }

  /** `Pawn.checkMove`. */
  predicate PawnCheck(s: BoardState, id: PieceId, row: int, col: int)
    requires WellFormed(s) && id < |s.pieces| && InBoard(row, col) && s.pieces[id].kind.Pawn?
  {
    if !BaseCheck(s, id, row, col) then false
    else
      var p := s.pieces[id];
      var fwd := Forward(p.color);
      if row == p.row then
        if p.col == p.kind.startCol && p.col + fwd * 2 == col then CheckPiece(s, id, row, col, 0, fwd)
        else p.col + fwd == col && PieceAt(s, row, col).None?
      else if p.row + 1 == row || p.row - 1 == row then
        p.col + fwd == col && PieceAt(s, row, col).Some? && s.pieces[PieceAt(s, row, col).value].color != p.color
      else false
  }

  /** `Knight.checkMove`'s geometry: the eight (±2,±1)/(±1,±2) jumps, in the source's order. */
  predicate KnightJump(p: Piece, row: int, col: int)
  {
    (p.row + 2 == row && p.col + 1 == col)
    || (p.row + 2 == row && p.col - 1 == col)
    || (p.row - 2 == row && p.col + 1 == col)
    || (p.row - 2 == row && p.col - 1 == col)
    || (p.col + 2 == col && p.row + 1 == row)
    || (p.col + 2 == col && p.row - 1 == row)
    || (p.col - 2 == col && p.row + 1 == row)
    || (p.col - 2 == col && p.row - 1 == row)
  }

  /** `Knight.checkMove`. */
  predicate KnightCheck(s: BoardState, id: PieceId, row: int, col: int)
    requires WellFormed(s) && id < |s.pieces| && InBoard(row, col)
  {
    BaseCheck(s, id, row, col) && KnightJump(s.pieces[id], row, col)
  }

  /** `Bishop.checkMove`. */
  predicate BishopCheck(s: BoardState, id: PieceId, row: int, col: int)
    requires WellFormed(s) && id < |s.pieces| && InBoard(row, col)
  {
    BaseCheck(s, id, row, col) && IsDiagonal(s, id, row, col)
  }

  /**
   * `Castle.checkMove`. Castle.java is not part of this model; the rook is
   * taken to follow the same pattern as Bishop.java with `isForwardSide`.
   */
  predicate CastleCheck(s: BoardState, id: PieceId, row: int, col: int)
    requires WellFormed(s) && id < |s.pieces| && InBoard(row, col)
  {
    BaseCheck(s, id, row, col) && IsForwardSide(s, id, row, col)
  }

  /** `Queen.checkMove`. */
  predicate QueenCheck(s: BoardState, id: PieceId, row: int, col: int)
    requires WellFormed(s) && id < |s.pieces| && InBoard(row, col)
  {
    BaseCheck(s, id, row, col) && (IsForwardSide(s, id, row, col) || IsDiagonal(s, id, row, col))
  }

  /** `King.checkMove`: adjacency only, no castling. */
  predicate KingCheck(s: BoardState, id: PieceId, row: int, col: int)
    requires WellFormed(s) && id < |s.pieces| && InBoard(row, col)
  {
    BaseCheck(s, id, row, col) && IsAdjacent(s.pieces[id], row, col)
  }

  /** `checkMove`, dispatched on the piece's class. */
  predicate CheckMove(s: BoardState, id: PieceId, row: int, col: int)
    requires WellFormed(s) && id < |s.pieces| && InBoard(row, col)
  {
    match s.pieces[id].kind
    case Pawn(_) => PawnCheck(s, id, row, col)
    case Castle => CastleCheck(s, id, row, col)
    case Bishop => BishopCheck(s, id, row, col)
    case Knight => KnightCheck(s, id, row, col)
    case Queen => QueenCheck(s, id, row, col)
    case King => KingCheck(s, id, row, col)
  }

  /** The roster `check` scans: white for BLACK, black for every other colour. */
  function Opponents(s: BoardState, c: Color): seq<PieceId>
  {
    if c == Black then s.white else s.black
  }

  /** An opponent that `check` consults: not a king, alive, and accepting the target. */
  predicate Threatens(s: BoardState, id: PieceId, row: int, col: int)
    requires WellFormed(s) && id < |s.pieces| && InBoard(row, col)
  {
    !s.pieces[id].kind.King? && !s.pieces[id].dead && CheckMove(s, id, row, col)
  }

  /** `check(c)`: some living non-king piece of the other roster accepts c's king square. */
  predicate InCheck(s: BoardState, c: Color)
    requires WellFormed(s) && HasRosters(s)
  {
    var king := s.pieces[GetPiece(s, c, KingSlot)];
    var other := Opponents(s, c);
    exists i :: 0 <= i < |other| && Threatens(s, other[i], king.row, king.col)
  }
}
