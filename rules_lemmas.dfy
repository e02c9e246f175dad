/**
 * What the movement rules of module Rules mean, stated geometrically and
 * proved against their step-by-step definitions.
 */
module RulesLemmas {
  import opened Wrappers
  import opened Pieces
  import opened BoardState
  import opened Rules

  function Abs(x: int): int { if x < 0 then -x else x }

  /** The point k steps from x in a unit direction d (one of -1, 0, 1). */
  function Along(x: int, d: int, k: int): int
  {
    if d > 0 then x + k else if d < 0 then x - k else x
  }

  /** An empty square on the board. */
  predicate Vacant(s: BoardState, r: int, c: int)
    requires WellFormed(s)
  {
    InBoard(r, c) && PieceAt(s, r, c).None?
  }

  /** Every square strictly between (r0, c0) and k steps along (dr, dc) is empty. */
  predicate Clear(s: BoardState, r0: int, c0: int, dr: int, dc: int, k: int)
    requires WellFormed(s)
  {
    forall j :: 1 <= j < k ==> Vacant(s, Along(r0, dr, j), Along(c0, dc, j))
  }

  /**
   * A slide of k >= 1 steps from (r0, c0) along (dr, dc) ends on (row, col),
   * the target is on the board, the path before it is clear, and it is
   * empty or holds an enemy of `color`.
   */
  predicate SlideTo(s: BoardState, color: Color, r0: int, c0: int, row: int, col: int, dr: int, dc: int, k: int)
    requires WellFormed(s)
  {
    k >= 1 && row == Along(r0, dr, k) && col == Along(c0, dc, k) && InBoard(row, col)
    && Clear(s, r0, c0, dr, dc, k) && EmptyOrEnemy(s, color, row, col)
  }

  lemma AlongStep(x: int, d: int, k: int)
    requires -1 <= d <= 1
    ensures Along(x, d, k + 1) == Along(x, d, k) + d
  {
  }

  /** A slide longer than m steps passes over the m-th square, which must be empty. */
  lemma SlidePasses(s: BoardState, color: Color, r0: int, c0: int, row: int, col: int, dr: int, dc: int, m: int, k: int)
    requires WellFormed(s) && 1 <= m < k && SlideTo(s, color, r0, c0, row, col, dr, dc, k)
    ensures Vacant(s, Along(r0, dr, m), Along(c0, dc, m))
  {
  }

  /** A slide that cannot pass the m-th square ends there or not at all. */
  lemma NoSlidePast(s: BoardState, color: Color, r0: int, c0: int, m: int, row: int, col: int, dr: int, dc: int)
    requires WellFormed(s) && m >= 1 && !Vacant(s, Along(r0, dr, m), Along(c0, dc, m))
    ensures (exists k :: m <= k && SlideTo(s, color, r0, c0, row, col, dr, dc, k))
            ==> SlideTo(s, color, r0, c0, row, col, dr, dc, m)
  {
    if k :| m <= k && SlideTo(s, color, r0, c0, row, col, dr, dc, k) {
      if k > m {
        SlidePasses(s, color, r0, c0, row, col, dr, dc, m, k);
      }
    }
  }

  /** Extending a clear path by one empty square. */
  lemma ClearStep(s: BoardState, r0: int, c0: int, dr: int, dc: int, m: int)
    requires WellFormed(s) && Clear(s, r0, c0, dr, dc, m) && Vacant(s, Along(r0, dr, m), Along(c0, dc, m))
    ensures Clear(s, r0, c0, dr, dc, m + 1)
  {
  }

  /** The walk stops at the m-th square: off the board, on the target, or on a blocker. */
  lemma WalkStops(s: BoardState, color: Color, r0: int, c0: int, m: int, row: int, col: int, dr: int, dc: int)
    requires WellFormed(s) && Unit(dr, dc) && m >= 1 && Clear(s, r0, c0, dr, dc, m)
    requires !Vacant(s, Along(r0, dr, m), Along(c0, dc, m))
    ensures Walk(s, color, Along(r0, dr, m), Along(c0, dc, m), row, col, dr, dc)
            <==> exists k :: m <= k && SlideTo(s, color, r0, c0, row, col, dr, dc, k)
  {
    NoSlidePast(s, color, r0, c0, m, row, col, dr, dc);
    if Walk(s, color, Along(r0, dr, m), Along(c0, dc, m), row, col, dr, dc) {
      assert SlideTo(s, color, r0, c0, row, col, dr, dc, m);
    }
  }

  /** The walk passes an empty m-th square that is not the target. */
  lemma WalkPasses(s: BoardState, color: Color, r0: int, c0: int, m: int, row: int, col: int, dr: int, dc: int)
    requires WellFormed(s) && Unit(dr, dc) && m >= 1 && Clear(s, r0, c0, dr, dc, m)
    requires Vacant(s, Along(r0, dr, m), Along(c0, dc, m)) && (Along(r0, dr, m) != row || Along(c0, dc, m) != col)
    ensures Walk(s, color, Along(r0, dr, m), Along(c0, dc, m), row, col, dr, dc)
            == Walk(s, color, Along(r0, dr, m + 1), Along(c0, dc, m + 1), row, col, dr, dc)
    ensures (exists k :: m <= k && SlideTo(s, color, r0, c0, row, col, dr, dc, k))
            == (exists k :: m + 1 <= k && SlideTo(s, color, r0, c0, row, col, dr, dc, k))
    ensures Clear(s, r0, c0, dr, dc, m + 1)
  {
    AlongStep(r0, dr, m);
    AlongStep(c0, dc, m);
    ClearStep(s, r0, c0, dr, dc, m);
    assert !SlideTo(s, color, r0, c0, row, col, dr, dc, m);
  }

  /** The ray walk from step m on accepts exactly the slides of at least m steps. */
  lemma {:induction false} WalkFrom(s: BoardState, color: Color, r0: int, c0: int, m: int, row: int, col: int, dr: int, dc: int)
    requires WellFormed(s) && Unit(dr, dc) && m >= 1 && Clear(s, r0, c0, dr, dc, m)
    ensures Walk(s, color, Along(r0, dr, m), Along(c0, dc, m), row, col, dr, dc)
            <==> exists k :: m <= k && SlideTo(s, color, r0, c0, row, col, dr, dc, k)
    decreases Remaining(Along(r0, dr, m), dr) + Remaining(Along(c0, dc, m), dc)
  {
    var r, c := Along(r0, dr, m), Along(c0, dc, m);
    if !Vacant(s, r, c) {
      WalkStops(s, color, r0, c0, m, row, col, dr, dc);
    } else if r == row && c == col {
      assert SlideTo(s, color, r0, c0, row, col, dr, dc, m);
    } else {
      WalkPasses(s, color, r0, c0, m, row, col, dr, dc);
      AlongStep(r0, dr, m);
      AlongStep(c0, dc, m);
      WalkFrom(s, color, r0, c0, m + 1, row, col, dr, dc);
    }
  }

  /**
   * `checkPiece(row, col, dr, dc)` holds exactly when the target is some
   * k >= 1 steps from the piece along (dr, dc), every square before it is
   * empty, and the target is empty or holds an enemy.
   */
  lemma CheckPieceIff(s: BoardState, id: PieceId, row: int, col: int, dr: int, dc: int)
    requires WellFormed(s) && id < |s.pieces| && Unit(dr, dc)
    ensures var p := s.pieces[id];
            CheckPiece(s, id, row, col, dr, dc) <==> exists k :: SlideTo(s, p.color, p.row, p.col, row, col, dr, dc, k)
  {
    var p := s.pieces[id];
    assert Along(p.row, dr, 1) == p.row + dr && Along(p.col, dc, 1) == p.col + dc;
    assert Clear(s, p.row, p.col, dr, dc, 1);
    WalkFrom(s, p.color, p.row, p.col, 1, row, col, dr, dc);
    assert CheckPiece(s, id, row, col, dr, dc) == Walk(s, p.color, Along(p.row, dr, 1), Along(p.col, dc, 1), row, col, dr, dc);
  }

  /** Where a slide of k steps ends, per component of the direction. */
  lemma SlideGeometry(s: BoardState, color: Color, r0: int, c0: int, row: int, col: int, dr: int, dc: int, k: int)
    requires WellFormed(s) && Unit(dr, dc) && SlideTo(s, color, r0, c0, row, col, dr, dc, k)
    ensures dr == 0 ==> row == r0
    ensures dr == 1 ==> row == r0 + k
    ensures dr == -1 ==> row == r0 - k
    ensures dc == 0 ==> col == c0
    ensures dc == 1 ==> col == c0 + k
    ensures dc == -1 ==> col == c0 - k
  {
  }

  /** The number of steps of an accepted `checkPiece` ray. */
  lemma RayTarget(s: BoardState, id: PieceId, row: int, col: int, dr: int, dc: int) returns (k: int)
    requires WellFormed(s) && id < |s.pieces| && Unit(dr, dc) && CheckPiece(s, id, row, col, dr, dc)
    ensures var p := s.pieces[id];
            SlideTo(s, p.color, p.row, p.col, row, col, dr, dc, k)
  {
    var p := s.pieces[id];
    CheckPieceIff(s, id, row, col, dr, dc);
    k :| SlideTo(s, p.color, p.row, p.col, row, col, dr, dc, k);
  }

  /** `isForwardSide` only reaches squares on the piece's row or column, never its own. */
  lemma ForwardSideLine(s: BoardState, id: PieceId, row: int, col: int)
    requires WellFormed(s) && id < |s.pieces| && IsForwardSide(s, id, row, col)
    ensures var p := s.pieces[id];
            (row == p.row) != (col == p.col)
  {
    var p := s.pieces[id];
    var dr, dc := 1, 0;
    if CheckPiece(s, id, row, col, -1, 0) { dr, dc := -1, 0; }
    if CheckPiece(s, id, row, col, 0, 1) { dr, dc := 0, 1; }
    if CheckPiece(s, id, row, col, 0, -1) { dr, dc := 0, -1; }
    if CheckPiece(s, id, row, col, 1, 0) { dr, dc := 1, 0; }
    var k := RayTarget(s, id, row, col, dr, dc);
    SlideGeometry(s, p.color, p.row, p.col, row, col, dr, dc, k);
  }

  /** `isDiagonal` only reaches squares on the piece's diagonals, never its own. */
  lemma DiagonalLine(s: BoardState, id: PieceId, row: int, col: int)
    requires WellFormed(s) && id < |s.pieces| && IsDiagonal(s, id, row, col)
    ensures var p := s.pieces[id];
            Abs(row - p.row) == Abs(col - p.col) >= 1
  {
    var p := s.pieces[id];
    var dr, dc := 1, 1;
    if CheckPiece(s, id, row, col, 1, -1) { dr, dc := 1, -1; }
    if CheckPiece(s, id, row, col, -1, 1) { dr, dc := -1, 1; }
    if CheckPiece(s, id, row, col, -1, -1) { dr, dc := -1, -1; }
    if CheckPiece(s, id, row, col, 1, 1) { dr, dc := 1, 1; }
    var k := RayTarget(s, id, row, col, dr, dc);
    SlideGeometry(s, p.color, p.row, p.col, row, col, dr, dc, k);
  }

  /** A sliding piece cannot jump: an occupied square j steps along the ray bounds its reach. */
  lemma RayStopsAtBlocker(s: BoardState, id: PieceId, row: int, col: int, dr: int, dc: int, j: int)
    requires WellFormed(s) && id < |s.pieces| && Unit(dr, dc) && CheckPiece(s, id, row, col, dr, dc)
    requires j >= 1 && !Vacant(s, Along(s.pieces[id].row, dr, j), Along(s.pieces[id].col, dc, j))
    ensures var p := s.pieces[id];
            Abs(row - p.row) <= j && Abs(col - p.col) <= j
  {
    var p := s.pieces[id];
    var k := RayTarget(s, id, row, col, dr, dc);
    SlideGeometry(s, p.color, p.row, p.col, row, col, dr, dc, k);
  }

  /** One step in any direction onto an empty or enemy square is accepted by the ray walk. */
  lemma OneStepRay(s: BoardState, id: PieceId, dr: int, dc: int)
    requires WellFormed(s) && id < |s.pieces| && Unit(dr, dc)
    requires var p := s.pieces[id];
             InBoard(p.row + dr, p.col + dc) && EmptyOrEnemy(s, p.color, p.row + dr, p.col + dc)
    ensures var p := s.pieces[id];
            CheckPiece(s, id, p.row + dr, p.col + dc, dr, dc)
  {
    var p := s.pieces[id];
    CheckPieceIff(s, id, p.row + dr, p.col + dc, dr, dc);
    assert SlideTo(s, p.color, p.row, p.col, p.row + dr, p.col + dc, dr, dc, 1);
  }

  /**
   * `Pawn.checkMove` accepts exactly three shapes: a single step forward
   * onto an empty square; a double step from the starting column over an
   * empty square onto a square that is empty or holds an enemy (the ray
   * walk used for it accepts a capture); and a diagonal step forward onto an
   * enemy. Forward is toward lower columns for WHITE and higher for BLACK.
   */
  lemma PawnShapes(s: BoardState, id: PieceId, row: int, col: int)
    requires WellFormed(s) && id < |s.pieces| && InBoard(row, col) && s.pieces[id].kind.Pawn?
    ensures var p := s.pieces[id];
            var fwd := Forward(p.color);
            PawnCheck(s, id, row, col) <==>
              (row == p.row && col == p.col + fwd && Vacant(s, row, col))
              || (row == p.row && p.col == p.kind.startCol && col == p.col + 2 * fwd
                  && Vacant(s, p.row, p.col + fwd) && EmptyOrEnemy(s, p.color, row, col))
              || ((row == p.row + 1 || row == p.row - 1) && col == p.col + fwd
                  && PieceAt(s, row, col).Some? && s.pieces[PieceAt(s, row, col).value].color != p.color)
    ensures var p := s.pieces[id];
            PawnCheck(s, id, row, col) ==> col == p.col + Forward(p.color) || col == p.col + 2 * Forward(p.color)
  {
    var p := s.pieces[id];
    var fwd := Forward(p.color);
    if row == p.row && p.col == p.kind.startCol && p.col + fwd * 2 == col {
      CheckPieceIff(s, id, row, col, 0, fwd);
      if CheckPiece(s, id, row, col, 0, fwd) {
        var k := RayTarget(s, id, row, col, 0, fwd);
        assert k == 2;
        assert Vacant(s, Along(p.row, 0, 1), Along(p.col, fwd, 1));
      }
      if Vacant(s, p.row, p.col + fwd) && EmptyOrEnemy(s, p.color, row, col) {
        assert Along(p.row, 0, 1) == p.row && Along(p.col, fwd, 1) == p.col + fwd;
        assert SlideTo(s, p.color, p.row, p.col, row, col, 0, fwd, 2);
      }
    }
  }

  /** The knight's eight jumps are the squares two away on one axis and one on the other. */
  lemma KnightShape(p: Piece, row: int, col: int)
    ensures KnightJump(p, row, col) <==>
              (Abs(row - p.row) == 2 && Abs(col - p.col) == 1) || (Abs(row - p.row) == 1 && Abs(col - p.col) == 2)
  {
  }

  /** A knight's jump can be jumped back. */
  lemma KnightJumpSymmetric(p: Piece, row: int, col: int)
    requires KnightJump(p, row, col)
    ensures KnightJump(p.(row := row, col := col), p.row, p.col)
  {
    KnightShape(p, row, col);
    KnightShape(p.(row := row, col := col), p.row, p.col);
  }

  /** The knight ignores every square but its target: boards that agree there agree on the move. */
  lemma KnightIgnoresPath(s: BoardState, t: BoardState, id: PieceId, row: int, col: int)
    requires WellFormed(s) && WellFormed(t) && id < |s.pieces| && InBoard(row, col)
    requires t.pieces == s.pieces && t.squares[Idx(row, col)] == s.squares[Idx(row, col)]
    ensures KnightCheck(s, id, row, col) == KnightCheck(t, id, row, col)
  {
  }

  /** `King.checkMove` accepts exactly the eight neighbouring squares that are empty or hold an enemy; no castling. */
  lemma KingShape(s: BoardState, id: PieceId, row: int, col: int)
    requires WellFormed(s) && id < |s.pieces| && InBoard(row, col)
    ensures var p := s.pieces[id];
            KingCheck(s, id, row, col) <==>
              EmptyOrEnemy(s, p.color, row, col) && (row != p.row || col != p.col)
              && Abs(row - p.row) <= 1 && Abs(col - p.col) <= 1
  {
  }

  /** The queen moves as a castle or as a bishop. */
  lemma QueenIsCastleOrBishop(s: BoardState, id: PieceId, row: int, col: int)
    requires WellFormed(s) && id < |s.pieces| && InBoard(row, col)
    ensures QueenCheck(s, id, row, col) == (CastleCheck(s, id, row, col) || BishopCheck(s, id, row, col))
  {
  }

  /** Every square a king may move to is reachable by a queen standing on the king's square. */
  lemma QueenCoversKing(s: BoardState, id: PieceId, row: int, col: int)
    requires WellFormed(s) && id < |s.pieces| && InBoard(row, col) && KingCheck(s, id, row, col)
    ensures IsForwardSide(s, id, row, col) || IsDiagonal(s, id, row, col)
  {
    var p := s.pieces[id];
    var dr, dc := row - p.row, col - p.col;
    OneStepRay(s, id, dr, dc);
    assert CheckPiece(s, id, row, col, dr, dc);
  }

  /** Every accepted move ends on an empty square or an enemy. */
  lemma CheckMoveTarget(s: BoardState, id: PieceId, row: int, col: int)
    requires WellFormed(s) && id < |s.pieces| && InBoard(row, col) && CheckMove(s, id, row, col)
    ensures EmptyOrEnemy(s, s.pieces[id].color, row, col)
  {
  }

  /** On a consistent board no live piece may "move" onto its own square. */
  lemma NeverOwnSquare(s: BoardState, id: PieceId)
    requires WellFormed(s) && Consistent(s) && id < |s.pieces| && !s.pieces[id].dead
    ensures !CheckMove(s, id, s.pieces[id].row, s.pieces[id].col)
  {
    var p := s.pieces[id];
    assert PieceAt(s, p.row, p.col) == Some(id);
    if CheckMove(s, id, p.row, p.col) {
      CheckMoveTarget(s, id, p.row, p.col);
    }
  }

  /** Only the ray in direction (dr, dc) can reach a square k >= 1 steps along it. */
  lemma RayUnique(s: BoardState, id: PieceId, dr: int, dc: int, k: int, dr2: int, dc2: int)
    requires WellFormed(s) && id < |s.pieces| && Unit(dr, dc) && Unit(dr2, dc2) && k >= 1
    requires var p := s.pieces[id];
             CheckPiece(s, id, Along(p.row, dr, k), Along(p.col, dc, k), dr2, dc2)
    ensures dr2 == dr && dc2 == dc
  {
    var p := s.pieces[id];
    var k2 := RayTarget(s, id, Along(p.row, dr, k), Along(p.col, dc, k), dr2, dc2);
    SlideGeometry(s, p.color, p.row, p.col, Along(p.row, dr, k), Along(p.col, dc, k), dr2, dc2, k2);
  }

  /** No sliding ray reaches past an occupied square on it. */
  lemma BeyondBlockerRejected(s: BoardState, id: PieceId, dr: int, dc: int, j: int, k: int)
    requires WellFormed(s) && id < |s.pieces| && Unit(dr, dc) && 1 <= j < k
    requires !Vacant(s, Along(s.pieces[id].row, dr, j), Along(s.pieces[id].col, dc, j))
    ensures var p := s.pieces[id];
            !IsForwardSide(s, id, Along(p.row, dr, k), Along(p.col, dc, k))
            && !IsDiagonal(s, id, Along(p.row, dr, k), Along(p.col, dc, k))
  {
    var p := s.pieces[id];
    var row, col := Along(p.row, dr, k), Along(p.col, dc, k);
    if CheckPiece(s, id, row, col, dr, dc) {
      RayStopsAtBlocker(s, id, row, col, dr, dc, j);
      assert false;
    }
    forall dr2, dc2 | Unit(dr2, dc2) && CheckPiece(s, id, row, col, dr2, dc2)
      ensures dr2 == dr && dc2 == dc
    {
      RayUnique(s, id, dr, dc, k, dr2, dc2);
    }
  }

  /** The first occupied square of a clear ray is accepted when it holds an enemy. */
  lemma FirstBlockerAccepted(s: BoardState, id: PieceId, dr: int, dc: int, j: int)
    requires WellFormed(s) && id < |s.pieces| && Unit(dr, dc) && j >= 1
    requires var p := s.pieces[id];
             Clear(s, p.row, p.col, dr, dc, j) && InBoard(Along(p.row, dr, j), Along(p.col, dc, j))
             && EmptyOrEnemy(s, p.color, Along(p.row, dr, j), Along(p.col, dc, j))
    ensures var p := s.pieces[id];
            CheckPiece(s, id, Along(p.row, dr, j), Along(p.col, dc, j), dr, dc)
  {
    var p := s.pieces[id];
    CheckPieceIff(s, id, Along(p.row, dr, j), Along(p.col, dc, j), dr, dc);
    assert SlideTo(s, p.color, p.row, p.col, Along(p.row, dr, j), Along(p.col, dc, j), dr, dc, j);
  }

  /** Every square a bishop accepts is on one of its diagonals. */
  lemma BishopDiagonal(s: BoardState, id: PieceId, row: int, col: int)
    requires WellFormed(s) && id < |s.pieces| && InBoard(row, col) && BishopCheck(s, id, row, col)
    ensures var p := s.pieces[id];
            Abs(row - p.row) == Abs(col - p.col) >= 1
  {
    DiagonalLine(s, id, row, col);
  }

  /** Every square a queen accepts shares the queen's row, column or a diagonal, and is not its own. */
  lemma QueenLines(s: BoardState, id: PieceId, row: int, col: int)
    requires WellFormed(s) && id < |s.pieces| && InBoard(row, col) && QueenCheck(s, id, row, col)
    ensures var p := s.pieces[id];
            (row == p.row) != (col == p.col) || Abs(row - p.row) == Abs(col - p.col) >= 1
  {
    if IsForwardSide(s, id, row, col) {
      ForwardSideLine(s, id, row, col);
    } else {
      DiagonalLine(s, id, row, col);
    }
  }

  /** The eight squares a knight can jump to. */
  function KnightTargets(p: Piece): set<(int, int)>
  {
    {(p.row + 2, p.col + 1), (p.row + 2, p.col - 1), (p.row - 2, p.col + 1), (p.row - 2, p.col - 1),
     (p.row + 1, p.col + 2), (p.row - 1, p.col + 2), (p.row + 1, p.col - 2), (p.row - 1, p.col - 2)}
  }

  /** The eight squares around a piece. */
  function Neighbours(p: Piece): set<(int, int)>
  {
    {(p.row - 1, p.col - 1), (p.row - 1, p.col), (p.row - 1, p.col + 1), (p.row, p.col - 1),
     (p.row, p.col + 1), (p.row + 1, p.col - 1), (p.row + 1, p.col), (p.row + 1, p.col + 1)}
  }

  /** A knight accepts at most eight squares, never its own. */
  lemma KnightAtMostEight(s: BoardState, id: PieceId, row: int, col: int)
    requires WellFormed(s) && id < |s.pieces| && InBoard(row, col) && KnightCheck(s, id, row, col)
    ensures (row, col) in KnightTargets(s.pieces[id]) && |KnightTargets(s.pieces[id])| == 8
    ensures (row, col) != (s.pieces[id].row, s.pieces[id].col)
  {
  }

  /** A king accepts at most eight squares, never its own, never two columns away. */
  lemma KingAtMostEight(s: BoardState, id: PieceId, row: int, col: int)
    requires WellFormed(s) && id < |s.pieces| && InBoard(row, col) && KingCheck(s, id, row, col)
    ensures (row, col) in Neighbours(s.pieces[id]) && |Neighbours(s.pieces[id])| == 8
    ensures (row, col) != (s.pieces[id].row, s.pieces[id].col) && Abs(col - s.pieces[id].col) <= 1
  {
  }

  /** The king's rule does not look at whether the king has moved. */
  lemma KingIgnoresMoved(s: BoardState, id: PieceId, row: int, col: int, moved: bool)
    requires WellFormed(s) && id < |s.pieces| && InBoard(row, col)
    ensures var t := s.(pieces := s.pieces[id := s.pieces[id].(moved := moved)]);
            WellFormed(t) && KingCheck(t, id, row, col) == KingCheck(s, id, row, col)
  {
  }
}
