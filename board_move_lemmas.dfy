/**
 * Properties of `movePiece` and `takePiece` (src/chess/ChessBoard.java:117-137).
 */
module BoardMoveLemmas {
  import opened Wrappers
  import opened Pieces
  import opened BoardState

  /**
   * `movePiece` fails exactly when p is not on the square its coordinates name
   * (the ChessException), or else when the destination is off the board; in
   * both cases only the source square has been cleared: the destination, the
   * captured lists and every piece are untouched.
   */
  lemma MoveFailure(s: BoardState, id: PieceId, row: int, col: int)
    requires WellFormed(s) && id < |s.pieces|
    ensures var r := MovePiece(s, id, row, col);
      && (r.error == Some(StateMismatch) <==> s.squares[Home(s, id)] != Some(id))
      && (r.error == Some(OutOfBoard) <==> s.squares[Home(s, id)] == Some(id) && !InBoard(row, col))
      && (r.error.Some? ==> r.state == s.(squares := s.squares[Home(s, id) := None]))
  {
  }

  /**
   * On success the destination holds p, p has the new coordinates and is marked
   * moved, the source is empty unless it is the destination, and no other square changes.
   */
  lemma MoveSuccess(s: BoardState, id: PieceId, row: int, col: int)
    requires WellFormed(s) && id < |s.pieces|
    requires MovePiece(s, id, row, col).error.None?
    ensures InBoard(row, col)
    ensures var t := MovePiece(s, id, row, col).state; var src, dst := Home(s, id), Idx(row, col);
      && t.squares == s.squares[src := None][dst := Some(id)]
      && t.squares[dst] == Some(id)
      && (src != dst ==> t.squares[src] == None)
      && (forall i :: 0 <= i < 64 && i != src && i != dst ==> t.squares[i] == s.squares[i])
      && |t.pieces| == |s.pieces|
      && t.pieces[id].row == row && t.pieces[id].col == col && t.pieces[id].moved
      && t.pieces[id].kind == s.pieces[id].kind && t.pieces[id].color == s.pieces[id].color
      && t.black == s.black && t.white == s.white
  {
    var src, dst := Home(s, id), Idx(row, col);
    var s1 := s.(squares := s.squares[src := None]);
    var s2 := s1.(squares := s1.squares[dst := Some(id)]);
    var taken := s1.squares[dst];
    var s3 := if taken.Some? then TakePiece(s2, taken.value) else s2;
    assert s3.squares == s2.squares && |s3.pieces| == |s.pieces|;
  }

  /**
   * The previous occupant of the destination, of either colour, is marked dead
   * and appended once to the captured list of its own colour; the other list is
   * unchanged, and no other piece changes. A move onto an empty square (or onto
   * p's own square, which was cleared first) captures nothing.
   */
  lemma MoveCapture(s: BoardState, id: PieceId, row: int, col: int)
    requires WellFormed(s) && Consistent(s) && id < |s.pieces|
    requires MovePiece(s, id, row, col).error.None?
    ensures InBoard(row, col)
    ensures var t := MovePiece(s, id, row, col).state;
      var src, dst := Home(s, id), Idx(row, col);
      var victim := if src == dst then None else s.squares[dst];
      && (victim.None? ==>
            t.takenBlack == s.takenBlack && t.takenWhite == s.takenWhite
            && t.pieces == s.pieces[id := Moved(s.pieces[id], row, col)])
      && (victim.Some? ==>
            var v := victim.value; var c := s.pieces[v].color;
            && v != id && v < |t.pieces| && !s.pieces[v].dead
            && t.pieces[v] == Killed(s.pieces[v])
            && t.takenWhite == (if c == White then s.takenWhite + [v] else s.takenWhite)
            && t.takenBlack == (if c == Black then s.takenBlack + [v] else s.takenBlack)
            && v !in s.takenWhite && v !in s.takenBlack
            && (forall j :: 0 <= j < |s.pieces| && j != id && j != v ==> t.pieces[j] == s.pieces[j]))
  {
    var src, dst := Home(s, id), Idx(row, col);
    if src != dst && s.squares[dst].Some? {
      var v := s.squares[dst].value;
      assert forall k :: 0 <= k < |s.takenWhite| ==> s.takenWhite[k] != v;
      assert forall k :: 0 <= k < |s.takenBlack| ==> s.takenBlack[k] != v;
    }
  }

  /** A captured piece appears exactly once in its colour's captured list. */
  lemma CapturedOnce(s: BoardState, id: PieceId, row: int, col: int)
    requires WellFormed(s) && Consistent(s) && id < |s.pieces|
    requires MovePiece(s, id, row, col).error.None?
    requires InBoard(row, col) && Home(s, id) != Idx(row, col) && s.squares[Idx(row, col)].Some?
    ensures var t := MovePiece(s, id, row, col).state; var v := s.squares[Idx(row, col)].value;
      && (s.pieces[v].color == White ==> multiset(t.takenWhite)[v] == 1 && v !in t.takenBlack)
      && (s.pieces[v].color == Black ==> multiset(t.takenBlack)[v] == 1 && v !in t.takenWhite)
  {
    MoveCapture(s, id, row, col);
  }

  /** Whatever the outcome, no flag is reset: a moved piece stays moved, a dead piece stays dead, kinds and colours never change. */
  lemma MoveMonotone(s: BoardState, id: PieceId, row: int, col: int)
    requires WellFormed(s) && id < |s.pieces|
    ensures var t := MovePiece(s, id, row, col).state;
      && |t.pieces| == |s.pieces| && t.black == s.black && t.white == s.white
      && (forall j :: 0 <= j < |s.pieces| ==>
            && (s.pieces[j].moved ==> t.pieces[j].moved)
            && (s.pieces[j].dead ==> t.pieces[j].dead)
            && t.pieces[j].kind == s.pieces[j].kind && t.pieces[j].color == s.pieces[j].color)
      && (forall k :: 0 <= k < |s.takenBlack| ==> k < |t.takenBlack| && t.takenBlack[k] == s.takenBlack[k])
      && (forall k :: 0 <= k < |s.takenWhite| ==> k < |t.takenWhite| && t.takenWhite[k] == s.takenWhite[k])
  {
  }

  /**
   * `movePiece` of a living piece onto a board square succeeds on a consistent
   * board and keeps it consistent: every living piece is on the square named by
   * its coordinates and no square holds a dead piece.
   */
  lemma MovePreservesConsistency(s: BoardState, id: PieceId, row: int, col: int)
    requires WellFormed(s) && Consistent(s) && id < |s.pieces| && !s.pieces[id].dead && InBoard(row, col)
    ensures MovePiece(s, id, row, col).error.None?
    ensures var t := MovePiece(s, id, row, col).state;
      WellFormed(t) && Consistent(t) && (HasRosters(s) ==> HasRosters(t))
  {
    MoveSuccess(s, id, row, col);
    MoveCapture(s, id, row, col);
    var t := MovePiece(s, id, row, col).state;
    var src, dst := Home(s, id), Idx(row, col);
    var victim := if src == dst then None else s.squares[dst];
    assert WellFormed(t);
    forall j | 0 <= j < |t.pieces| && !t.pieces[j].dead
      ensures t.squares[Home(t, j)] == Some(j)
    {
      if j != id {
        assert t.pieces[j] == s.pieces[j];
        assert victim.Some? ==> j != victim.value;
        assert Home(t, j) == Home(s, j);
        assert Home(s, j) != src;
        if Home(s, j) == dst {
          assert false;
        }
      }
    }
    forall i | 0 <= i < 64 && t.squares[i].Some?
      ensures !t.pieces[t.squares[i].value].dead && Home(t, t.squares[i].value) == i
    {
      if i != dst {
        var j := t.squares[i].value;
        assert i != src && s.squares[i] == Some(j);
        assert j != id;
        assert victim.Some? ==> j != victim.value;
        assert t.pieces[j] == s.pieces[j];
      }
    }
    MoveTakenDead(s, id, row, col);
  }

  /** After a successful move every piece in the captured lists is dead. */
  lemma MoveTakenDead(s: BoardState, id: PieceId, row: int, col: int)
    requires WellFormed(s) && Consistent(s) && id < |s.pieces| && MovePiece(s, id, row, col).error.None?
    ensures var t := MovePiece(s, id, row, col).state;
      && (forall k :: 0 <= k < |t.takenBlack| ==> t.pieces[t.takenBlack[k]].dead)
      && (forall k :: 0 <= k < |t.takenWhite| ==> t.pieces[t.takenWhite[k]].dead)
  {
    MoveCapture(s, id, row, col);
    MoveMonotone(s, id, row, col);
    var t := MovePiece(s, id, row, col).state;
    forall k | 0 <= k < |t.takenBlack| ensures t.pieces[t.takenBlack[k]].dead {
      if k < |s.takenBlack| {
        assert t.takenBlack[k] == s.takenBlack[k];
      }
    }
    forall k | 0 <= k < |t.takenWhite| ensures t.pieces[t.takenWhite[k]].dead {
      if k < |s.takenWhite| {
        assert t.takenWhite[k] == s.takenWhite[k];
      }
    }
  }

  /** On a consistent board a dead piece is on no square, so `pieceAt` never returns it. */
  lemma DeadNeverOnBoard(s: BoardState, row: int, col: int)
    requires WellFormed(s) && Consistent(s) && InBoard(row, col)
    ensures PieceAt(s, row, col).Some? ==> !s.pieces[PieceAt(s, row, col).value].dead
  {
  }

  /** `getWinner` is NONE exactly when the game is not over; otherwise it is the colour whose king survives, WHITE when both kings are dead. */
  lemma WinnerMatchesGameOver(s: BoardState)
    requires WellFormed(s) && HasRosters(s)
    ensures Winner(s) == NoColor <==> !GameOver(s)
    ensures Winner(s) == White <==> s.pieces[GetPiece(s, Black, KingSlot)].dead
    ensures Winner(s) == Black <==> !s.pieces[GetPiece(s, Black, KingSlot)].dead && s.pieces[GetPiece(s, White, KingSlot)].dead
  {
  }

  /**
   * Moving whatever stands on (startRow, startCol): on a consistent board this
   * succeeds exactly when both squares are on the board and the start square
   * is occupied, whatever the piece's own movement rules say (nothing here
   * consults `checkMove`). An off-board or empty start changes nothing; on
   * success the destination holds the piece that stood on the start square.
   */
  lemma MoveFromOutcome(s: BoardState, startRow: int, startCol: int, row: int, col: int)
    requires WellFormed(s) && Consistent(s)
    ensures var r := MoveFrom(s, startRow, startCol, row, col);
      && (r.error.None? <==> InBoard(startRow, startCol) && PieceAt(s, startRow, startCol).Some? && InBoard(row, col))
      && (!InBoard(startRow, startCol) ==> r == MoveResult(s, Some(OutOfBoard)))
      && (InBoard(startRow, startCol) && PieceAt(s, startRow, startCol).None? ==> r == MoveResult(s, Some(EmptySource)))
      && (r.error.None? ==> PieceAt(r.state, row, col) == PieceAt(s, startRow, startCol))
  {
    if InBoard(startRow, startCol) && PieceAt(s, startRow, startCol).Some? {
      var id := PieceAt(s, startRow, startCol).value;
      assert Home(s, id) == Idx(startRow, startCol);
      MoveFailure(s, id, row, col);
      if MovePiece(s, id, row, col).error.None? {
        MoveSuccess(s, id, row, col);
      }
    }
  }
}
