/**
 * What `initBoard` builds (src/chess/ChessBoard.java:75-111): rosters in
 * PieceSet order, kings and pawns on their home squares, and the placement
 * invariant.
 */
module BoardInitLemmas {
  import opened Wrappers
  import opened Pieces
  import opened BoardState

  function Ids(n: nat, m: nat): (r: seq<PieceId>)
    ensures |r| == m && forall k :: 0 <= k < m ==> r[k] == n + k
  {
    seq(m, k => n + k)
  }

  predicate Untouched(ps: seq<Piece>, i: nat)
    requires AllInBoard(ps)
  {
    forall k :: 0 <= k < |ps| ==> Idx(ps[k].row, ps[k].col) != i
  }

  predicate DistinctSquares(ps: seq<Piece>)
    requires AllInBoard(ps)
  {
    forall a, b :: 0 <= a < b < |ps| ==> Idx(ps[a].row, ps[a].col) != Idx(ps[b].row, ps[b].col)
  }

  /** `addPiece` repeated: the arena grows by `ps`, each colour's roster by the new ids of its colour. */
  lemma {:induction false} AddAllArena(s: BoardState, ps: seq<Piece>, c: Color)
    requires |s.squares| == 64 && AllInBoard(ps)
    requires forall k :: 0 <= k < |ps| ==> ps[k].color == c
    ensures var t := AddAll(s, ps); var n := |s.pieces|;
      && t.pieces == s.pieces + ps
      && (c == Black ==> t.black == s.black + Ids(n, |ps|) && t.white == s.white)
      && (c != Black ==> t.white == s.white + Ids(n, |ps|) && t.black == s.black)
      && t.takenBlack == s.takenBlack && t.takenWhite == s.takenWhite
  {
    if ps != [] {
      var init := ps[..|ps| - 1];
      AddAllArena(s, init, c);
      var n := |s.pieces|;
      assert Ids(n, |ps|) == Ids(n, |init|) + [n + |init|];
      assert s.pieces + ps == (s.pieces + init) + [ps[|ps| - 1]];
    }
  }

  /** `t` is `s` after adding `ps` on distinct squares: each square named by a piece holds its id, the others are as before. */
  predicate Placed(s: BoardState, t: BoardState, ps: seq<Piece>)
    requires |s.squares| == 64 && |t.squares| == 64 && AllInBoard(ps)
  {
    var n := |s.pieces|;
    && |t.pieces| == n + |ps|
    && (forall k :: 0 <= k < |ps| ==> t.squares[Idx(ps[k].row, ps[k].col)] == Some(n + k))
    && (forall i :: 0 <= i < 64 && Untouched(ps, i) ==> t.squares[i] == s.squares[i])
  }

  /** `addPiece` repeated on distinct squares places every piece. */
  lemma {:induction false} AddAllSquares(s: BoardState, ps: seq<Piece>)
    requires |s.squares| == 64 && AllInBoard(ps) && DistinctSquares(ps)
    ensures Placed(s, AddAll(s, ps), ps)
  {
    if ps != [] {
      var init := ps[..|ps| - 1];
      PrefixSquares(ps);
      AddAllSquares(s, init);
      PlacedStep(s, AddAll(s, init), ps);
    }
  }

  lemma PrefixSquares(ps: seq<Piece>)
    requires AllInBoard(ps) && DistinctSquares(ps) && ps != []
    ensures AllInBoard(ps[..|ps| - 1]) && DistinctSquares(ps[..|ps| - 1])
  {
  }

  /** One more `addPiece` on a square no earlier piece took. */
  lemma PlacedStep(s: BoardState, u: BoardState, ps: seq<Piece>)
    requires |s.squares| == 64 && |u.squares| == 64 && AllInBoard(ps) && DistinctSquares(ps) && ps != []
    requires AllInBoard(ps[..|ps| - 1]) && Placed(s, u, ps[..|ps| - 1])
    ensures Placed(s, AddPiece(u, ps[|ps| - 1]), ps)
  {
    var last := ps[|ps| - 1];
    var t := AddPiece(u, last);
    var sq := u.squares[Idx(last.row, last.col) := Some(|s.pieces| + |ps| - 1)];
    assert t.squares == sq && |t.pieces| == |s.pieces| + |ps|;
    assert forall k :: 0 <= k < |ps| - 1 ==> Idx(ps[k].row, ps[k].col) != Idx(last.row, last.col);
    StepPlacesNew(s, u, ps, sq);
    StepKeepsOthers(s, u, ps, sq);
  }

  /** After the step every piece of `ps` is on its square. */
  lemma StepPlacesNew(s: BoardState, u: BoardState, ps: seq<Piece>, sq: seq<Option<PieceId>>)
    requires |s.squares| == 64 && |u.squares| == 64 && AllInBoard(ps) && ps != []
    requires forall k :: 0 <= k < |ps| - 1 ==> Idx(ps[k].row, ps[k].col) != Idx(ps[|ps| - 1].row, ps[|ps| - 1].col)
    requires AllInBoard(ps[..|ps| - 1]) && Placed(s, u, ps[..|ps| - 1])
    requires sq == u.squares[Idx(ps[|ps| - 1].row, ps[|ps| - 1].col) := Some(|s.pieces| + |ps| - 1)]
    ensures forall k :: 0 <= k < |ps| ==> sq[Idx(ps[k].row, ps[k].col)] == Some(|s.pieces| + k)
  {
    var init, last := ps[..|ps| - 1], ps[|ps| - 1];
    forall k | 0 <= k < |ps|
      ensures sq[Idx(ps[k].row, ps[k].col)] == Some(|s.pieces| + k)
    {
      if k < |init| {
        assert init[k] == ps[k];
        assert u.squares[Idx(init[k].row, init[k].col)] == Some(|s.pieces| + k);
      }
    }
  }

  /** After the step every square no piece of `ps` names is as in `s`. */
  lemma StepKeepsOthers(s: BoardState, u: BoardState, ps: seq<Piece>, sq: seq<Option<PieceId>>)
    requires |s.squares| == 64 && |u.squares| == 64 && AllInBoard(ps) && ps != []
    requires AllInBoard(ps[..|ps| - 1]) && Placed(s, u, ps[..|ps| - 1])
    requires sq == u.squares[Idx(ps[|ps| - 1].row, ps[|ps| - 1].col) := Some(|s.pieces| + |ps| - 1)]
    ensures forall i :: 0 <= i < 64 && Untouched(ps, i) ==> sq[i] == s.squares[i]
  {
    var init := ps[..|ps| - 1];
    forall i | 0 <= i < 64 && Untouched(ps, i)
      ensures sq[i] == s.squares[i]
    {
      assert Untouched(init, i) by {
        forall k | 0 <= k < |init| ensures Idx(init[k].row, init[k].col) != i {
          assert init[k] == ps[k];
        }
      }
    }
  }

  lemma LineupDistinct(c: Color)
    ensures AllInBoard(Lineup(c)) && DistinctSquares(Lineup(c))
  {
    LineupInBoard(c);
    forall a, b | 0 <= a < b < 16
      ensures Idx(Lineup(c)[a].row, Lineup(c)[a].col) != Idx(Lineup(c)[b].row, Lineup(c)[b].col)
    {
      LineupAt(c, a);
      LineupAt(c, b);
      var p, q := Lineup(c)[a], Lineup(c)[b];
      assert p.row != q.row || p.col != q.col;
      IdxInjective(p.row, p.col, q.row, q.col);
    }
  }

  /** No white piece starts on a black piece's square. */
  lemma LineupsApart(k: nat, j: nat)
    requires k < 16 && j < 16
    ensures Lineup(Black)[k].col < 2 && Lineup(White)[j].col > 5
  {
    LineupAt(Black, k);
    LineupAt(White, j);
  }

  /** Two colours' pieces added one after the other to an empty board: arena, rosters, captured lists. */
  lemma TwoLineupsArena(lb: seq<Piece>, lw: seq<Piece>)
    requires AllInBoard(lb) && AllInBoard(lw) && |lb| == 16 && |lw| == 16
    requires forall k :: 0 <= k < 16 ==> lb[k].color == Black && lw[k].color == White
    ensures var s := AddAll(AddAll(EmptyState(), lb), lw);
      && s.pieces == lb + lw && s.black == Ids(0, 16) && s.white == Ids(16, 16)
      && s.takenBlack == [] && s.takenWhite == []
  {
    var e := EmptyState();
    AddAllArena(e, lb, Black);
    AddAllArena(AddAll(e, lb), lw, White);
  }

  /** A new board's squares are all empty. */
  lemma EmptySquares()
    ensures |EmptyState().squares| == 64 && forall i :: 0 <= i < 64 ==> EmptyState().squares[i] == None
  {
  }

  /** A square in columns 0-1 is not one of the squares of pieces in columns 6-7. */
  lemma ApartUntouched(lw: seq<Piece>, row: int, col: int)
    requires AllInBoard(lw) && InBoard(row, col) && col < 2
    requires forall j :: 0 <= j < |lw| ==> lw[j].col > 5
    ensures Untouched(lw, Idx(row, col))
  {
    forall j | 0 <= j < |lw| ensures Idx(lw[j].row, lw[j].col) != Idx(row, col) {
      IdxInjective(lw[j].row, lw[j].col, row, col);
    }
  }

  /** Two colours' pieces added one after the other to an empty board, on squares apart from each other. */
  lemma TwoLineupsSquares(lb: seq<Piece>, lw: seq<Piece>)
    requires AllInBoard(lb) && AllInBoard(lw) && DistinctSquares(lb) && DistinctSquares(lw)
    requires |lb| == 16 && |lw| == 16
    requires forall k :: 0 <= k < 16 ==> lb[k].col < 2
    requires forall j :: 0 <= j < 16 ==> lw[j].col > 5
    ensures var s := AddAll(AddAll(EmptyState(), lb), lw);
      && (forall k :: 0 <= k < 16 ==> s.squares[Idx(lb[k].row, lb[k].col)] == Some(k))
      && (forall k :: 0 <= k < 16 ==> s.squares[Idx(lw[k].row, lw[k].col)] == Some(16 + k))
      && (forall i :: 0 <= i < 64 && Untouched(lb, i) && Untouched(lw, i) ==> s.squares[i] == None)
  {
    var e := EmptyState();
    EmptySquares();
    AddAllSquares(e, lb);
    var m := AddAll(e, lb);
    AddAllSquares(m, lw);
    var s := AddAll(m, lw);
    forall k | 0 <= k < 16 ensures s.squares[Idx(lb[k].row, lb[k].col)] == Some(k) {
      ApartUntouched(lw, lb[k].row, lb[k].col);
    }
  }

  /** What adding two lineups to an empty board yields, as a relation between the state and the lineups. */
  predicate ShapedBy(s: BoardState, lb: seq<Piece>, lw: seq<Piece>)
  {
    && |lb| == 16 && |lw| == 16 && AllInBoard(lb) && AllInBoard(lw)
    && (forall k :: 0 <= k < 16 ==> !lb[k].dead && !lw[k].dead)
    && |s.squares| == 64
    && s.pieces == lb + lw && s.black == Ids(0, 16) && s.white == Ids(16, 16)
    && s.takenBlack == [] && s.takenWhite == []
    && (forall k :: 0 <= k < 16 ==> s.squares[Idx(lb[k].row, lb[k].col)] == Some(k))
    && (forall k :: 0 <= k < 16 ==> s.squares[Idx(lw[k].row, lw[k].col)] == Some(16 + k))
    && (forall i :: 0 <= i < 64 && Untouched(lb, i) && Untouched(lw, i) ==> s.squares[i] == None)
  }

  /** The shape of the initial state, in terms of the two lineups. */
  lemma InitialShape()
    ensures ShapedBy(InitialState(), Lineup(Black), Lineup(White))
  {
    LineupDistinct(Black);
    LineupDistinct(White);
    var lb, lw := Lineup(Black), Lineup(White);
    forall k | 0 <= k < 16
      ensures lb[k].col < 2 && lw[k].col > 5 && lb[k].color == Black && lw[k].color == White
      ensures !lb[k].dead && !lw[k].dead
    {
      LineupsApart(k, k);
      LineupAt(Black, k);
      LineupAt(White, k);
    }
    TwoLineupsArena(lb, lw);
    TwoLineupsSquares(lb, lw);
  }

  /** Every occupied square of such a state holds the lineup piece whose coordinates name it. */
  lemma ShapedOwner(s: BoardState, lb: seq<Piece>, lw: seq<Piece>, i: nat)
    requires ShapedBy(s, lb, lw) && i < 64 && s.squares[i].Some?
    ensures var id := s.squares[i].value;
      id < 32 && InBoard(s.pieces[id].row, s.pieces[id].col)
      && Idx(s.pieces[id].row, s.pieces[id].col) == i && !s.pieces[id].dead
  {
    if Untouched(lw, i) {
      if Untouched(lb, i) {
        assert false;
      }
      var k :| 0 <= k < 16 && Idx(lb[k].row, lb[k].col) == i;
      assert s.pieces[k] == lb[k];
    } else {
      var k :| 0 <= k < 16 && Idx(lw[k].row, lw[k].col) == i;
      assert s.pieces[16 + k] == lw[k];
    }
  }

  /** Such a state is well formed and satisfies the placement invariant. */
  lemma ShapedConsistent(s: BoardState, lb: seq<Piece>, lw: seq<Piece>)
    requires ShapedBy(s, lb, lw)
    ensures WellFormed(s) && HasRosters(s) && Consistent(s)
  {
    assert forall k :: 0 <= k < 16 ==> s.pieces[k] == lb[k] && s.pieces[16 + k] == lw[k];
    forall id | 0 <= id < 32 ensures InBoard(s.pieces[id].row, s.pieces[id].col) {
      if id >= 16 { assert s.pieces[id] == lw[id - 16]; }
    }
    forall i | 0 <= i < 64 && s.squares[i].Some? ensures s.squares[i].value < 32 {
      ShapedOwner(s, lb, lw, i);
    }
    assert WellFormed(s);
    forall id | 0 <= id < 32 && !s.pieces[id].dead
      ensures s.squares[Home(s, id)] == Some(id)
    {
      if id >= 16 { assert s.pieces[id] == lw[id - 16]; }
    }
    forall i | 0 <= i < 64 && s.squares[i].Some?
      ensures !s.pieces[s.squares[i].value].dead && Home(s, s.squares[i].value) == i
    {
      ShapedOwner(s, lb, lw, i);
    }
  }

  /**
   * After `initBoard` on a new board: 32 living pieces; roster position
   * `ordinal()` of each colour names the piece `initColor` added in that order;
   * both captured lists are empty; and every piece sits on its own square.
   */
  lemma InitialFacts()
    ensures var s := InitialState();
      && WellFormed(s) && HasRosters(s) && Consistent(s)
      && |s.pieces| == 32 && |s.black| == 16 && |s.white| == 16
      && (forall k :: 0 <= k < 16 ==> s.pieces[s.black[k]] == Lineup(Black)[k])
      && (forall k :: 0 <= k < 16 ==> s.pieces[s.white[k]] == Lineup(White)[k])
      && s.takenBlack == [] && s.takenWhite == []
  {
    var s, lb, lw := InitialState(), Lineup(Black), Lineup(White);
    InitialShape();
    ShapedConsistent(s, lb, lw);
    forall k | 0 <= k < 16
      ensures s.pieces[s.black[k]] == lb[k] && s.pieces[s.white[k]] == lw[k]
    {
      assert s.black[k] == k && s.white[k] == 16 + k;
      assert (lb + lw)[16 + k] == lw[k];
    }
  }

  /** The initial board can be played on: well formed, consistent, both rosters full. */
  lemma InitialReady()
    ensures WellFormed(InitialState()) && HasRosters(InitialState()) && Consistent(InitialState())
  {
    InitialFacts();
  }

  /**
   * `getPiece(c, KING)` is the king at (4,0) for BLACK and (4,7) for WHITE;
   * the roster's eight pawn slots are pawns on column 1 (BLACK) or 6 (WHITE),
   * each starting on its own column.
   */
  lemma InitialKingsAndPawns(c: Color, slot: PieceSet)
    requires c == Black || c == White
    ensures var s := InitialState();
      WellFormed(s) && HasRosters(s) &&
      var p := s.pieces[GetPiece(s, c, slot)];
      && p.color == c && !p.dead && !p.moved
      && (slot == KingSlot ==> p.kind == King && p.row == 4 && p.col == (if c == Black then 0 else 7))
      && (Ordinal(slot) < 8 ==>
            p.kind == Pawn(p.col) && p.row == Ordinal(slot) && p.col == (if c == Black then 1 else 6))
  {
    InitialFacts();
    LineupAt(c, Ordinal(slot));
  }
}
