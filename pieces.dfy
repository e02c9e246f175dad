/**
 * Pieces as values (src/chess/pieces/Piece.java and its subclasses).
 * A piece is owned by the board's arena; the fields the Java object updates
 * in place (`move`, `die`) become functions returning the updated value.
 */
module Pieces {
  import opened Wrappers

  /** ChessColor: two players and the neutral NONE. */
  datatype Color = White | Black | NoColor

  /** `Enum.name()` of a colour. */
  function ColorName(c: Color): string
  {
    match c
    case White => "WHITE"
    case Black => "BLACK"
    case NoColor => "NONE"
  }

  /**
   * The piece classes. A pawn remembers the column it was constructed on
   * (Pawn.java keeps `startCol`), which enables its double step.
   */
  datatype Kind = Pawn(startCol: int) | Castle | Bishop | Knight | Queen | King

  datatype Piece = Piece(kind: Kind, color: Color, row: int, col: int, dead: bool, moved: bool)

  /** The Piece constructor: alive, unmoved, at the given square. */
  function NewPiece(kind: Kind, color: Color, row: int, col: int): Piece
  {
    Piece(kind, color, row, col, false, false)
  }

  /** `new Pawn(parent, color, row, col)`: the construction column is the pawn's start column. */
  function NewPawn(color: Color, row: int, col: int): Piece
  {
    NewPiece(Pawn(col), color, row, col)
  }

  /** `Piece.move`: new coordinates and the moved flag set. */
  function Moved(p: Piece, row: int, col: int): (q: Piece)
    ensures q.row == row && q.col == col && q.moved
    ensures q.kind == p.kind && q.color == p.color && q.dead == p.dead
  {
    p.(row := row, col := col, moved := true)
  }

  /** `Piece.die`. */
  function Killed(p: Piece): (q: Piece)
    ensures q.dead
    ensures q.kind == p.kind && q.color == p.color && q.row == p.row && q.col == p.col && q.moved == p.moved
  {
    p.(dead := true)
  }

  /** `getName`: the simple class name in upper case. */
  function Name(k: Kind): string
  {
    match k
    case Pawn(_) => "PAWN"
    case Castle => "CASTLE"
    case Bishop => "BISHOP"
    case Knight => "KNIGHT"
    case Queen => "QUEEN"
    case King => "KING"
  }

  /** The names `createPiece` understands; any other name makes it exit the process (None here). */
  const PromotionNames: set<string> := {"QUEEN", "BISHOP", "KNIGHT", "CASTLE"}

  /** `Piece.createPiece`: None stands for the fatal `System.exit(1)` branch. */
  function CreatePiece(color: Color, name: string, row: int, col: int): Option<Piece>
  {
    if name == "QUEEN" then Some(NewPiece(Queen, color, row, col))
    else if name == "BISHOP" then Some(NewPiece(Bishop, color, row, col))
    else if name == "KNIGHT" then Some(NewPiece(Knight, color, row, col))
    else if name == "CASTLE" then Some(NewPiece(Castle, color, row, col))
    else None
  }

  /** No two piece classes share a name. */
  lemma NameInjective(k1: Kind, k2: Kind)
    requires Name(k1) == Name(k2)
    ensures k1.Pawn? == k2.Pawn? && (!k1.Pawn? ==> k1 == k2)
  {
    if Name(k1) == "PAWN" {
    } else {
      assert Name(k1)[0] == Name(k2)[0];
      assert |Name(k1)| == |Name(k2)|;
    }
  }

  /**
   * `createPiece` succeeds exactly on the four promotion names, and the piece it
   * builds is alive, unmoved, of the given colour and square, and `getName` of it
   * gives back the name it was asked for.
   */
  lemma CreatePieceNames(color: Color, name: string, row: int, col: int)
    ensures CreatePiece(color, name, row, col).Some? <==> name in PromotionNames
    ensures CreatePiece(color, name, row, col).Some? ==>
      var p := CreatePiece(color, name, row, col).value;
      Name(p.kind) == name && !p.kind.Pawn? && p.color == color && p.row == row && p.col == col
      && !p.dead && !p.moved
  {
  }
}
