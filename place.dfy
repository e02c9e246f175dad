/** A square of the board (src/chess/Place.java). */
module Places {
  import opened Wrappers
  import opened Pieces
  import opened BoardState

  /** The colour `new Place(color)` gives a square: BLACK for 0, WHITE for anything else. */
  function ParityColor(parity: int): Color
  {
    if parity == 0 then Black else White
  }

  class Place {
    /** Fixed by the constructor; Place has no setter for it. */
    const color: Color
    /** The piece standing on the square, by its id. */
    var occupant: Option<PieceId>

    /** A new square of the given parity, empty. */
    constructor(parity: int)
      ensures color == ParityColor(parity) && (color == Black <==> parity == 0)
      ensures occupant == None
    {
      if parity == 0 {
        color := Black;
      } else {
        color := White;
      }
      occupant := None;
    }

    /** `setPiece`: put `p` (possibly none) on the square and hand back what stood there. */
    method SetPiece(p: Option<PieceId>) returns (prev: Option<PieceId>)
      modifies this
      ensures prev == old(occupant) && occupant == p
    {
      prev := occupant;
      occupant := p;
    }
  }
}
