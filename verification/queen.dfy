/**
 * Queen destinations (engine/src/moves/queen.rs): the union of the bishop's
 * and the rook's.
 */
module Queen {
  import opened BitUtils
  import opened EngineLocation
  import opened Positions
  import opened Bishop
  import opened Rook

  /** `queen_moves`: every bishop square and every rook square, and never the queen's own square. */
  function QueenMoves(pos: Positions, loc: Location): (r: bv64)
    ensures BishopMoves(pos, loc) & !r == 0
    ensures RookMoves(pos, loc) & !r == 0
    ensures r & Pos(loc) == 0
  {
    BishopMoves(pos, loc) | RookMoves(pos, loc)
  }

  /** The source's fixture: mine on 23, 24, 55, 54 and 4, the opponent on 8, 9 and 52, the queen on (2, 2). */
  lemma QueenFixture()
    ensures QueenMoves(New(0x00c0_0000_0180_0010, 0x10_0000_0000_0300), FromPair(2, 2)) == 0x40424150e7b0e04
  {
  }

  /**
   * Inherited from the rook: once the queen's own square is marked mine, as
   * the move cache's snapshot does, only the bishop's squares are left.
   */
  lemma QueenSelfBlocked()
    ensures QueenMoves(New(Square(18), 0), FromPair(2, 2)) == BishopMoves(New(Square(18), 0), FromPair(2, 2))
    ensures !Bit(QueenMoves(New(Square(18), 0), FromPair(2, 2)), 19)
  {
  }

  /** `queen_moves` on the corrected bishop and rook. */
  function QueenMovesFixed(pos: Positions, loc: Location): (r: bv64)
    ensures BishopMovesFixed(pos, loc) & !r == 0
    ensures RookMovesFixed(pos, loc) & !r == 0
    ensures r & Pos(loc) == 0
  {
    BishopMovesFixed(pos, loc) | RookMovesFixed(pos, loc)
  }

  /** The corrected queen keeps the fixture, also with its own square marked mine, and slides along its rank again. */
  lemma QueenFixedExamples()
    ensures QueenMovesFixed(New(0x00c0_0000_0180_0010, 0x10_0000_0000_0300), FromPair(2, 2)) == 0x40424150e7b0e04
    ensures QueenMovesFixed(New(0x00c0_0000_0184_0010, 0x10_0000_0000_0300), FromPair(2, 2)) == 0x40424150e7b0e04
    ensures Bit(QueenMovesFixed(New(Square(18), 0), FromPair(2, 2)), 19)
  {
  }
}
