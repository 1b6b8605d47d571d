/**
 * The initial position of the square-table board (src/start_board.rs):
 * Black's pieces on ranks 0 and 1, White's on ranks 6 and 7, and the other
 * fields as `Board::empty` leaves them.
 */
module StartBoard {
  import opened Wrappers
  import opened ChessPiece
  import opened ChessMoves
  import opened ChessBoard

  /** The order of the pieces on a back rank, file 0 to file 7. */
  const BackKinds: seq<Kind> := [Rook, Knight, Bishop, Queen, King, Bishop, Knight, Rook]

  function BackRow(c: Color): Row {
    [Some(Piece(Rook, c)), Some(Piece(Knight, c)), Some(Piece(Bishop, c)), Some(Piece(Queen, c)),
     Some(Piece(King, c)), Some(Piece(Bishop, c)), Some(Piece(Knight, c)), Some(Piece(Rook, c))]
  }

  function PawnRow(c: Color): Row {
    [Some(Piece(Pawn, c)), Some(Piece(Pawn, c)), Some(Piece(Pawn, c)), Some(Piece(Pawn, c)),
     Some(Piece(Pawn, c)), Some(Piece(Pawn, c)), Some(Piece(Pawn, c)), Some(Piece(Pawn, c))]
  }

  /** `Default for Board`, without the tracker set-up (see `PieceTracker.TrackedDefault`). */
  function Default(): (b: Board)
    ensures b.turn == Empty().turn && b.passant == Empty().passant
    ensures b.black == Empty().black && b.white == Empty().white
  {
    var e := Empty();
    Board(e.turn,
          [BackRow(Black), PawnRow(Black), EmptyRow, EmptyRow, EmptyRow, EmptyRow, PawnRow(White), BackRow(White)],
          e.black, e.white, e.passant)
  }

  /** White moves first; no en-passant square; every castle right. */
  lemma DefaultFields()
    ensures Default().turn == White && Default().passant == None
    ensures Default().black == FullCastle && Default().white == FullCastle
  {
  }

  /** Rank 0 holds Black's pieces and rank 7 White's, in the order rook, knight, bishop, queen, king, bishop, knight, rook. */
  lemma DefaultBackRanks(file: int)
    requires 0 <= file < 8
    ensures At(Default(), Position(0, file)) == Some(Piece(BackKinds[file], Black))
    ensures At(Default(), Position(7, file)) == Some(Piece(BackKinds[file], White))
  {
  }

  /** Rank 1 holds Black's pawns and rank 6 White's. */
  lemma DefaultPawns(file: int)
    requires 0 <= file < 8
    ensures At(Default(), Position(1, file)) == Some(Piece(Pawn, Black))
    ensures At(Default(), Position(6, file)) == Some(Piece(Pawn, White))
  {
  }

  /** Ranks 2 to 5 are empty. */
  lemma DefaultMiddleEmpty(p: Position)
    requires OnBoard(p) && 2 <= p.rank <= 5
    ensures At(Default(), p).None?
  {
  }

  /** A square holds a White piece exactly on ranks 6 and 7, a Black one exactly on ranks 0 and 1. */
  lemma DefaultHolders(p: Position)
    requires OnBoard(p)
    ensures Holds(Default(), p, White) <==> p.rank >= 6
    ensures Holds(Default(), p, Black) <==> p.rank <= 1
  {
    if p.rank <= 1 {
      assert At(Default(), p).value.color == Black;
    } else if p.rank >= 6 {
      assert At(Default(), p).value.color == White;
    } else {
      DefaultMiddleEmpty(p);
    }
  }

  /** The number of squares from the `s`-th on, in rank-major order, that hold a piece of `c` at the start. */
  function Expected(c: Color, s: nat): nat
    requires s <= 64
  {
    match c
    case White => if s >= 48 then 64 - s else 16
    case Black => if s >= 16 then 0 else 16 - s
  }

  /** The scan from the `s`-th square on finds exactly the expected number of pieces. */
  lemma {:induction false} DefaultCountFrom(c: Color, s: nat)
    requires s <= 64
    ensures |ColoredFrom(Default(), c, s)| == Expected(c, s)
    decreases 64 - s
  {
    if s < 64 {
      DefaultCountFrom(c, s + 1);
      DefaultHolders(SquareAt(s));
    }
  }

  /** Each side starts with sixteen pieces, on its own two ranks. */
  lemma DefaultSixteen(c: Color)
    ensures |ColoredPieces(Default(), c)| == 16
    ensures forall p :: p in ColoredPieces(Default(), c) ==> if c == White then p.rank >= 6 else p.rank <= 1
  {
    DefaultCountFrom(c, 0);
    forall p | p in ColoredPieces(Default(), c)
      ensures if c == White then p.rank >= 6 else p.rank <= 1
    {
      DefaultHolders(p);
    }
  }
}
