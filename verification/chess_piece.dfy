/**
 * Pieces and colours of the square-table board (src/piece.rs): a piece is a
 * kind together with a colour, and a colour knows the direction its pawns
 * walk, the rank they start on and the rank right in front of it.
 */
module ChessPiece {

  datatype Kind = King | Queen | Bishop | Knight | Rook | Pawn

  datatype Color = Black | White

  datatype Piece = Piece(kind: Kind, color: Color)

  /** `Color::default`. */
  const DefaultColor: Color := White

  /** `color | kind`. */
  function With(color: Color, kind: Kind): (p: Piece)
    ensures p.kind == kind && p.color == color
  {
    Piece(kind, color)
  }

  /** `Color::opposite`. */
  function Opposite(c: Color): (r: Color)
    ensures r != c
  {
    match c
    case Black => White
    case White => Black
  }

  /** The opposite of the opposite is the colour itself. */
  lemma OppositeInvolution(c: Color)
    ensures Opposite(Opposite(c)) == c
    ensures Opposite(c) != c
  {
  }

  /** `Color::pawn_dir`: Black pawns walk towards higher ranks, White pawns towards lower ones. */
  function PawnDir(c: Color): (d: int)
    ensures d == 1 || d == -1
    ensures Opposite(c) == White <==> d == 1
  {
    match c
    case Black => 1
    case White => -1
  }

  /** `Color::pawn_start`. */
  function PawnStart(c: Color): (r: int)
    ensures 0 < r < 7
  {
    match c
    case Black => 1
    case White => 6
  }

  /** `Color::pawn_blockking_rank`: the square a double step passes over. */
  function PawnBlockingRank(c: Color): (r: int)
    ensures 0 < r < 7
  {
    match c
    case Black => 2
    case White => 5
  }

  /**
   * `Color::promotion_rank` is not part of this model; this stand-in is the
   * last rank in the pawn's direction, six steps on from its start.
   */
  function PromotionRank(c: Color): (r: int)
    ensures r == 0 || r == 7
  {
    match c
    case Black => 7
    case White => 0
  }

  /**
   * The pawn ranks fit together: the blocking square is one step in front of
   * the start, the promotion rank six steps, and the two colours mirror each
   * other across the middle of the board.
   */
  lemma PawnRanks(c: Color)
    ensures PawnBlockingRank(c) == PawnStart(c) + PawnDir(c)
    ensures PromotionRank(c) == PawnStart(c) + 6 * PawnDir(c)
    ensures PawnStart(c) + PawnStart(Opposite(c)) == 7
    ensures PawnDir(Opposite(c)) == -PawnDir(c)
  {
  }
}
