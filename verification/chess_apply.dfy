/**
 * Playing a move on the square-table board (src/board.rs): `apply_unchecked`
 * and the per-piece helpers it dispatches to, the castle bookkeeping, and
 * `apply`, which plays a move only after checking it.
 *
 * The source mutates the board in place and panics on a few inputs; here
 * every operation returns a new board, and `None` (or `Panicked`) stands
 * for the panic.
 */
module ChessApply {
  import opened Wrappers
  import opened ChessPiece
  import opened ChessMoves
  import opened ChessBoard

  /** Either rank is a back rank (rank 0 or rank 7). */
  predicate Backrank(mov: Move) {
    mov.from.rank == 0 || mov.from.rank == 7 || mov.to.rank == 0 || mov.to.rank == 7
  }

  /**
   * One colour's rights after `remove_castle_rights`: the first matching arm
   * of the source's match wins, so a move from a corner file clears only the
   * right of that corner, whatever it lands on.
   */
  function Stripped(c: Castle, mov: Move): (r: Castle)
    ensures r.kingside == (c.kingside && !(Backrank(mov) && (mov.from.file == 7 || (mov.from.file != 0 && mov.to.file == 7))))
    ensures r.queenside == (c.queenside && !(Backrank(mov) && (mov.from.file == 0 || (mov.from.file != 7 && mov.to.file == 0))))
  {
    if !Backrank(mov) then c
    else if mov.from.file == 0 then c.(queenside := false)
    else if mov.from.file == 7 then c.(kingside := false)
    else if mov.to.file == 0 then c.(queenside := false)
    else if mov.to.file == 7 then c.(kingside := false)
    else c
  }

  /**
   * `Board::remove_castle_rights`: a move leaving or reaching a corner file
   * on a back rank takes the matching right from the side to move; the
   * other side's rights and everything else stay.
   */
  function RemoveCastleRights(b: Board, mov: Move): (r: Board)
    ensures r.table == b.table && r.turn == b.turn && r.passant == b.passant
    ensures CastleOf(r, b.turn) == Stripped(CastleOf(b, b.turn), mov)
    ensures CastleOf(r, Opposite(b.turn)) == CastleOf(b, Opposite(b.turn))
  {
    match b.turn
    case Black => b.(black := Stripped(b.black, mov))
    case White => b.(white := Stripped(b.white, mov))
  }

  /**
   * The arms meant for a captured rook clear the right of the side that
   * captures: White landing on Black's kingside corner keeps Black's
   * kingside right (though no Black rook is left there) and loses its own.
   */
  lemma CaptureKeepsVictimRight(b: Board)
    requires b.turn == White && b.black.kingside && b.white.kingside
    ensures RemoveCastleRights(b, Move(Position(0, 7), Position(3, 3))).black.kingside
    ensures !RemoveCastleRights(b, Move(Position(0, 7), Position(3, 3))).white.kingside
  {
  }

  /**
   * `remove_castle_rights` as its comments describe it: the side to move
   * loses the right of a corner its rook leaves, and the other side loses
   * the right of a corner where its rook is captured.
   */
  function RemoveCastleRightsFixed(b: Board, mov: Move): (r: Board)
    ensures r.table == b.table && r.turn == b.turn && r.passant == b.passant
    ensures CastleOf(r, b.turn).kingside == (CastleOf(b, b.turn).kingside && !(Backrank(mov) && mov.from.file == 7))
    ensures CastleOf(r, b.turn).queenside == (CastleOf(b, b.turn).queenside && !(Backrank(mov) && mov.from.file == 0))
    ensures CastleOf(r, Opposite(b.turn)).kingside == (CastleOf(b, Opposite(b.turn)).kingside && !(Backrank(mov) && mov.to.file == 7))
    ensures CastleOf(r, Opposite(b.turn)).queenside == (CastleOf(b, Opposite(b.turn)).queenside && !(Backrank(mov) && mov.to.file == 0))
  {
    var leaving := Castle(mov.from.file == 7, mov.from.file == 0);
    var landing := Castle(mov.to.file == 7, mov.to.file == 0);
    if !Backrank(mov) then b
    else
      match b.turn
      case Black => b.(black := Without(b.black, leaving), white := Without(b.white, landing))
      case White => b.(white := Without(b.white, leaving), black := Without(b.black, landing))
  }

  /** The rights of `c` less those set in `lost`. */
  function Without(c: Castle, lost: Castle): Castle {
    Castle(c.kingside && !lost.kingside, c.queenside && !lost.queenside)
  }

  /**
   * With the correction, a move onto a back-rank corner always takes the
   * other side's right for that corner, and rights are still only taken
   * away.
   */
  lemma FixedClearsVictimRight(b: Board, mov: Move)
    ensures Backrank(mov) && mov.to.file == 7 ==> !CastleOf(RemoveCastleRightsFixed(b, mov), Opposite(b.turn)).kingside
    ensures Backrank(mov) && mov.to.file == 0 ==> !CastleOf(RemoveCastleRightsFixed(b, mov), Opposite(b.turn)).queenside
    ensures RightsWithin(RemoveCastleRightsFixed(b, mov), b)
    ensures b.turn == White ==> !RemoveCastleRightsFixed(b, Move(Position(0, 7), Position(3, 3))).black.kingside
  {
  }

  /** Rights are only ever taken away: a right after the call was there before. */
  predicate CastleWithin(after: Castle, before: Castle) {
    (after.kingside ==> before.kingside) && (after.queenside ==> before.queenside)
  }

  predicate RightsWithin(after: Board, before: Board) {
    CastleWithin(after.black, before.black) && CastleWithin(after.white, before.white)
  }

  /**
   * A rook capturing from one corner onto the other corner of the back rank
   * clears only the right of the corner it left: the captured rook's right
   * survives.
   */
  lemma CornerCaptureKeepsRight(b: Board, rank: int)
    requires rank == 0 || rank == 7
    requires CastleOf(b, b.turn).kingside
    ensures CastleOf(RemoveCastleRights(b, Move(Position(rank, 7), Position(rank, 0))), b.turn).kingside
    ensures !CastleOf(RemoveCastleRights(b, Move(Position(rank, 7), Position(rank, 0))), b.turn).queenside
  {
  }

  /**
   * The square behind the target of `mov`, as seen from the side to move:
   * where the pawn taken by an en-passant capture stands.
   */
  function Behind(b: Board, mov: Move): Position {
    Position(mov.to.rank - PawnDir(b.turn), mov.to.file)
  }

  /**
   * `Board::apply_pawn_move`. A two-rank step towards higher ranks records
   * the target as the en-passant square (a step the other way records
   * nothing, and no pawn move ever clears the record). A move onto an empty
   * square empties the square behind the target, as seen from the side to
   * move; that square being off the board is the index panic. Reaching the
   * promotion rank puts a queen of the side to move on the target.
   */
  function ApplyPawnMove(b: Board, piece: Square, mov: Move): (r: Option<Board>)
    requires OnBoard(mov.to)
    ensures r.None? <==> At(b, mov.to).None? && !OnBoard(Behind(b, mov))
    ensures r.Some? ==> r.value.turn == b.turn && r.value.black == b.black && r.value.white == b.white
    ensures r.Some? ==> r.value.passant == if mov.from.rank + 2 == mov.to.rank then Some(mov.to) else b.passant
    ensures r.Some? ==>
      At(r.value, mov.to) == if mov.to.rank == PromotionRank(b.turn) then Some(With(b.turn, Queen)) else piece
    ensures r.Some? && At(b, mov.to).None? ==> At(r.value, Behind(b, mov)).None?
    ensures r.Some? ==> forall q :: OnBoard(q) && q != mov.to && !(At(b, mov.to).None? && q == Behind(b, mov)) ==>
      At(r.value, q) == At(b, q)
  {
    var b1 := if mov.from.rank + 2 == mov.to.rank then b.(passant := Some(mov.to)) else b;
    var behind := Behind(b, mov);
    if At(b1, mov.to).None? && !OnBoard(behind) then None
    else
      var b2 := if At(b1, mov.to).None? then Set(b1, behind, None) else b1;
      var placed := if mov.to.rank == PromotionRank(b.turn) then Some(With(b.turn, Queen)) else piece;
      Some(Set(b2, mov.to, placed))
  }

  /** The rook half of a castle: from the corner on the king's side of the jump to the square the king passes. */
  function RookLeg(mov: Move): (r: Move)
    ensures r.from.rank == mov.from.rank && r.to.rank == mov.to.rank
    ensures mov.to.file < mov.from.file ==> r.from.file == 0 && r.to.file == 2
    ensures mov.to.file >= mov.from.file ==> r.from.file == 7 && r.to.file == 5
  {
    if mov.to.file - mov.from.file < 0 then Move(Position(mov.to.rank, 2), Position(mov.from.rank, 0))
    else Move(Position(mov.to.rank, 5), Position(mov.from.rank, 7))
  }

  /** A king move of more than one file is taken for a castle. */
  predicate IsJump(mov: Move) {
    mov.to.file - mov.from.file > 1 || mov.from.file - mov.to.file > 1
  }

  function Occupancy(b: Board, p: Position): nat
    requires OnBoard(p)
  {
    if At(b, p).Some? then 1 else 0
  }

  /**
   * A bound on how deeply castles can nest: the occupied corners of the
   * mover's rank, plus one while the mover is not itself on a corner. Each
   * nested castle empties the corner its rook leaves.
   */
  function Nesting(b: Board, mov: Move): nat
    requires OnBoard(mov.from)
  {
    Occupancy(b, Position(mov.from.rank, 0)) + Occupancy(b, Position(mov.from.rank, 7))
    + (if mov.from.file == 0 || mov.from.file == 7 then 0 else 1)
  }

  /**
   * `Board::apply_king_move`, on the board whose `from` square is already
   * emptied. A jump first plays the rook leg (which, on a malformed board,
   * may itself be a king's jump); then the king lands and the side to move
   * loses both castle rights. The king always ends on the target.
   */
  function ApplyKingMove(b: Board, piece: Square, mov: Move): (r: Option<Board>)
    requires OnBoard(mov.from) && OnBoard(mov.to)
    ensures r.Some? ==> r.value.turn == b.turn && At(r.value, mov.to) == piece && CastleOf(r.value, b.turn) == NoCastle
    decreases Nesting(b, RookLeg(mov)), 2
  {
    var rooked := if IsJump(mov) then ApplyUnchecked(b, RookLeg(mov)) else Some(b);
    match rooked
    case None => None
    case Some(c) =>
      var landed := Set(c, mov.to, piece);
      Some(match c.turn
           case Black => landed.(black := NoCastle)
           case White => landed.(white := NoCastle))
  }

  /**
   * The middle of `Board::apply_unchecked`, on the board whose `from` square
   * is already emptied: the move played by the kind of the piece. Every
   * move but a pawn's clears the en-passant square. Only a pawn's move (its
   * en-passant square off the board) or a king's castle (its rook leg) can
   * fail.
   */
  function MovePiece(b: Board, p: Piece, mov: Move): (r: Option<Board>)
    requires OnBoard(mov.from) && OnBoard(mov.to)
    ensures r.Some? ==> r.value.turn == b.turn
    ensures r.None? ==> p.kind == Pawn || (p.kind == King && IsJump(mov))
    decreases Nesting(b, RookLeg(mov)), 3
  {
    match p.kind
    case Pawn => ApplyPawnMove(b, Some(p), mov)
    case King =>
      (match ApplyKingMove(b, Some(p), mov)
       case None => None
       case Some(c) => Some(c.(passant := None)))
    case _ => Some(Set(b, mov.to, Some(p)).(passant := None))
  }

  /**
   * `Board::apply_unchecked`: the piece leaves `from`, the move is played by
   * kind, and castle rights are updated. An empty `from` is the source's
   * `unreachable!` panic. The side to move stays the same: this is not
   * where the turn passes.
   */
  function ApplyUnchecked(b: Board, mov: Move): (r: Option<Board>)
    requires OnBoard(mov.from) && OnBoard(mov.to)
    ensures r.Some? ==> At(b, mov.from).Some? && r.value.turn == b.turn
    decreases Nesting(b, mov), 1
  {
    match At(b, mov.from)
    case None => None
    case Some(p) =>
      NestingDrops(b, mov);
      match MovePiece(Set(b, mov.from, None), p, mov)
      case None => None
      case Some(c) => Some(RemoveCastleRights(c, mov))
  }

  /** Taking the mover off the board lowers the nesting bound of its rook leg. */
  lemma NestingDrops(b: Board, mov: Move)
    requires OnBoard(mov.from) && OnBoard(mov.to) && At(b, mov.from).Some?
    ensures Nesting(Set(b, mov.from, None), RookLeg(mov)) < Nesting(b, mov)
  {
    var b1 := Set(b, mov.from, None);
    var rank := mov.from.rank;
    if mov.from.file == 0 {
      assert Occupancy(b1, Position(rank, 0)) == 0;
      assert Occupancy(b1, Position(rank, 7)) == Occupancy(b, Position(rank, 7));
    } else if mov.from.file == 7 {
      assert Occupancy(b1, Position(rank, 7)) == 0;
      assert Occupancy(b1, Position(rank, 0)) == Occupancy(b, Position(rank, 0));
    } else {
      assert Occupancy(b1, Position(rank, 0)) == Occupancy(b, Position(rank, 0));
      assert Occupancy(b1, Position(rank, 7)) == Occupancy(b, Position(rank, 7));
    }
  }

  // ---------------------------------------------------------------------------
  // what a played move does

  /** A played move keeps the side to move and never grants a castle right. */
  lemma {:induction false} UncheckedRights(b: Board, mov: Move)
    requires OnBoard(mov.from) && OnBoard(mov.to)
    ensures ApplyUnchecked(b, mov).Some? ==>
      ApplyUnchecked(b, mov).value.turn == b.turn && RightsWithin(ApplyUnchecked(b, mov).value, b)
    decreases Nesting(b, mov), 1
  {
    if At(b, mov.from).Some? {
      NestingDrops(b, mov);
      MovePieceRights(Set(b, mov.from, None), At(b, mov.from).value, mov);
      var moved := MovePiece(Set(b, mov.from, None), At(b, mov.from).value, mov);
      if moved.Some? {
        RemoveWithin(moved.value, b, mov);
      }
    }
  }

  lemma {:induction false} MovePieceRights(b: Board, p: Piece, mov: Move)
    requires OnBoard(mov.from) && OnBoard(mov.to)
    ensures MovePiece(b, p, mov).Some? ==>
      MovePiece(b, p, mov).value.turn == b.turn && RightsWithin(MovePiece(b, p, mov).value, b)
    decreases Nesting(b, RookLeg(mov)), 3
  {
    if p.kind == King {
      KingMoveRights(b, Some(p), mov);
    }
  }

  /** Any played king move, castle or not, leaves the side to move without castle rights. */
  lemma KingMoveLosesRights(b: Board, mov: Move)
    requires OnBoard(mov.from) && OnBoard(mov.to)
    requires At(b, mov.from).Some? && At(b, mov.from).value.kind == King
    ensures ApplyUnchecked(b, mov).Some? ==> CastleOf(ApplyUnchecked(b, mov).value, b.turn) == NoCastle
  {
    NestingDrops(b, mov);
    KingMoveRights(Set(b, mov.from, None), At(b, mov.from), mov);
  }

  lemma RemoveWithin(c: Board, b: Board, mov: Move)
    requires c.turn == b.turn && RightsWithin(c, b)
    ensures RemoveCastleRights(c, mov).turn == b.turn && RightsWithin(RemoveCastleRights(c, mov), b)
  {
  }

  /**
   * A king move keeps the side to move, never grants a right, and leaves the
   * side to move with no castle right at all.
   */
  lemma {:induction false} KingMoveRights(b: Board, piece: Square, mov: Move)
    requires OnBoard(mov.from) && OnBoard(mov.to)
    ensures ApplyKingMove(b, piece, mov).Some? ==>
      && ApplyKingMove(b, piece, mov).value.turn == b.turn
      && RightsWithin(ApplyKingMove(b, piece, mov).value, b)
      && CastleOf(ApplyKingMove(b, piece, mov).value, b.turn) == NoCastle
    decreases Nesting(b, RookLeg(mov)), 2
  {
    if IsJump(mov) {
      UncheckedRights(b, RookLeg(mov));
    }
  }

  /**
   * Where the mover ends up: on the target, as itself, except that a pawn
   * reaching the promotion rank of the side to move becomes that side's
   * queen.
   */
  lemma MovePieceLands(b: Board, p: Piece, mov: Move)
    requires OnBoard(mov.from) && OnBoard(mov.to)
    ensures MovePiece(b, p, mov).Some? ==>
      At(MovePiece(b, p, mov).value, mov.to)
        == if p.kind == Pawn && mov.to.rank == PromotionRank(b.turn) then Some(With(b.turn, Queen)) else Some(p)
  {
  }

  /**
   * The en-passant square after a move: a pawn's two-rank step towards
   * higher ranks records its target, any other pawn move keeps the old
   * record, and every other piece clears it.
   */
  lemma MovePiecePassant(b: Board, p: Piece, mov: Move)
    requires OnBoard(mov.from) && OnBoard(mov.to)
    ensures MovePiece(b, p, mov).Some? ==>
      MovePiece(b, p, mov).value.passant
        == if p.kind != Pawn then None
           else if mov.from.rank + 2 == mov.to.rank then Some(mov.to)
           else b.passant
  {
  }

  /**
   * `apply_unchecked` puts the mover (or its promotion) on the target and
   * sets the en-passant square as the mover's kind dictates; unless it
   * castles, the mover's square is left empty.
   */
  lemma UncheckedEffect(b: Board, mov: Move)
    requires OnBoard(mov.from) && OnBoard(mov.to)
    ensures ApplyUnchecked(b, mov).Some? ==> At(b, mov.from).Some?
    ensures ApplyUnchecked(b, mov).Some? ==>
      var p := At(b, mov.from).value;
      var r := ApplyUnchecked(b, mov).value;
      && At(r, mov.to) == (if p.kind == Pawn && mov.to.rank == PromotionRank(b.turn) then Some(With(b.turn, Queen)) else Some(p))
      && r.passant == (if p.kind != Pawn then None else if mov.from.rank + 2 == mov.to.rank then Some(mov.to) else b.passant)
      && (mov.from != mov.to && !(p.kind == King && IsJump(mov)) ==> At(r, mov.from).None?)
  {
    if At(b, mov.from).Some? {
      var p := At(b, mov.from).value;
      var b1 := Set(b, mov.from, None);
      MovePieceLands(b1, p, mov);
      MovePiecePassant(b1, p, mov);
    }
  }

  /**
   * The en-passant removal: a pawn moving onto an empty square takes what
   * stands on the square behind the target, as seen from the side to move
   * (for a straight step that is the pawn's own, already emptied, square).
   * Off the board, that square is the source's index panic.
   */
  lemma UncheckedPassantCapture(b: Board, mov: Move)
    requires OnBoard(mov.from) && OnBoard(mov.to) && mov.from != mov.to
    requires At(b, mov.from).Some? && At(b, mov.from).value.kind == Pawn && At(b, mov.to).None?
    ensures ApplyUnchecked(b, mov).None? <==> !OnBoard(Behind(b, mov))
    ensures ApplyUnchecked(b, mov).Some? ==> At(ApplyUnchecked(b, mov).value, Behind(b, mov)).None?
  {
    NestingDrops(b, mov);
  }

  /**
   * Short of a castle, a played move touches no square but `from`, `to`
   * and, for a pawn moving onto an empty square (or onto its own), the
   * square behind the target.
   */
  lemma UncheckedFrame(b: Board, mov: Move, q: Position)
    requires OnBoard(mov.from) && OnBoard(mov.to) && OnBoard(q) && q != mov.from && q != mov.to
    requires At(b, mov.from).Some? && !(At(b, mov.from).value.kind == King && IsJump(mov))
    requires !(At(b, mov.from).value.kind == Pawn && (At(b, mov.to).None? || mov.from == mov.to) && q == Behind(b, mov))
    ensures ApplyUnchecked(b, mov).Some? ==> At(ApplyUnchecked(b, mov).value, q) == At(b, q)
  {
    NestingDrops(b, mov);
    var p := At(b, mov.from).value;
    var b1 := Set(b, mov.from, None);
    assert At(b1, q) == At(b, q) && Behind(b1, mov) == Behind(b, mov);
    var moved := MovePiece(b1, p, mov);
    if moved.Some? {
      if p.kind == King {
        var landed := Set(b1, mov.to, Some(p));
        assert ApplyKingMove(b1, Some(p), mov).value.table == landed.table;
      }
      assert At(moved.value, q) == At(b1, q);
    }
  }

  /**
   * A castle from file 4 to file 6 (or to file 1, the queenside target the
   * move generator produces) carries the corner rook to file 5 (file 2),
   * empties the corner and the king's square, puts the king on the target
   * and takes both rights from the side to move; no other square changes.
   */
  lemma CastleMovesRook(b: Board, mov: Move)
    requires OnBoard(mov.from) && mov.from.rank == mov.to.rank
    requires mov.from.file == 4 && (mov.to.file == 6 || mov.to.file == 1)
    requires At(b, mov.from).Some? && At(b, mov.from).value.kind == King
    requires At(b, RookLeg(mov).from).Some? && At(b, RookLeg(mov).from).value.kind == Rook
    ensures ApplyUnchecked(b, mov).Some?
    ensures var r := ApplyUnchecked(b, mov).value;
      && At(r, mov.to) == At(b, mov.from)
      && At(r, RookLeg(mov).to) == At(b, RookLeg(mov).from)
      && At(r, mov.from).None?
      && At(r, RookLeg(mov).from).None?
      && CastleOf(r, b.turn) == NoCastle
    ensures forall q :: OnBoard(q) && q != mov.from && q != mov.to && q != RookLeg(mov).from && q != RookLeg(mov).to ==>
      At(ApplyUnchecked(b, mov).value, q) == At(b, q)
  {
    var king := At(b, mov.from).value;
    var b1 := Set(b, mov.from, None);
    var leg := RookLeg(mov);
    var rook := At(b1, leg.from).value;
    var c1 := Set(b1, leg.from, None);
    var c2 := Set(c1, leg.to, Some(rook)).(passant := None);
    assert MovePiece(c1, rook, leg) == Some(c2);
    NestingDrops(b1, leg);
    var c3 := RemoveCastleRights(c2, leg);
    assert ApplyUnchecked(b1, leg) == Some(c3);
    KingMoveRights(b1, Some(king), mov);
    var d := ApplyKingMove(b1, Some(king), mov).value;
    assert At(d, leg.to) == At(c3, leg.to);
    NestingDrops(b, mov);
    assert MovePiece(b1, king, mov) == Some(d.(passant := None));
  }

  // ---------------------------------------------------------------------------
  // checked play

  /** What `Board::apply` comes to: the board played on, a refusal (`Err`), or a panic. */
  datatype Outcome = Done(board: Board) | Refused | Panicked

  /**
   * `Board::apply`: the move is played only when the piece on `from` belongs
   * to the side to move, the move is one of that piece's moves, and a
   * castle does not cross an attacked square. The source looks up the
   * piece's moves whether or not the turn is right, so an empty `from`
   * panics there; it is a precondition here.
   */
  function Apply(b: Board, mov: Move): (r: Outcome)
    requires OnBoard(mov.from) && At(b, mov.from).Some? && PassantOk(b)
    requires IsLongKingMove(b, mov) ==> mov.to.file - mov.from.file <= 2
    ensures r.Refused? <==>
      !(At(b, mov.from).value.color == b.turn && mov in MovesForPiece(b, mov.from) && CheckCastle(b, mov))
    ensures !r.Refused? ==> OnBoard(mov.to)
    ensures r.Done? ==> ApplyUnchecked(b, mov) == Some(r.board)
    ensures r.Panicked? ==> ApplyUnchecked(b, mov).None?
  {
    var correctTurn := At(b, mov.from).value.color == b.turn;
    var moves := MovesForPiece(b, mov.from);
    var isValid := mov in moves;
    var castle := CheckCastle(b, mov);
    if correctTurn && isValid && castle then
      assert OnBoard(mov.to);
      match ApplyUnchecked(b, mov)
      case None => Panicked
      case Some(c) => Done(c)
    else Refused
  }

  /**
   * A checked move keeps the en-passant square, when there is one, on the
   * board and off the two back ranks (ranks 1 to 6): a pawn records a square
   * only after a two-rank step towards higher ranks, which the move
   * generator allows only from Black's start rank 1, landing on rank 3.
   */
  lemma ApplyKeepsPassantOk(b: Board, mov: Move)
    requires OnBoard(mov.from) && At(b, mov.from).Some? && PassantOk(b)
    requires IsLongKingMove(b, mov) ==> mov.to.file - mov.from.file <= 2
    ensures Apply(b, mov).Done? ==> PassantOk(Apply(b, mov).board)
  {
    var r := Apply(b, mov);
    if r.Done? {
      var p := At(b, mov.from).value;
      UncheckedEffect(b, mov);
      if p.kind == Pawn && mov.from.rank + 2 == mov.to.rank {
        assert mov in UnfilteredMovesForPiece(b, mov.from);
        PawnTargets(b, mov.from, p.color, mov);
      }
    }
  }
}
