/**
 * Bishop destinations, one diagonal stroke at a time (engine/src/moves/bishop.rs).
 *
 * A stroke is the part of a diagonal at or above the bishop's rank; the two
 * strokes below it are computed on the mirrored board and mirrored back.
 */
module Bishop {
  import opened BitUtils
  import opened EngineLocation
  import opened Positions

  /** `DIAG[0]`: the a1-h8 diagonal, rank == file. */
  const MainDiagonal: bv64 := 0x8040_2010_0804_0201

  /** `DIAG[1]`: the h1-a8 diagonal, rank + file == 7. */
  const AntiDiagonal: bv64 := 0x0102_0408_1020_4080

  /** `right_diagonal`: the main diagonal moved onto `loc`. */
  function RightDiagonal(loc: Location): bv64 {
    (MainDiagonal << (8 * SaturatingSub(Rank(loc), File(loc)))) >> (8 * SaturatingSub(File(loc), Rank(loc)))
  }

  /** `left_diagonal`: the anti-diagonal moved onto `loc`. */
  function LeftDiagonal(loc: Location): bv64 {
    (AntiDiagonal >> (8 * SaturatingSub(7, Rank(loc) + File(loc)))) << (8 * SaturatingSub(Rank(loc) + File(loc), 7))
  }

  lemma MainUpBit(d: bv64, i: bv64)
    requires d < 8 && i < 64
    ensures Bit(MainDiagonal << (8 * d), i) <==> i >> 3 == (i & 7) + d
  {
  }

  lemma MainDownBit(d: bv64, i: bv64)
    requires d < 8 && i < 64
    ensures Bit(MainDiagonal >> (8 * d), i) <==> (i >> 3) + d == i & 7
  {
  }

  lemma AntiDownBit(d: bv64, i: bv64)
    requires d < 8 && i < 64
    ensures Bit(AntiDiagonal >> (8 * d), i) <==> (i >> 3) + (i & 7) + d == 7
  {
  }

  lemma AntiUpBit(d: bv64, i: bv64)
    requires d < 8 && i < 64
    ensures Bit(AntiDiagonal << (8 * d), i) <==> (i >> 3) + (i & 7) == 7 + d
  {
  }

  /** The right diagonal holds exactly the squares whose rank minus file is that of `loc`. */
  lemma RightDiagonalBit(loc: Location, i: bv64)
    requires i < 64
    ensures Bit(RightDiagonal(loc), i) <==> (i >> 3) + File(loc) == (i & 7) + Rank(loc)
  {
    var r, f := Rank(loc), File(loc);
    if r >= f {
      assert RightDiagonal(loc) == MainDiagonal << (8 * (r - f));
      MainUpBit(r - f, i);
    } else {
      assert RightDiagonal(loc) == MainDiagonal >> (8 * (f - r));
      MainDownBit(f - r, i);
    }
  }

  /** The left diagonal holds exactly the squares whose rank plus file is that of `loc`. */
  lemma LeftDiagonalBit(loc: Location, i: bv64)
    requires i < 64
    ensures Bit(LeftDiagonal(loc), i) <==> (i >> 3) + (i & 7) == Rank(loc) + File(loc)
  {
    var s := Rank(loc) + File(loc);
    if s <= 7 {
      assert LeftDiagonal(loc) == AntiDiagonal >> (8 * (7 - s));
      AntiDownBit(7 - s, i);
    } else {
      assert LeftDiagonal(loc) == AntiDiagonal << (8 * (s - 7));
      AntiUpBit(s - 7, i);
    }
  }

  /** `diag >> 8 * rank << 8 * rank`: the diagonal from the bishop's rank upwards. */
  function Cut(diag: bv64, loc: Location): bv64 {
    (diag >> (8 * Rank(loc))) << (8 * Rank(loc))
  }

  lemma CutSound(x: bv64, n: bv64, i: bv64)
    requires n < 8 && i < 64
    ensures Bit((x >> (8 * n)) << (8 * n), i) ==> Bit(x, i) && n <= i >> 3
  {
  }

  lemma CutComplete(x: bv64, n: bv64, i: bv64)
    requires n < 8 && i < 64
    ensures Bit(x, i) && n <= i >> 3 ==> Bit((x >> (8 * n)) << (8 * n), i)
  {
  }

  /** The cut keeps exactly the squares of `diag` on the bishop's rank or above. */
  lemma CutBit(diag: bv64, loc: Location, i: bv64)
    requires i < 64
    ensures Bit(Cut(diag, loc), i) <==> Bit(diag, i) && Rank(loc) <= i >> 3
  {
    CutSound(diag, Rank(loc), i);
    CutComplete(diag, Rank(loc), i);
  }

  /**
   * `diagonal_moves`: the stroke of `diag` from `loc` upwards. Subtracting one
   * (adding `u64::MAX`) from my pieces keeps the squares below the first one;
   * the opponent's pieces are first moved up one rank so that the first of
   * them stays reachable as a capture.
   */
  function DiagonalMoves(pos: Positions, loc: Location, diag: bv64): (r: bv64)
    ensures r & !(Cut(diag, loc) & !Pos(loc)) == 0
  {
    Stroke(pos.mine, pos.opponent, Cut(diag, loc), Pos(loc))
  }

  /** The body of `diagonal_moves` on the cut diagonal `diag` and the bishop's square `own`. */
  function Stroke(mine: bv64, opponent: bv64, diag: bv64, own: bv64): bv64 {
    var mine := mine & diag & !own;
    var opponent := opponent & diag;
    var unblockedM := mine + 0xffff_ffff_ffff_ffff;
    var unblockedO := (opponent << 8) + 0xffff_ffff_ffff_ffff;
    unblockedM & unblockedO & diag & !own
  }

  /** `rightside_moves`. */
  function RightsideMoves(pos: Positions, loc: Location): (r: bv64)
    ensures r & !RightDiagonal(loc) == 0
  {
    DiagonalMoves(pos, loc, RightDiagonal(loc))
  }

  /** `leftside_moves`. */
  function LeftsideMoves(pos: Positions, loc: Location): (r: bv64)
    ensures r & !LeftDiagonal(loc) == 0
  {
    DiagonalMoves(pos, loc, LeftDiagonal(loc))
  }

  /**
   * `bishop_moves`: the two upward strokes and the mirrors of the two
   * strokes of the mirrored board. No stroke, direct or mirrored, gives back
   * the bishop's own square.
   */
  function BishopMoves(pos: Positions, loc: Location): (r: bv64)
    ensures r & Pos(loc) == 0
  {
    MirroredRightApart(pos, loc);
    MirroredLeftApart(pos, loc);
    var downRight := RightsideMoves(pos, loc);
    var downLeft := LeftsideMoves(pos, loc);
    var upRight := Invert(RightsideMoves(InvertPositions(pos), InvertLocation(loc)));
    var upLeft := Invert(LeftsideMoves(InvertPositions(pos), InvertLocation(loc)));
    downRight | downLeft | upRight | upLeft
  }

  /** The source's fixture: the opponent on 8 and 9, mine on 54, 55 and 4, the bishop on (2, 2). */
  lemma BishopFixture()
    ensures BishopMoves(New(0x00c0_0000_0000_0010, 0x300), FromPair(2, 2)) == 35257554307584
  {
  }

  /**
   * The opponent is moved up a whole rank (8 squares) while a left stroke
   * advances 7 squares per rank, so the stroke passes one square beyond the
   * first opponent piece: a bishop on e1 with an opponent on d2 is offered c3.
   */
  lemma OvershootsCapture()
    ensures Bit(BishopMoves(New(0, Square(11)), FromPair(0, 4)), 18)
  {
  }

  /**
   * Subtracting one from my pieces keeps every piece of mine past the first
   * one: with mine on d4 and e5 a bishop on c3 is offered e5, a square of its
   * own.
   */
  lemma ReachesOwnPiece()
    ensures Bit(BishopMoves(New(Square(27) | Square(36), 0), FromPair(2, 2)), 36)
  {
  }

  /**
   * The stroke as it is evidently meant: the opponent is moved up by one
   * square, and only the squares strictly below the lowest (shifted) blocker
   * are kept.
   */
  function DiagonalMovesFixed(pos: Positions, loc: Location, diag: bv64): (r: bv64)
    ensures r & !(Cut(diag, loc) & !Pos(loc)) == 0
  {
    StrokeFixed(pos.mine, pos.opponent, Cut(diag, loc), Pos(loc))
  }

  function StrokeFixed(mine: bv64, opponent: bv64, diag: bv64, own: bv64): bv64 {
    BelowLowest(mine & diag & !own) & BelowLowest(2 * (opponent & diag)) & diag & !own
  }

  /** Subtract one, then clear `m`: the squares below the lowest square of `m` (all of them when `m` is empty). */
  function BelowLowest(m: bv64): bv64 {
    (m + 0xffff_ffff_ffff_ffff) & !m
  }

  /** Subtracting one and clearing `m` keeps exactly the squares below the lowest square of `m`. */
  lemma BelowLowestSound(m: bv64, i: bv64)
    requires i < 64
    ensures Bit(BelowLowest(m), i) ==> m & Below(i) == 0
  {
  }

  lemma BelowLowestComplete(m: bv64, i: bv64)
    requires i < 64
    ensures m & Below(i) == 0 ==> Bit(BelowLowest(m), i)
  {
  }

  lemma FixedOnStroke(mine: bv64, opponent: bv64, diag: bv64, own: bv64, i: bv64)
    requires i < 64
    ensures Bit(StrokeFixed(mine, opponent, diag, own), i) ==> Bit(diag, i) && !Bit(own, i)
  {
  }

  lemma FixedMineClear(mine: bv64, opponent: bv64, diag: bv64, own: bv64, i: bv64)
    requires i < 64 && Bit(StrokeFixed(mine, opponent, diag, own), i)
    ensures (mine & diag & !own) & Below(i) == 0
  {
    FixedBelowMine(mine, opponent, diag, own, i);
    BelowLowestSound(mine & diag & !own, i);
  }

  lemma FixedOpponentClear(mine: bv64, opponent: bv64, diag: bv64, own: bv64, i: bv64)
    requires i < 64 && Bit(StrokeFixed(mine, opponent, diag, own), i)
    ensures (2 * (opponent & diag)) & Below(i) == 0
  {
    FixedBelowOpponent(mine, opponent, diag, own, i);
    BelowLowestSound(2 * (opponent & diag), i);
  }

  lemma FixedBelowMine(mine: bv64, opponent: bv64, diag: bv64, own: bv64, i: bv64)
    requires i < 64 && Bit(StrokeFixed(mine, opponent, diag, own), i)
    ensures Bit(BelowLowest(mine & diag & !own), i)
  {
    var a := BelowLowest(mine & diag & !own);
    AndFirst(a, BelowLowest(2 * (opponent & diag)), diag, !own, i);
  }

  lemma AndFirst(a: bv64, b: bv64, c: bv64, d: bv64, i: bv64)
    requires i < 64 && Bit(a & b & c & d, i)
    ensures Bit(a, i)
  {
  }

  lemma FixedBelowOpponent(mine: bv64, opponent: bv64, diag: bv64, own: bv64, i: bv64)
    requires i < 64 && Bit(StrokeFixed(mine, opponent, diag, own), i)
    ensures Bit(BelowLowest(2 * (opponent & diag)), i)
  {
  }

  lemma FixedComplete(mine: bv64, opponent: bv64, diag: bv64, own: bv64, i: bv64)
    requires i < 64
    ensures (Bit(diag, i) && !Bit(own, i) && (mine & diag & !own) & Below(i) == 0
             && (2 * (opponent & diag)) & Below(i) == 0) ==> Bit(StrokeFixed(mine, opponent, diag, own), i)
  {
  }

  /**
   * The corrected stroke is exactly the squares `i` of the cut diagonal other
   * than the bishop's own square such that no other piece of mine stands on
   * the stroke at or below `i`, and no opponent piece of the stroke, moved up
   * one square, lands at or below `i` (so none stands strictly below it): the
   * walk stops on the first opponent piece (a capture) and just before the
   * first piece of mine.
   */
  lemma StrokeFixedRef(mine: bv64, opponent: bv64, diag: bv64, own: bv64, i: bv64)
    requires i < 64
    ensures Bit(StrokeFixed(mine, opponent, diag, own), i) <==>
      Bit(diag, i) && !Bit(own, i) && (mine & diag & !own) & Below(i) == 0
      && (2 * (opponent & diag)) & Below(i) == 0
  {
    FixedOnStroke(mine, opponent, diag, own, i);
    if Bit(StrokeFixed(mine, opponent, diag, own), i) {
      FixedMineClear(mine, opponent, diag, own, i);
      FixedOpponentClear(mine, opponent, diag, own, i);
    }
    FixedComplete(mine, opponent, diag, own, i);
  }

  lemma FixedLooseMine(mine: bv64, opponent: bv64, diag: bv64, own: bv64, i: bv64)
    requires i < 64
    ensures Bit(StrokeFixed(mine, opponent, diag, own), i) ==> Bit((mine & diag & !own) + 0xffff_ffff_ffff_ffff, i)
  {
  }

  lemma FixedLooseOpponent(mine: bv64, opponent: bv64, diag: bv64, own: bv64, i: bv64)
    requires i < 64
    ensures Bit(StrokeFixed(mine, opponent, diag, own), i) ==> Bit(((opponent & diag) << 8) + 0xffff_ffff_ffff_ffff, i)
  {
  }

  lemma StrokeFromParts(mine: bv64, opponent: bv64, diag: bv64, own: bv64, i: bv64)
    requires i < 64
    ensures (Bit(diag, i) && !Bit(own, i) && Bit((mine & diag & !own) + 0xffff_ffff_ffff_ffff, i)
             && Bit(((opponent & diag) << 8) + 0xffff_ffff_ffff_ffff, i)) ==> Bit(Stroke(mine, opponent, diag, own), i)
  {
  }

  /**
   * The stroke as written holds every square of the corrected one: its two
   * defects only ever add squares, never hide one.
   */
  lemma StrokeOverApprox(mine: bv64, opponent: bv64, diag: bv64, own: bv64, i: bv64)
    requires i < 64
    ensures Bit(StrokeFixed(mine, opponent, diag, own), i) ==> Bit(Stroke(mine, opponent, diag, own), i)
  {
    FixedLooseMine(mine, opponent, diag, own, i);
    FixedLooseOpponent(mine, opponent, diag, own, i);
    FixedOnStroke(mine, opponent, diag, own, i);
    StrokeFromParts(mine, opponent, diag, own, i);
  }

  /** `diagonal_moves` as written holds every square of the corrected stroke. */
  lemma DiagonalOverApprox(pos: Positions, loc: Location, diag: bv64, i: bv64)
    requires i < 64
    ensures Bit(DiagonalMovesFixed(pos, loc, diag), i) ==> Bit(DiagonalMoves(pos, loc, diag), i)
  {
    StrokeOverApprox(pos.mine, pos.opponent, Cut(diag, loc), Pos(loc), i);
  }

  function RightsideMovesFixed(pos: Positions, loc: Location): (r: bv64)
    ensures r & !RightDiagonal(loc) == 0
  {
    DiagonalMovesFixed(pos, loc, RightDiagonal(loc))
  }

  function LeftsideMovesFixed(pos: Positions, loc: Location): (r: bv64)
    ensures r & !LeftDiagonal(loc) == 0
  {
    DiagonalMovesFixed(pos, loc, LeftDiagonal(loc))
  }

  /** `bishop_moves` assembled as in the source from the corrected strokes; it never gives back its own square either. */
  function BishopMovesFixed(pos: Positions, loc: Location): (r: bv64)
    ensures r & Pos(loc) == 0
  {
    MirroredRightFixedApart(pos, loc);
    MirroredLeftFixedApart(pos, loc);
    var downRight := RightsideMovesFixed(pos, loc);
    var downLeft := LeftsideMovesFixed(pos, loc);
    var upRight := Invert(RightsideMovesFixed(InvertPositions(pos), InvertLocation(loc)));
    var upLeft := Invert(LeftsideMovesFixed(InvertPositions(pos), InvertLocation(loc)));
    downRight | downLeft | upRight | upLeft
  }

  /** The corrected bishop keeps the source's fixture, and no longer shows either defect. */
  lemma BishopFixedExamples()
    ensures BishopMovesFixed(New(0x00c0_0000_0000_0010, 0x300), FromPair(2, 2)) == 35257554307584
    ensures !Bit(BishopMovesFixed(New(0, Square(11)), FromPair(0, 4)), 18)
    ensures Bit(BishopMovesFixed(New(0, Square(11)), FromPair(0, 4)), 11)
    ensures !Bit(BishopMovesFixed(New(Square(27) | Square(36), 0), FromPair(2, 2)), 36)
  {
  }

  /** A square of a corrected stroke is a square of `diag`, past the bishop, on its rank or above. */
  lemma StrokeSquare(pos: Positions, loc: Location, diag: bv64, i: bv64)
    requires i < 64
    ensures Bit(DiagonalMovesFixed(pos, loc, diag), i) ==> Bit(diag, i) && Rank(loc) <= i >> 3 && i != Index(loc)
  {
    FixedOnStroke(pos.mine, pos.opponent, Cut(diag, loc), Pos(loc), i);
    CutBit(diag, loc, i);
    SquareBit(Index(loc), i);
  }

  lemma RightPast(loc: Location, i: bv64)
    requires i < 64
    ensures Bit(RightDiagonal(loc), i) && Rank(loc) <= i >> 3 && i != Index(loc) ==>
      (i >> 3) + File(loc) == (i & 7) + Rank(loc) && Rank(loc) < i >> 3
  {
    RightDiagonalBit(loc, i);
  }

  lemma LeftPast(loc: Location, i: bv64)
    requires i < 64
    ensures Bit(LeftDiagonal(loc), i) && Rank(loc) <= i >> 3 && i != Index(loc) ==>
      (i >> 3) + (i & 7) == Rank(loc) + File(loc) && Rank(loc) < i >> 3
  {
    LeftDiagonalBit(loc, i);
  }

  /**
   * A corrected right-side square lies on the bishop's right diagonal, on a
   * higher rank than the bishop.
   */
  lemma RightsideFixedOnDiagonal(pos: Positions, loc: Location, i: bv64)
    requires i < 64
    ensures Bit(RightsideMovesFixed(pos, loc), i) ==>
      (i >> 3) + File(loc) == (i & 7) + Rank(loc) && Rank(loc) < i >> 3
  {
    StrokeSquare(pos, loc, RightDiagonal(loc), i);
    RightPast(loc, i);
  }

  /** A corrected left-side square lies on the bishop's left diagonal, on a higher rank. */
  lemma LeftsideFixedOnDiagonal(pos: Positions, loc: Location, i: bv64)
    requires i < 64
    ensures Bit(LeftsideMovesFixed(pos, loc), i) ==>
      (i >> 3) + (i & 7) == Rank(loc) + File(loc) && Rank(loc) < i >> 3
  {
    StrokeSquare(pos, loc, LeftDiagonal(loc), i);
    LeftPast(loc, i);
  }

  /** A stroke of the mirrored board, mirrored back, never holds the bishop's own square. */
  lemma MirroredRightApart(pos: Positions, loc: Location)
    ensures Invert(RightsideMoves(InvertPositions(pos), InvertLocation(loc))) & Pos(loc) == 0
  {
    InvertLocationPos(loc);
    InvertApart(RightsideMoves(InvertPositions(pos), InvertLocation(loc)), Pos(loc));
  }

  lemma MirroredLeftApart(pos: Positions, loc: Location)
    ensures Invert(LeftsideMoves(InvertPositions(pos), InvertLocation(loc))) & Pos(loc) == 0
  {
    InvertLocationPos(loc);
    InvertApart(LeftsideMoves(InvertPositions(pos), InvertLocation(loc)), Pos(loc));
  }

  lemma MirroredRightFixedApart(pos: Positions, loc: Location)
    ensures Invert(RightsideMovesFixed(InvertPositions(pos), InvertLocation(loc))) & Pos(loc) == 0
  {
    InvertLocationPos(loc);
    InvertApart(RightsideMovesFixed(InvertPositions(pos), InvertLocation(loc)), Pos(loc));
  }

  lemma MirroredLeftFixedApart(pos: Positions, loc: Location)
    ensures Invert(LeftsideMovesFixed(InvertPositions(pos), InvertLocation(loc))) & Pos(loc) == 0
  {
    InvertLocationPos(loc);
    InvertApart(LeftsideMovesFixed(InvertPositions(pos), InvertLocation(loc)), Pos(loc));
  }
}
