/**
 * Rook destinations by carry propagation (engine/src/moves/rook.rs).
 *
 * Each one-sided run adds an occupancy to an all-ones run so that the carry
 * clears every square past the first blocker. The source's plain `+` and
 * `2 *` can overflow on the last rank; they are modelled as the wrapping u64
 * operations they compute on release builds (bv64 arithmetic wraps).
 */
module Rook {
  import opened BitUtils
  import opened EngineLocation
  import opened Positions

  /** `rank_leftside`: the run from `loc` towards the high files of its rank. */
  function RankLeftside(pos: Positions, loc: Location): (r: bv64)
    ensures r & !RankMask(Rank(loc)) == 0
  {
    var brank := RankMask(Rank(loc));
    var ignore := brank + Pos(loc);
    var brank := brank & !ignore;
    var selfBlock := (pos.mine + brank) & brank & !pos.mine;
    var attack := (2 * pos.opponent + brank) & brank & !(2 * pos.opponent);
    selfBlock & attack
  }

  /** `file_downwards`: the run from `loc` towards the high ranks of its file. */
  function FileDownwards(pos: Positions, loc: Location): (r: bv64)
    ensures r & !FileMask(File(loc)) == 0
  {
    var bfile := FileMask(File(loc));
    var ignore := 0xffff_ffff_ffff_ffff + Pos(loc);
    var bfile := bfile & !ignore;
    var mine := !bfile | pos.mine;
    var opponent := !bfile | (pos.opponent << 8);
    var blocking := mine | opponent;
    (blocking + bfile) & bfile & !blocking
  }

  /**
   * `rank_positions`: both runs along the rank, the second one computed on the mirrored board.
   * The source mirrors with `invert_u64`, which rook.rs imports but utils.rs does not define;
   * it is taken to be `invert` (`BitUtils.Invert`), the only 64-bit mirror utils.rs has.
   */
  function RankPositions(pos: Positions, loc: Location): (r: bv64)
    ensures r & !RankMask(Rank(loc)) == 0
    ensures r & Pos(loc) == 0
  {
    var leftside := RankLeftside(pos, loc);
    var rightside := Invert(RankLeftside(InvertPositions(pos), InvertLocation(loc)));
    InvertRank(7 - Rank(loc));
    (leftside | rightside) & !Pos(loc)
  }

  /**
   * `file_positions`: both runs along the file; unlike the rank, the source square is not removed here.
   * As in `RankPositions`, the undefined `invert_u64` is taken to be `invert` (`BitUtils.Invert`).
   */
  function FilePositions(pos: Positions, loc: Location): (r: bv64)
    ensures r & !FileMask(File(loc)) == 0
  {
    var downwards := FileDownwards(pos, loc);
    var upwards := Invert(FileDownwards(InvertPositions(pos), InvertLocation(loc)));
    InvertFile(7 - File(loc));
    downwards | upwards
  }

  /** `rook_moves`. */
  function RookMoves(pos: Positions, loc: Location): (r: bv64)
    ensures r & Pos(loc) == 0
    ensures r & !(RankMask(Rank(loc)) | FileMask(File(loc))) == 0
  {
    var rank := RankPositions(pos, loc);
    var file := FilePositions(pos, loc);
    (rank | file) & !Pos(loc)
  }

  /** The left-side run holds no square outside the rank, nor below `loc`. */
  lemma LeftsideSound(pos: Positions, loc: Location, i: bv64)
    requires i < 64
    ensures Bit(RankLeftside(pos, loc), i) ==>
      i >> 3 == Rank(loc) && Index(loc) <= i && (pos.mine | (2 * pos.opponent)) & Span(Index(loc), i) == 0
  {
  }

  lemma LeftsideComplete(pos: Positions, loc: Location, i: bv64)
    requires i < 64
    ensures i >> 3 == Rank(loc) && Index(loc) <= i && (pos.mine | (2 * pos.opponent)) & Span(Index(loc), i) == 0 ==>
      Bit(RankLeftside(pos, loc), i)
  {
  }

  /**
   * The left-side run is exactly the squares `i` of the rank, at or above `loc`,
   * such that no square of `loc..i` is mine and no square of `loc - 1..i - 1` is
   * the opponent's: the first opponent piece is included (a capture), the
   * first piece of mine is not. An opponent piece on file 7 of the rank below
   * counts as standing just before file 0, and a piece of mine on `loc` itself
   * blocks the whole run.
   */
  lemma LeftsideRef(pos: Positions, loc: Location, i: bv64)
    requires i < 64
    ensures Bit(RankLeftside(pos, loc), i) <==>
      i >> 3 == Rank(loc) && Index(loc) <= i && (pos.mine | (2 * pos.opponent)) & Span(Index(loc), i) == 0
  {
    LeftsideSound(pos, loc, i);
    LeftsideComplete(pos, loc, i);
  }

  lemma DownwardsSound(pos: Positions, loc: Location, i: bv64)
    requires i < 64
    ensures Bit(FileDownwards(pos, loc), i) ==>
      i & 7 == File(loc)
      && Index(loc) <= i && (pos.mine | (pos.opponent << 8)) & FileMask(File(loc)) & Span(Index(loc), i) == 0
  {
  }

  lemma DownwardsComplete(pos: Positions, loc: Location, i: bv64)
    requires i < 64
    ensures i & 7 == File(loc) && Index(loc) <= i
      && (pos.mine | (pos.opponent << 8)) & FileMask(File(loc)) & Span(Index(loc), i) == 0
      ==> Bit(FileDownwards(pos, loc), i)
  {
  }

  /**
   * The downward run is exactly the squares `i` of the file, at or above `loc`,
   * such that no square of the file on `loc..i` is mine and none on the ranks
   * one below is the opponent's; a piece of mine on `loc` blocks the whole run.
   */
  lemma DownwardsRef(pos: Positions, loc: Location, i: bv64)
    requires i < 64
    ensures Bit(FileDownwards(pos, loc), i) <==>
      i & 7 == File(loc)
      && Index(loc) <= i && (pos.mine | (pos.opponent << 8)) & FileMask(File(loc)) & Span(Index(loc), i) == 0
  {
    DownwardsSound(pos, loc, i);
    DownwardsComplete(pos, loc, i);
  }

  /** The rank fixture: my pieces on 14 and 15, the opponent's on 8 and 9, the rook on (1, 4). */
  lemma RankFixture()
    ensures RankPositions(New(0xc000, 0x300), FromPair(1, 4)) == 0x2e00
  {
  }

  /** The file fixture: the result keeps the source square, bit 19. */
  lemma FileFixture()
    ensures FilePositions(New(0x8, 0x8_0000_0000_0000), FromPair(2, 3)) == 2260630401189888
    ensures Bit(FilePositions(New(0x8, 0x8_0000_0000_0000), FromPair(2, 3)), 19)
  {
  }

  lemma RookFixture()
    ensures RookMoves(New(0xc000, 0x10_0000_0000_0300), FromPair(1, 4)) == 4521260802387472
  {
  }

  /**
   * The runs put `loc` itself on the path, so a snapshot whose `mine` holds the
   * rook's own square (as every snapshot built from a full board does) blocks
   * every run: a lone rook on a1 gets no move at all.
   */
  lemma SelfBlocked()
    ensures RookMoves(New(Square(0), 0), FromPair(0, 0)) == 0
  {
  }

  /**
   * An opponent piece on the square just behind `loc` (one file lower on the
   * rank) shifts onto `loc` and blocks the left-side run as well: with the rook
   * on e2 and an opponent pawn on d2, f2 is not offered.
   */
  lemma BehindBlocked()
    ensures !Bit(RankPositions(New(0, Square(11)), FromPair(1, 4)), 13)
  {
  }

  /**
   * The left-side run as it is evidently meant: the run starts one square past
   * `loc`, and only blockers on that run count.
   */
  function RankLeftsideFixed(pos: Positions, loc: Location): (r: bv64)
    ensures r & !RankMask(Rank(loc)) == 0
    ensures r & Pos(loc) == 0
  {
    var brank := RankMask(Rank(loc));
    var run := brank & !(brank + Pos(loc)) & !Pos(loc);
    var mine := pos.mine & run;
    var opponent := (2 * pos.opponent) & run;
    var selfBlock := (mine + run) & run & !mine;
    var attack := (opponent + run) & run & !opponent;
    selfBlock & attack
  }

  /** The downward run as it is evidently meant, starting one rank past `loc`. */
  function FileDownwardsFixed(pos: Positions, loc: Location): (r: bv64)
    ensures r & !FileMask(File(loc)) == 0
    ensures r & Pos(loc) == 0
  {
    var bfile := FileMask(File(loc));
    var run := bfile & !(0xffff_ffff_ffff_ffff + Pos(loc)) & !Pos(loc);
    var blocking := !run | pos.mine | (pos.opponent << 8);
    (blocking + run) & run & !blocking
  }

  lemma LeftsideFixedSound(pos: Positions, loc: Location, i: bv64)
    requires i < 64
    ensures Bit(RankLeftsideFixed(pos, loc), i) ==>
      i >> 3 == Rank(loc) && Index(loc) < i && (pos.mine | (2 * pos.opponent)) & Span(Index(loc) + 1, i) == 0
  {
  }

  lemma LeftsideFixedComplete(pos: Positions, loc: Location, i: bv64)
    requires i < 64
    ensures i >> 3 == Rank(loc) && Index(loc) < i && (pos.mine | (2 * pos.opponent)) & Span(Index(loc) + 1, i) == 0 ==>
      Bit(RankLeftsideFixed(pos, loc), i)
  {
  }

  /**
   * The corrected left-side run is exactly the squares `i` of the rank past
   * `loc` such that no square of `loc + 1..i` is mine and no square of
   * `loc..i - 1` is the opponent's: the first opponent piece is a capture, the
   * first piece of mine stops the run, and `loc` itself never blocks.
   */
  lemma LeftsideFixedRef(pos: Positions, loc: Location, i: bv64)
    requires i < 64
    ensures Bit(RankLeftsideFixed(pos, loc), i) <==>
      i >> 3 == Rank(loc) && Index(loc) < i && (pos.mine | (2 * pos.opponent)) & Span(Index(loc) + 1, i) == 0
  {
    LeftsideFixedSound(pos, loc, i);
    LeftsideFixedComplete(pos, loc, i);
  }

  lemma DownwardsFixedSound(pos: Positions, loc: Location, i: bv64)
    requires i < 64
    ensures Bit(FileDownwardsFixed(pos, loc), i) ==>
      i & 7 == File(loc)
      && Index(loc) < i && (pos.mine | (pos.opponent << 8)) & FileMask(File(loc)) & Span(Index(loc) + 1, i) == 0
  {
  }

  lemma DownwardsFixedComplete(pos: Positions, loc: Location, i: bv64)
    requires i < 64
    ensures i & 7 == File(loc) && Index(loc) < i
      && (pos.mine | (pos.opponent << 8)) & FileMask(File(loc)) & Span(Index(loc) + 1, i) == 0
      ==> Bit(FileDownwardsFixed(pos, loc), i)
  {
  }

  /**
   * The corrected downward run is exactly the squares `i` of the file past
   * `loc` such that no file square of `loc + 8..i` is mine and none of
   * `loc..i - 8` is the opponent's.
   */
  lemma DownwardsFixedRef(pos: Positions, loc: Location, i: bv64)
    requires i < 64
    ensures Bit(FileDownwardsFixed(pos, loc), i) <==>
      i & 7 == File(loc)
      && Index(loc) < i && (pos.mine | (pos.opponent << 8)) & FileMask(File(loc)) & Span(Index(loc) + 1, i) == 0
  {
    DownwardsFixedSound(pos, loc, i);
    DownwardsFixedComplete(pos, loc, i);
  }

  /** `rank_positions` on the corrected runs. */
  function RankPositionsFixed(pos: Positions, loc: Location): (r: bv64)
    ensures r & !RankMask(Rank(loc)) == 0
    ensures r & Pos(loc) == 0
  {
    var leftside := RankLeftsideFixed(pos, loc);
    var rightside := Invert(RankLeftsideFixed(InvertPositions(pos), InvertLocation(loc)));
    InvertRank(7 - Rank(loc));
    (leftside | rightside) & !Pos(loc)
  }

  /** `file_positions` on the corrected runs. */
  function FilePositionsFixed(pos: Positions, loc: Location): (r: bv64)
    ensures r & !FileMask(File(loc)) == 0
  {
    var downwards := FileDownwardsFixed(pos, loc);
    var upwards := Invert(FileDownwardsFixed(InvertPositions(pos), InvertLocation(loc)));
    InvertFile(7 - File(loc));
    downwards | upwards
  }

  /** `rook_moves` assembled as in the source from the corrected runs. */
  function RookMovesFixed(pos: Positions, loc: Location): (r: bv64)
    ensures r & Pos(loc) == 0
    ensures r & !(RankMask(Rank(loc)) | FileMask(File(loc))) == 0
  {
    (RankPositionsFixed(pos, loc) | FilePositionsFixed(pos, loc)) & !Pos(loc)
  }

  /** With the fix, the lone rook on a1 (its own square marked mine) reaches its whole rank and file. */
  lemma LoneRookFixed()
    ensures RookMovesFixed(New(Square(0), 0), FromPair(0, 0)) == 0x0101_0101_0101_01fe
  {
  }

  /** The source's rook fixture gives the same answer with the fix, also with the rook's own square marked mine. */
  lemma RookFixtureFixed()
    ensures RookMovesFixed(New(0xc000, 0x10_0000_0000_0300), FromPair(1, 4)) == 4521260802387472
    ensures RookMovesFixed(New(0xd000, 0x10_0000_0000_0300), FromPair(1, 4)) == 4521260802387472
  {
  }

  /** With the fix, the opponent pawn behind the rook no longer hides f2. */
  lemma BehindFixed()
    ensures Bit(RookMovesFixed(New(Square(12), Square(11)), FromPair(1, 4)), 13)
  {
  }
}
