/**
 * Pawn capture shifts of the engine (engine/src/moves/pawn.rs).
 *
 * In the engine's layout White starts on ranks 6 and 7 and moves towards rank
 * 0, Black the other way. A capture moves a pawn one rank forward and one file
 * sideways, which is a shift of the whole pawn bitboard by 9 or by 7 squares.
 * `pawn_moves` is left unimplemented in the source (`todo!()`), so it is not
 * part of this module; the move cache takes it as a parameter.
 */
module Pawn {
  import opened BitUtils
  import opened EnginePiece
  import opened Positions

  /** `(b as u8)`. */
  function Indicator(b: bool): bv64 {
    if b then 1 else 0
  }

  /** The source's branch-free shift: down by `k * white`, then up by `k * black`. */
  function ShiftPair(pawns: bv64, k: bv64, white: bv64, black: bv64): bv64
    requires k == 7 || k == 9
    requires white < 2 && black < 2
  {
    (pawns >> (k * white)) << (k * black)
  }

  /**
   * `left_captures`: White pawns shifted down by 9 squares, Black pawns up by
   * 9; `pos` is not read. The source computes this without a branch, as
   * `ShiftPair(pawns, 9, white, black)`; `LeftCapturesFormula` proves the two equal.
   * A shift only loses squares, so there are never more captures than pawns.
   */
  function LeftCaptures(pos: Positions, pawns: bv64, color: Color): (r: bv64)
    ensures PopCount(r) <= PopCount(pawns)
  {
    Shr9Count(pawns);
    Shl9Count(pawns);
    if color == White then pawns >> 9 else pawns << 9
  }

  /** `right_captures`: the same with a shift of 7 squares. */
  function RightCaptures(pos: Positions, pawns: bv64, color: Color): (r: bv64)
    ensures PopCount(r) <= PopCount(pawns)
  {
    Shr7Count(pawns);
    Shl7Count(pawns);
    if color == White then pawns >> 7 else pawns << 7
  }

  /** With exactly one of the two flags set, the branch-free shift moves one way only. */
  lemma ShiftPairOneWay(x: bv64)
    ensures ShiftPair(x, 9, 1, 0) == x >> 9 && ShiftPair(x, 9, 0, 1) == x << 9
    ensures ShiftPair(x, 7, 1, 0) == x >> 7 && ShiftPair(x, 7, 0, 1) == x << 7
  {
  }

  /** The branch-free formula of the source is the directional shift. */
  lemma LeftCapturesFormula(pos: Positions, pawns: bv64, color: Color)
    ensures LeftCaptures(pos, pawns, color)
      == ShiftPair(pawns, 9, Indicator(color == White), Indicator(color == Black))
  {
    ShiftPairOneWay(pawns);
  }

  lemma RightCapturesFormula(pos: Positions, pawns: bv64, color: Color)
    ensures RightCaptures(pos, pawns, color)
      == ShiftPair(pawns, 7, Indicator(color == White), Indicator(color == Black))
  {
    ShiftPairOneWay(pawns);
  }

  /** The occupancy snapshot plays no part in the captures. */
  lemma CapturesIgnorePositions(p: Positions, q: Positions, pawns: bv64, color: Color)
    ensures LeftCaptures(p, pawns, color) == LeftCaptures(q, pawns, color)
    ensures RightCaptures(p, pawns, color) == RightCaptures(q, pawns, color)
  {
  }

  /** Square `i` of a shift down by 9 comes from square `i + 9`. */
  lemma Down9Bit(x: bv64, i: bv64)
    requires i < 64
    ensures Bit(x >> 9, i) <==> i < 55 && Bit(x, i + 9)
  {
  }

  lemma Down7Bit(x: bv64, i: bv64)
    requires i < 64
    ensures Bit(x >> 7, i) <==> i < 57 && Bit(x, i + 7)
  {
  }

  /** Square `i` of a shift up by 9 comes from square `i - 9`. */
  lemma Up9Bit(x: bv64, i: bv64)
    requires i < 64
    ensures Bit(x << 9, i) <==> 9 <= i && Bit(x, i - 9)
  {
  }

  lemma Up7Bit(x: bv64, i: bv64)
    requires i < 64
    ensures Bit(x << 7, i) <==> 7 <= i && Bit(x, i - 7)
  {
  }

  lemma WhiteLeftBit(pos: Positions, pawns: bv64, i: bv64)
    requires i < 64
    ensures Bit(LeftCaptures(pos, pawns, White), i) <==> i < 55 && Bit(pawns, i + 9)
  {
    Down9Bit(pawns, i);
  }

  lemma BlackLeftBit(pos: Positions, pawns: bv64, i: bv64)
    requires i < 64
    ensures Bit(LeftCaptures(pos, pawns, Black), i) <==> 9 <= i && Bit(pawns, i - 9)
  {
    Up9Bit(pawns, i);
  }

  lemma WhiteRightBit(pos: Positions, pawns: bv64, i: bv64)
    requires i < 64
    ensures Bit(RightCaptures(pos, pawns, White), i) <==> i < 57 && Bit(pawns, i + 7)
  {
    Down7Bit(pawns, i);
  }

  lemma BlackRightBit(pos: Positions, pawns: bv64, i: bv64)
    requires i < 64
    ensures Bit(RightCaptures(pos, pawns, Black), i) <==> 7 <= i && Bit(pawns, i - 7)
  {
    Up7Bit(pawns, i);
  }

  /**
   * Every square of a left capture is 9 squares past a pawn in the mover's
   * direction, and every such square is a left capture.
   */
  lemma LeftCapturesBit(pos: Positions, pawns: bv64, color: Color, i: bv64)
    requires i < 64
    ensures color == White ==> (Bit(LeftCaptures(pos, pawns, color), i) <==> i < 55 && Bit(pawns, i + 9))
    ensures color == Black ==> (Bit(LeftCaptures(pos, pawns, color), i) <==> 9 <= i && Bit(pawns, i - 9))
  {
    if color == White {
      WhiteLeftBit(pos, pawns, i);
    } else {
      BlackLeftBit(pos, pawns, i);
    }
  }

  /** The same for right captures, 7 squares away. */
  lemma RightCapturesBit(pos: Positions, pawns: bv64, color: Color, i: bv64)
    requires i < 64
    ensures color == White ==> (Bit(RightCaptures(pos, pawns, color), i) <==> i < 57 && Bit(pawns, i + 7))
    ensures color == Black ==> (Bit(RightCaptures(pos, pawns, color), i) <==> 7 <= i && Bit(pawns, i - 7))
  {
    if color == White {
      WhiteRightBit(pos, pawns, i);
    } else {
      BlackRightBit(pos, pawns, i);
    }
  }

  /**
   * No edge file is masked before the shift, so a pawn on the edge file
   * "captures" onto the opposite edge: a White pawn on a7 (6, 0) is given
   * h5 (4, 7) as a left capture, and one on h7 (6, 7) is given a7 (6, 0), on
   * its own rank, as a right capture.
   */
  lemma CapturesWrap(pos: Positions)
    ensures Bit(LeftCaptures(pos, Square(48), White), 39)
    ensures Bit(RightCaptures(pos, Square(55), White), 48)
  {
  }

  /** The edge file a pawn cannot capture from, for each shift: the file the shift would leave. */
  function LeftEdge(color: Color): bv64 {
    if color == White then FirstFile else LastFile
  }

  function RightEdge(color: Color): bv64 {
    if color == White then LastFile else FirstFile
  }

  /** The left capture with the pawns of the wrapping file removed first, as the knight and king do. */
  function LeftCapturesFixed(pos: Positions, pawns: bv64, color: Color): bv64 {
    LeftCaptures(pos, pawns & !LeftEdge(color), color)
  }

  function RightCapturesFixed(pos: Positions, pawns: bv64, color: Color): bv64 {
    RightCaptures(pos, pawns & !RightEdge(color), color)
  }

  /** The source square `i + 9` survives the mask exactly when `i` is below rank 7 and file 7. */
  lemma WhiteLeftSource(pawns: bv64, i: bv64)
    requires i < 64
    ensures (i < 55 && Bit(pawns & !FirstFile, i + 9)) <==> (i >> 3 < 7 && i & 7 < 7 && Bit(pawns, i + 9))
  {
  }

  lemma BlackLeftSource(pawns: bv64, i: bv64)
    requires i < 64
    ensures (9 <= i && Bit(pawns & !LastFile, i - 9)) <==> (0 < i >> 3 && 0 < i & 7 && Bit(pawns, i - 9))
  {
  }

  lemma WhiteRightSource(pawns: bv64, i: bv64)
    requires i < 64
    ensures (i < 57 && Bit(pawns & !LastFile, i + 7)) <==> (i >> 3 < 7 && 0 < i & 7 && Bit(pawns, i + 7))
  {
  }

  lemma BlackRightSource(pawns: bv64, i: bv64)
    requires i < 64
    ensures (7 <= i && Bit(pawns & !FirstFile, i - 7)) <==> (0 < i >> 3 && i & 7 < 7 && Bit(pawns, i - 7))
  {
  }

  lemma WhiteLeftFixed(pos: Positions, pawns: bv64, i: bv64)
    requires i < 64
    ensures Bit(LeftCapturesFixed(pos, pawns, White), i) <==> i >> 3 < 7 && i & 7 < 7 && Bit(pawns, i + 9)
  {
    WhiteLeftBit(pos, pawns & !FirstFile, i);
    WhiteLeftSource(pawns, i);
  }

  lemma BlackLeftFixed(pos: Positions, pawns: bv64, i: bv64)
    requires i < 64
    ensures Bit(LeftCapturesFixed(pos, pawns, Black), i) <==> 0 < i >> 3 && 0 < i & 7 && Bit(pawns, i - 9)
  {
    BlackLeftBit(pos, pawns & !LastFile, i);
    BlackLeftSource(pawns, i);
  }

  lemma WhiteRightFixed(pos: Positions, pawns: bv64, i: bv64)
    requires i < 64
    ensures Bit(RightCapturesFixed(pos, pawns, White), i) <==> i >> 3 < 7 && 0 < i & 7 && Bit(pawns, i + 7)
  {
    WhiteRightBit(pos, pawns & !LastFile, i);
    WhiteRightSource(pawns, i);
  }

  lemma BlackRightFixed(pos: Positions, pawns: bv64, i: bv64)
    requires i < 64
    ensures Bit(RightCapturesFixed(pos, pawns, Black), i) <==> 0 < i >> 3 && i & 7 < 7 && Bit(pawns, i - 7)
  {
    BlackRightBit(pos, pawns & !FirstFile, i);
    BlackRightSource(pawns, i);
  }

  /** A White pawn on (r + 1, f + 1) captures left onto (r, f); a Black one on (r - 1, f - 1). */
  lemma LeftFixedBit(pos: Positions, pawns: bv64, color: Color, i: bv64)
    requires i < 64
    ensures color == White ==> (Bit(LeftCapturesFixed(pos, pawns, color), i) <==>
      i >> 3 < 7 && i & 7 < 7 && Bit(pawns, i + 9))
    ensures color == Black ==> (Bit(LeftCapturesFixed(pos, pawns, color), i) <==>
      0 < i >> 3 && 0 < i & 7 && Bit(pawns, i - 9))
  {
    if color == White {
      WhiteLeftFixed(pos, pawns, i);
    } else {
      BlackLeftFixed(pos, pawns, i);
    }
  }

  /** A White pawn on (r + 1, f - 1) captures right onto (r, f); a Black one on (r - 1, f + 1). */
  lemma RightFixedBit(pos: Positions, pawns: bv64, color: Color, i: bv64)
    requires i < 64
    ensures color == White ==> (Bit(RightCapturesFixed(pos, pawns, color), i) <==>
      i >> 3 < 7 && 0 < i & 7 && Bit(pawns, i + 7))
    ensures color == Black ==> (Bit(RightCapturesFixed(pos, pawns, color), i) <==>
      0 < i >> 3 && i & 7 < 7 && Bit(pawns, i - 7))
  {
    if color == White {
      WhiteRightFixed(pos, pawns, i);
    } else {
      BlackRightFixed(pos, pawns, i);
    }
  }

  /** The corrected captures drop the wrapped squares of the example above. */
  lemma CapturesFixedExamples(pos: Positions)
    ensures LeftCapturesFixed(pos, Square(48), White) == 0
    ensures RightCapturesFixed(pos, Square(55), White) == 0
    ensures LeftCapturesFixed(pos, Square(49), White) == Square(40)
  {
  }
}
