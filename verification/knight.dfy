/**
 * Knight destinations from one shifted template (engine/src/moves/knight.rs).
 *
 * The template holds the eight knight jumps from (2, 2); it is shifted onto
 * the knight's square, and the files that a shift wraps across a rank edge
 * are cleared afterwards.
 */
module Knight {
  import opened BitUtils
  import opened EngineLocation
  import opened Positions

  /** `MASK`: the jumps from square (2, 2). */
  const Template: bv64 := 0xa_1100_110a

  /** `LEFT_FILES`: files 0 and 1. */
  const LeftFiles: bv64 := 0x0303_0303_0303_0303

  /** `RIGHT_FILES`: files 6 and 7. */
  const RightFiles: bv64 := 0xc0c0_c0c0_c0c0_c0c0

  lemma FilesMasks()
    ensures LeftFiles == FileMask(0) | FileMask(1)
    ensures RightFiles == FileMask(7) | FileMask(6)
  {
  }

  /** `knight_moves`: never onto one of my pieces, nor onto the knight's own square. */
  function KnightMoves(pos: Positions, loc: Location): (r: bv64)
    ensures r & pos.mine == 0
    ensures r & Pos(loc) == 0
  {
    var upRank := 8 * SaturatingSub(Rank(loc), 2);
    var downRank := 8 * SaturatingSub(2, Rank(loc));
    var rightFile := SaturatingSub(File(loc), 2);
    var leftFile := SaturatingSub(2, File(loc));
    var moves := (((Template << upRank) >> leftFile) >> downRank) << rightFile;
    var f1 := if File(loc) <= 1 then RightFiles else 0;
    var f2 := if 6 <= File(loc) then LeftFiles else 0;
    moves & !pos.mine & !f1 & !f2
  }

  /** The template shifted onto (r, f) with the wrapped files cleared: the jumps before `mine` is removed. */
  function Jumps(r: bv64, f: bv64): bv64
    requires r < 8 && f < 8
  {
    var upRank := 8 * SaturatingSub(r, 2);
    var downRank := 8 * SaturatingSub(2, r);
    var rightFile := SaturatingSub(f, 2);
    var leftFile := SaturatingSub(2, f);
    var moves := (((Template << upRank) >> leftFile) >> downRank) << rightFile;
    var f1 := if f <= 1 then RightFiles else 0;
    var f2 := if 6 <= f then LeftFiles else 0;
    moves & !f1 & !f2
  }

  lemma KnightMovesJumps(pos: Positions, loc: Location)
    ensures KnightMoves(pos, loc) == Jumps(Rank(loc), File(loc)) & !pos.mine
  {
  }

  /** The distance between two coordinates. */
  function Distance(a: bv64, b: bv64): bv64 {
    if a >= b then a - b else b - a
  }

  /** A knight jump: two squares along one axis and one along the other. */
  predicate Jump(r: bv64, f: bv64, r': bv64, f': bv64) {
    (Distance(r, r') == 1 && Distance(f, f') == 2) || (Distance(r, r') == 2 && Distance(f, f') == 1)
  }

  lemma JumpsSound(r: bv64, f: bv64, i: bv64)
    requires r < 8 && f < 8 && i < 64
    ensures Bit(Jumps(r, f), i) ==> Jump(r, f, i >> 3, i & 7)
  {
  }

  lemma JumpsCompleteWide(r: bv64, f: bv64, i: bv64)
    requires r < 8 && f < 8 && i < 64
    ensures Distance(r, i >> 3) == 1 && Distance(f, i & 7) == 2 ==> Bit(Jumps(r, f), i)
  {
  }

  lemma JumpsCompleteTall(r: bv64, f: bv64, i: bv64)
    requires r < 8 && f < 8 && i < 64
    ensures Distance(r, i >> 3) == 2 && Distance(f, i & 7) == 1 ==> Bit(Jumps(r, f), i)
  {
  }

  /** The shifted template holds exactly the on-board squares a knight jump away; nothing wraps around an edge. */
  lemma JumpsRef(r: bv64, f: bv64, i: bv64)
    requires r < 8 && f < 8 && i < 64
    ensures Bit(Jumps(r, f), i) <==> Jump(r, f, i >> 3, i & 7)
  {
    JumpsSound(r, f, i);
    JumpsCompleteWide(r, f, i);
    JumpsCompleteTall(r, f, i);
  }

  lemma JumpsMineSound(r: bv64, f: bv64, mine: bv64, i: bv64)
    requires r < 8 && f < 8 && i < 64
    ensures Bit(Jumps(r, f) & !mine, i) ==> Jump(r, f, i >> 3, i & 7) && !Bit(mine, i)
  {
    BitAndNot(Jumps(r, f), mine, i);
    JumpsSound(r, f, i);
  }

  lemma JumpsMineComplete(r: bv64, f: bv64, mine: bv64, i: bv64)
    requires r < 8 && f < 8 && i < 64
    ensures Jump(r, f, i >> 3, i & 7) && !Bit(mine, i) ==> Bit(Jumps(r, f) & !mine, i)
  {
    BitAndNot(Jumps(r, f), mine, i);
    JumpsCompleteWide(r, f, i);
    JumpsCompleteTall(r, f, i);
  }

  lemma JumpsMineRef(r: bv64, f: bv64, mine: bv64, i: bv64)
    requires r < 8 && f < 8 && i < 64
    ensures Bit(Jumps(r, f) & !mine, i) <==> Jump(r, f, i >> 3, i & 7) && !Bit(mine, i)
  {
    JumpsMineSound(r, f, mine, i);
    JumpsMineComplete(r, f, mine, i);
  }

  /** The knight may go exactly to the squares a jump away that are not mine. */
  lemma KnightRef(pos: Positions, loc: Location, i: bv64)
    requires i < 64
    ensures Bit(KnightMoves(pos, loc), i) <==> Jump(Rank(loc), File(loc), i >> 3, i & 7) && !Bit(pos.mine, i)
  {
    KnightMovesJumps(pos, loc);
    JumpsMineRef(Rank(loc), File(loc), pos.mine, i);
  }

  /** The source's fixture: from (6, 6) on an empty board. */
  lemma KnightFixture()
    ensures KnightMoves(New(0, 0), FromPair(6, 6)) == 0x1000_10a0_0000_0000
  {
  }
}
