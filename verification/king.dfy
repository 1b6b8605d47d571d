/**
 * King destinations from one shifted template (engine/src/moves/king.rs), in
 * the same way as the knight's.
 */
module King {
  import opened BitUtils
  import opened EngineLocation
  import opened Positions
  import Knight

  /** `MASK`: the eight neighbours of square (1, 1). */
  const Template: bv64 := 0x07_0507

  /** `king_moves`: never onto one of my pieces, nor onto the king's own square. */
  function KingMoves(pos: Positions, loc: Location): (r: bv64)
    ensures r & pos.mine == 0
    ensures r & Pos(loc) == 0
  {
    var upRank := 8 * SaturatingSub(Rank(loc), 1);
    var downRank: bv64 := if Rank(loc) == 0 then 8 else 0;
    var rightFile := SaturatingSub(File(loc), 1);
    var leftFile: bv64 := if File(loc) == 0 then 1 else 0;
    var moves := (((Template << upRank) >> leftFile) >> downRank) << rightFile;
    var f1 := if File(loc) == 0 then LastFile else 0;
    var f2 := if File(loc) == 7 then FirstFile else 0;
    (moves & !pos.mine) & !f1 & !f2
  }

  /** The template shifted onto (r, f) with the wrapped file cleared: the steps before `mine` is removed. */
  function Steps(r: bv64, f: bv64): bv64
    requires r < 8 && f < 8
  {
    var upRank := 8 * SaturatingSub(r, 1);
    var downRank: bv64 := if r == 0 then 8 else 0;
    var rightFile := SaturatingSub(f, 1);
    var leftFile: bv64 := if f == 0 then 1 else 0;
    var moves := (((Template << upRank) >> leftFile) >> downRank) << rightFile;
    var f1 := if f == 0 then LastFile else 0;
    var f2 := if f == 7 then FirstFile else 0;
    moves & !f1 & !f2
  }

  lemma KingMovesSteps(pos: Positions, loc: Location)
    ensures KingMoves(pos, loc) == Steps(Rank(loc), File(loc)) & !pos.mine
  {
    var r, f := Rank(loc), File(loc);
    var upRank := 8 * SaturatingSub(r, 1);
    var downRank: bv64 := if r == 0 then 8 else 0;
    var rightFile := SaturatingSub(f, 1);
    var leftFile: bv64 := if f == 0 then 1 else 0;
    var moves := (((Template << upRank) >> leftFile) >> downRank) << rightFile;
    var f1 := if f == 0 then LastFile else 0;
    var f2 := if f == 7 then FirstFile else 0;
    Reorder(moves, pos.mine, f1, f2);
  }

  lemma Reorder(m: bv64, a: bv64, b: bv64, c: bv64)
    ensures ((m & !a) & !b) & !c == ((m & !b) & !c) & !a
  {
  }

  /** A king step: to one of the (up to) eight neighbouring squares. */
  predicate Neighbour(r: bv64, f: bv64, r': bv64, f': bv64) {
    Knight.Distance(r, r') <= 1 && Knight.Distance(f, f') <= 1 && (r != r' || f != f')
  }

  lemma StepsSound(r: bv64, f: bv64, i: bv64)
    requires r < 8 && f < 8 && i < 64
    ensures Bit(Steps(r, f), i) ==> Neighbour(r, f, i >> 3, i & 7)
  {
  }

  lemma StepsComplete(r: bv64, f: bv64, i: bv64)
    requires r < 8 && f < 8 && i < 64
    ensures Neighbour(r, f, i >> 3, i & 7) ==> Bit(Steps(r, f), i)
  {
  }

  lemma StepsMineSound(r: bv64, f: bv64, mine: bv64, i: bv64)
    requires r < 8 && f < 8 && i < 64
    ensures Bit(Steps(r, f) & !mine, i) ==> Neighbour(r, f, i >> 3, i & 7) && !Bit(mine, i)
  {
    BitAndNot(Steps(r, f), mine, i);
    StepsSound(r, f, i);
  }

  lemma StepsMineComplete(r: bv64, f: bv64, mine: bv64, i: bv64)
    requires r < 8 && f < 8 && i < 64
    ensures Neighbour(r, f, i >> 3, i & 7) && !Bit(mine, i) ==> Bit(Steps(r, f) & !mine, i)
  {
    BitAndNot(Steps(r, f), mine, i);
    StepsComplete(r, f, i);
  }

  /** The king may go exactly to the neighbouring squares that are not mine. */
  lemma KingRef(pos: Positions, loc: Location, i: bv64)
    requires i < 64
    ensures Bit(KingMoves(pos, loc), i) <==> Neighbour(Rank(loc), File(loc), i >> 3, i & 7) && !Bit(pos.mine, i)
  {
    KingMovesSteps(pos, loc);
    StepsMineSound(Rank(loc), File(loc), pos.mine, i);
    StepsMineComplete(Rank(loc), File(loc), pos.mine, i);
  }

  /** The source's example square (3, 0) on an empty board: five neighbours, none on file 7. */
  lemma KingExample()
    ensures KingMoves(New(0, 0), FromPair(3, 0)) == 0x0003_0203_0000
  {
  }
}
