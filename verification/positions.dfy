/**
 * The occupancy snapshot of one ply (engine/src/moves/positions.rs): my and
 * the opponent's squares, together with their bit-reversed forms so that a
 * one-sided sliding computation can be reused for the opposite direction.
 */
module Positions {
  import opened BitUtils
  import Bitfields

  datatype Positions = Positions(
    opponent: bv64,
    mine: bv64,
    mine_inverted: bv64,
    opponent_inverted: bv64)

  /** The mirrored fields are the mirrors of the plain ones. */
  predicate Coherent(p: Positions) {
    p.mine_inverted == Invert(p.mine) && p.opponent_inverted == Invert(p.opponent)
  }

  /** `Positions::new`. */
  function New(mine: bv64, opponent: bv64): (p: Positions)
    ensures p.mine == mine && p.opponent == opponent
    ensures Coherent(p)
  {
    Positions(opponent, mine, Invert(mine), Invert(opponent))
  }

  /** `Positions::invert`: the same snapshot seen from the mirrored board. */
  function InvertPositions(p: Positions): (q: Positions)
    ensures q.mine == p.mine_inverted && q.mine_inverted == p.mine
    ensures q.opponent == p.opponent_inverted && q.opponent_inverted == p.opponent
  {
    Positions(p.opponent_inverted, p.mine_inverted, p.mine, p.opponent)
  }

  lemma InvertInvertPositions(p: Positions)
    ensures InvertPositions(InvertPositions(p)) == p
  {
  }

  /** Mirroring keeps the snapshot coherent, and is `new` applied to the mirrored occupancies. */
  lemma InvertKeepsCoherent(p: Positions)
    requires Coherent(p)
    ensures Coherent(InvertPositions(p))
    ensures InvertPositions(p) == New(Invert(p.mine), Invert(p.opponent))
  {
    InvertInvolution(p.mine);
    InvertInvolution(p.opponent);
  }

  /**
   * `Positions::from_bitfields`: `mine` is the OR of all my slot masks and
   * `opponent` the OR of all the opponent's (the royalty pair is king and queen).
   */
  function FromBitfields(mine: Bitfields.Bitfields, opponent: Bitfields.Bitfields): (p: Positions)
    ensures p.mine == OrAll(Bitfields.Masks(mine))
    ensures p.opponent == OrAll(Bitfields.Masks(opponent))
    ensures Coherent(p)
  {
    FromBitfieldsUnion(mine);
    FromBitfieldsUnion(opponent);
    New(Union(mine), Union(opponent))
  }

  /** The source's OR, grouped as it is written: royalty, knights, pawns, rooks, bishops. */
  function Union(b: Bitfields.Bitfields): bv64 {
    0 | OrAll([b.king, b.queen]) | OrAll(b.knight) | OrAll(b.pawn) | OrAll(b.rook) | OrAll(b.bishop)
  }

  lemma FromBitfieldsUnion(b: Bitfields.Bitfields)
    ensures Union(b) == OrAll(Bitfields.Masks(b))
  {
    var r := [b.king, b.queen];
    OrAllAppend(r, b.bishop);
    OrAllAppend(r + b.bishop, b.knight);
    OrAllAppend(r + b.bishop + b.knight, b.rook);
    OrAllAppend(r + b.bishop + b.knight + b.rook, b.pawn);
  }

  /** A square is mine in `from_bitfields` exactly when one of my slot masks holds it. */
  lemma FromBitfieldsSquare(mine: Bitfields.Bitfields, opponent: Bitfields.Bitfields, i: bv64)
    requires i < 64
    ensures Bit(FromBitfields(mine, opponent).mine, i)
      <==> exists j :: 0 <= j < 16 && Bit(Bitfields.Masks(mine)[j], i)
  {
    OrAllBit(Bitfields.Masks(mine), i);
  }
}
