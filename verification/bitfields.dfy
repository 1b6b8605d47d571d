/** Per-slot one-square masks of a player (engine/src/moves/bitfields.rs). */
module Bitfields {
  import opened Wrappers
  import opened BitUtils
  import opened EngineLocation
  import opened EnginePlayer

  type Masks2 = s: seq<bv64> | |s| == 2 witness [0, 0]
  type Masks8 = s: seq<bv64> | |s| == 8 witness [0, 0, 0, 0, 0, 0, 0, 0]

  datatype Bitfields = Bitfields(
    king: bv64,
    queen: bv64,
    knight: Masks2,
    pawn: Masks8,
    rook: Masks2,
    bishop: Masks2)

  /** `p.map(Location::pos).unwrap_or_default()`. */
  function Bitfield(p: Option<Location>): bv64 {
    match p
    case None => 0
    case Some(l) => Pos(l)
  }

  /**
   * An absent piece has the empty mask; a present one exactly the square where
   * its file column meets its rank row.
   */
  lemma BitfieldSquare(p: Option<Location>)
    ensures p.None? ==> Bitfield(p) == 0
    ensures p.Some? ==> Bitfield(p) == FileMask(File(p.value)) & RankMask(Rank(p.value))
    ensures AtMostOneBit(Bitfield(p))
  {
    if p.Some? {
      PosMeet(p.value);
    }
  }

  /** The masks of a run of slots, slot by slot. */
  function SlotMasks(s: seq<Option<Location>>): (r: seq<bv64>)
    ensures |r| == |s|
    ensures forall i :: 0 <= i < |s| ==> r[i] == Bitfield(s[i])
  {
    seq(|s|, i requires 0 <= i < |s| => Bitfield(s[i]))
  }

  /** `Bitfields::new`: every slot mapped, index by index, to its mask. */
  function New(player: Player): (b: Bitfields)
    ensures b.king == Bitfield(player.king) && b.queen == Bitfield(player.queen)
    ensures forall i :: 0 <= i < 2 ==> b.knight[i] == Bitfield(player.knight[i])
    ensures forall i :: 0 <= i < 2 ==> b.bishop[i] == Bitfield(player.bishop[i])
    ensures forall i :: 0 <= i < 2 ==> b.rook[i] == Bitfield(player.rook[i])
    ensures forall i :: 0 <= i < 8 ==> b.pawn[i] == Bitfield(player.pawn[i])
  {
    Bitfields(
      Bitfield(player.king),
      Bitfield(player.queen),
      SlotMasks(player.knight),
      SlotMasks(player.pawn),
      SlotMasks(player.rook),
      SlotMasks(player.bishop))
  }

  /** Every field of `Bitfields::new` has at most one bit set. */
  lemma NewSingleBits(player: Player)
    ensures var b := New(player);
      && AtMostOneBit(b.king) && AtMostOneBit(b.queen)
      && (forall i :: 0 <= i < 2 ==> AtMostOneBit(b.knight[i]) && AtMostOneBit(b.bishop[i]) && AtMostOneBit(b.rook[i]))
      && (forall i :: 0 <= i < 8 ==> AtMostOneBit(b.pawn[i]))
  {
    var b := New(player);
    BitfieldSquare(player.king);
    BitfieldSquare(player.queen);
    forall i | 0 <= i < 2
      ensures AtMostOneBit(b.knight[i]) && AtMostOneBit(b.bishop[i]) && AtMostOneBit(b.rook[i])
    {
      BitfieldSquare(player.knight[i]);
      BitfieldSquare(player.bishop[i]);
      BitfieldSquare(player.rook[i]);
    }
    forall i | 0 <= i < 8
      ensures AtMostOneBit(b.pawn[i])
    {
      BitfieldSquare(player.pawn[i]);
    }
  }

  /** The 16 masks in slot-number order: king, queen, bishops, knights, rooks, pawns. */
  function Masks(b: Bitfields): (s: seq<bv64>)
    ensures |s| == 16
  {
    [b.king, b.queen] + b.bishop + b.knight + b.rook + b.pawn
  }
}
