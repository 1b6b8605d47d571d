/**
 * A player's piece slots (the `board::Player` type used by the engine modules;
 * its declaration is not shown, so this is the minimal record they rely on):
 * king, queen, bishop[2], knight[2], rook[2] and pawn[8], each an optional location.
 */
module EnginePlayer {
  import opened Wrappers
  import opened EnginePiece
  import opened EngineLocation

  type Slots2 = s: seq<Option<Location>> | |s| == 2 witness [None, None]
  type Slots8 = s: seq<Option<Location>> | |s| == 8
    witness [None, None, None, None, None, None, None, None]

  datatype Player = Player(
    color: Color,
    king: Option<Location>,
    queen: Option<Location>,
    bishop: Slots2,
    knight: Slots2,
    rook: Slots2,
    pawn: Slots8)

  /** `royalty[0]` is the king and `royalty[1]` the queen. */
  function Royalty(p: Player): Slots2 {
    [p.king, p.queen]
  }

  /** The 16 slots in slot-number order. */
  function Slots(p: Player): (s: seq<Option<Location>>)
    ensures |s| == 16
  {
    Royalty(p) + p.bishop + p.knight + p.rook + p.pawn
  }
}
