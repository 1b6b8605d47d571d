/**
 * Piece identities of the engine (engine/src/piece.rs).
 *
 * An engine `Piece` is not a kind but a slot number: the offset of a piece's
 * `Option<Location>` inside a player's slot block, laid out as king, queen,
 * bishop[2], knight[2], rook[2], pawn[8].
 */
module EnginePiece {

  /** Colours with the source's explicit discriminants `White = 0b10`, `Black = 0b11`. */
  datatype Color = White | Black

  function Discriminant(c: Color): bv8 {
    match c
    case White => 2
    case Black => 3
  }

  datatype Kind = King | Queen | Bishop | Knight | Rook | Pawn

  /** A Rust `u8` as a number. */
  type Byte = x: int | 0 <= x < 256

  /** `Piece(u8)`: a slot number. */
  datatype Piece = Piece(slot: Byte)

  const KING: Piece := Piece(0)
  const QUEEN: Piece := Piece(1)
  const BISHOP: Piece := Piece(2)
  const KNIGHT: Piece := Piece(4)
  const ROOK: Piece := Piece(6)
  const PAWN: Piece := Piece(8)

  /** Number of slots each kind owns in a player's block (the array sizes of `Player`). */
  function RunLength(k: Kind): nat {
    match k
    case King => 1
    case Queen => 1
    case Bishop => 2
    case Knight => 2
    case Rook => 2
    case Pawn => 8
  }

  /** The first slot of a kind: the slot constant of that kind. */
  function FirstSlot(k: Kind): Piece {
    match k
    case King => KING
    case Queen => QUEEN
    case Bishop => BISHOP
    case Knight => KNIGHT
    case Rook => ROOK
    case Pawn => PAWN
  }

  /**
   * The kind owning a slot below 16. The constants split 0..16 into consecutive
   * runs whose lengths are the array sizes of a player's block.
   */
  function SlotKind(s: Byte): (k: Kind)
    requires s < 16
    ensures FirstSlot(k).slot <= s < FirstSlot(k).slot + RunLength(k)
  {
    if s < QUEEN.slot then King
    else if s < BISHOP.slot then Queen
    else if s < KNIGHT.slot then Bishop
    else if s < ROOK.slot then Knight
    else if s < PAWN.slot then Rook
    else Pawn
  }

  function Min(a: int, b: int): int { if a <= b then a else b }
  function Max(a: int, b: int): int { if a >= b then a else b }

  /** `Piece::next`: advance to the following slot, saturating at 255. */
  function Next(p: Piece): (r: Piece)
    ensures r.slot == Min(p.slot + 1, 255)
  {
    if p.slot == 255 then p else Piece(p.slot + 1)
  }

  /** `Piece::finished`: every slot of the 16-slot block has been visited. */
  predicate Finished(p: Piece) {
    p.slot >= 16
  }

  /** `Piece::at_least`: raise the slot to `val`, where `val as u8` keeps the low byte of the usize. */
  function AtLeast(p: Piece, val: nat): (r: Piece)
    ensures r.slot == Max(p.slot, val % 256)
    ensures val < 256 ==> r.slot == Max(p.slot, val)
  {
    var v := val % 256;
    if v > p.slot then Piece(v) else p
  }

  /** `n` successive calls of `next`. */
  function NextN(p: Piece, n: nat): Piece {
    if n == 0 then p else Next(NextN(p, n - 1))
  }

  lemma {:induction false} NextNFromKing(n: nat)
    ensures NextN(KING, n).slot == Min(n, 255)
  {
    if n > 0 {
      NextNFromKing(n - 1);
    }
  }

  /** Walking the slots with `next` from `KING` is finished after exactly 16 steps. */
  lemma FinishedAfterSixteen(n: nat)
    ensures Finished(NextN(KING, n)) <==> n >= 16
  {
    NextNFromKing(n);
  }
}
