/**
 * The packed game-state byte of the engine (engine/src/metadata.rs).
 *
 * Bit 0 is the turn mask (though `turn` ends up reading bit 1), bits 1-2
 * the kingside castle rights, bits 3-4 the queenside castle rights and bits 5-7 the en-passant file; a separate flag
 * says whether an en-passant file is present. Rights are selected by ANDing
 * with the colour's discriminant (`White = 0b10`, `Black = 0b11`), so both
 * colours end up reading and clearing the same bit: bit 1 for the kingside
 * and bit 3 for the queenside.
 */
module Metadata {
  import opened Wrappers
  import opened BitUtils
  import opened EnginePiece

  const KINGSIDE_CASTLE: bv8 := 0x06
  const QUEENSIDE_CASTLE: bv8 := 0x18
  const PASSANT_PAWN_FILE: bv8 := 0xe0

  datatype Metadata = Metadata(bits: bv8, passant: bool)

  const CURRENT_TURN: bv8 := 0x01

  /**
   * `turn`: Rust's `<<` binds tighter than `&`, so the byte read is
   * `bits & 0b10`, the kingside castle bit, and not bit 0. The value 2 is
   * White's discriminant; 0 is no colour at all (the source's transmute is
   * undefined there), modelled as `None`.
   */
  function Turn(m: Metadata): (r: Option<Color>)
    ensures r == Some(White) <==> Bit8(m.bits, 1)
    ensures r == None <==> !Bit8(m.bits, 1)
  {
    var v := m.bits & (CURRENT_TURN << 1);
    if v == Discriminant(White) then Some(White)
    else if v == Discriminant(Black) then Some(Black)
    else None
  }

  /** `kingside_castle`: reads bit 1 for either colour. */
  function KingsideCastle(m: Metadata, color: Color): (r: bool)
    ensures r <==> Bit8(m.bits, 1)
  {
    (m.bits & KINGSIDE_CASTLE) & Discriminant(color) != 0
  }

  /** `queenside_castle`: reads bit 3 for either colour. */
  function QueensideCastle(m: Metadata, color: Color): (r: bool)
    ensures r <==> Bit8(m.bits, 3)
  {
    ((m.bits & QUEENSIDE_CASTLE) >> 2) & Discriminant(color) != 0
  }

  /** `lose_kingside`: clears the kingside bit the colour reads, and nothing else. */
  function LoseKingside(m: Metadata, color: Color): (r: Metadata)
    ensures !Bit8(r.bits, 1)
    ensures r.bits & !m.bits == 0
    ensures (r.bits ^ m.bits) & !KINGSIDE_CASTLE == 0
    ensures r.passant == m.passant
  {
    Metadata(m.bits & !(m.bits & KINGSIDE_CASTLE & Discriminant(color)), m.passant)
  }

  /** `lose_queenside`: clears the queenside bit the colour reads, and nothing else. */
  function LoseQueenside(m: Metadata, color: Color): (r: Metadata)
    ensures !Bit8(r.bits, 3)
    ensures r.bits & !m.bits == 0
    ensures (r.bits ^ m.bits) & !QUEENSIDE_CASTLE == 0
    ensures r.passant == m.passant
  {
    var bit := Discriminant(color) << 2;
    Metadata(m.bits & !(m.bits & QUEENSIDE_CASTLE & bit), m.passant)
  }

  /** `set_passant`: records only whether a file is present; the file itself is computed and dropped. */
  function SetPassant(m: Metadata, passant: Option<bv8>): (r: Metadata)
    ensures r.bits == m.bits
    ensures r.passant <==> passant.Some?
  {
    match passant
    case Some(p) =>
      var file := (p << 5) & PASSANT_PAWN_FILE;
      Metadata(m.bits, true)
    case None => Metadata(m.bits, false)
  }

  /** `passant_file`: bits 5-7, when the flag is set. */
  function PassantFile(m: Metadata): (r: Option<bv8>)
    ensures r.Some? <==> m.passant
    ensures r.Some? ==> r.value < 8
  {
    if m.passant then Some((m.bits & PASSANT_PAWN_FILE) >> 5) else None
  }

  /**
   * `Metadata::default`: turn bit and all four castle bits set, no
   * en-passant file. Both colours start with both castle rights.
   */
  function Default(): (r: Metadata)
    ensures forall color :: KingsideCastle(r, color) && QueensideCastle(r, color)
    ensures PassantFile(r) == None
  {
    Metadata(0x1f, false)
  }

  /** The two colours share their rights: losing one colour's right loses the other's. */
  lemma RightsShared(m: Metadata, c: Color, d: Color)
    ensures KingsideCastle(m, c) == KingsideCastle(m, d)
    ensures QueensideCastle(m, c) == QueensideCastle(m, d)
    ensures !KingsideCastle(LoseKingside(m, c), d)
    ensures !QueensideCastle(LoseQueenside(m, c), d)
  {
  }

  /** Losing one side's right leaves the other side's right, and the en-passant file, as they were. */
  lemma LoseKeepsOther(m: Metadata, c: Color, d: Color)
    ensures QueensideCastle(LoseKingside(m, c), d) == QueensideCastle(m, d)
    ensures KingsideCastle(LoseQueenside(m, c), d) == KingsideCastle(m, d)
    ensures PassantFile(LoseKingside(m, c)) == PassantFile(m)
    ensures PassantFile(LoseQueenside(m, c)) == PassantFile(m)
  {
  }

  /** Castle rights are monotone: once lost they are not given back by either `lose_*`. */
  lemma LoseMonotone(m: Metadata, c: Color, d: Color)
    ensures KingsideCastle(LoseQueenside(m, c), d) ==> KingsideCastle(m, d)
    ensures QueensideCastle(LoseKingside(m, c), d) ==> QueensideCastle(m, d)
  {
  }

  /**
   * `set_passant(Some(f))` makes a file present, but the file then read back
   * is whatever bits 5-7 already held, whatever `f` was.
   */
  lemma PassantIgnoresFile(m: Metadata, f: bv8, g: bv8)
    ensures PassantFile(SetPassant(m, Some(f))).Some?
    ensures PassantFile(SetPassant(m, Some(f))) == PassantFile(SetPassant(m, Some(g)))
    ensures PassantFile(SetPassant(m, None)) == None
  {
  }

  /**
   * The turn never reads Black, and it is the kingside castle bit: the default
   * byte reads White, and losing a kingside right leaves no colour to move.
   */
  lemma TurnIsKingsideBit(m: Metadata, c: Color)
    ensures Turn(m) != Some(Black)
    ensures Turn(m) == Some(White) <==> KingsideCastle(m, c)
    ensures Turn(Default()) == Some(White)
    ensures Turn(LoseKingside(m, c)) == None
    ensures Turn(LoseQueenside(m, c)) == Turn(m)
  {
  }

  /** From the default byte, any en-passant file reads back as file 0. */
  lemma PassantFromDefault(f: bv8)
    ensures PassantFile(SetPassant(Default(), Some(f))) == Some(0)
  {
  }
}
