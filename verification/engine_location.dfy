/**
 * Squares of the engine (engine/src/location.rs).
 *
 * A `Location` is one byte holding `rank << 3 | file`. The source uses three
 * helpers it does not show; minimal versions are defined here: `Pos` is
 * `1 << (rank * 8 + file)`, `InvertLocation` is `(7 - rank, 7 - file)`, and
 * `IsQueen` reads bit 6 of the byte, which the packing leaves free.
 */
module EngineLocation {
  import opened BitUtils
  import opened EnginePiece

  datatype Location = Location(byte: U8)

  /** `Location::rank`. */
  function Rank(l: Location): (r: bv64)
    ensures r < 8
  {
    (l.byte >> 3) & 7
  }

  /** `Location::file`. */
  function File(l: Location): (f: bv64)
    ensures f < 8
  {
    l.byte & 7
  }

  /** `From<(u8, u8)>`: `(rank << 3 | file) as u8`, with the u8 shift dropping high bits. */
  function FromPair(rank: U8, file: U8): (l: Location)
    ensures rank < 8 && file < 8 ==> Rank(l) == rank && File(l) == file
  {
    Location(((rank << 3) | file) & 0xff)
  }

  /** `loc(rank, file)` is `(rank, file).into()`. */
  function Loc(rank: U8, file: U8): (l: Location)
    ensures rank < 8 && file < 8 ==> Rank(l) == rank && File(l) == file
  {
    FromPair(rank, file)
  }

  /** `piece | x`: the piece, unchanged, paired with `x.into()`. */
  function WithLocation(p: Piece, rank: U8, file: U8): (r: (Piece, Location))
    ensures r.0 == p
    ensures rank < 8 && file < 8 ==> Rank(r.1) == rank && File(r.1) == file
  {
    (p, FromPair(rank, file))
  }

  /** Square index `rank * 8 + file`. */
  function Index(l: Location): (i: bv64)
    ensures i < 64
    ensures i >> 3 == Rank(l) && i & 7 == File(l)
  {
    Rank(l) * 8 + File(l)
  }

  /** `Location::pos`: the one-square bitboard of the location. */
  function Pos(l: Location): bv64 {
    Square(Index(l))
  }

  /** The square of a location is where its file and its rank meet. */
  lemma PosMeet(l: Location)
    ensures Pos(l) == FileMask(File(l)) & RankMask(Rank(l))
  {
    FileRankMeet(File(l), Rank(l));
  }

  /** `Location::invert`: the square mirrored through the board centre. */
  function InvertLocation(l: Location): (r: Location)
    ensures Rank(r) == 7 - Rank(l) && File(r) == 7 - File(l)
  {
    FromPair(7 - Rank(l), 7 - File(l))
  }

  /** The mirrored location has the mirrored square index. */
  lemma InvertLocationIndex(l: Location)
    ensures Index(InvertLocation(l)) == 63 - Index(l)
  {
  }

  /** Square `63 - i` lies on rank `7 - r` exactly when square `i` lies on rank `r`. */
  lemma MirrorRank(i: bv64, r: bv64)
    requires i < 64 && r < 8
    ensures (63 - i) >> 3 == 7 - r <==> i >> 3 == r
  {
  }

  /** Square `63 - i` lies on file `7 - f` exactly when square `i` lies on file `f`. */
  lemma MirrorFile(i: bv64, f: bv64)
    requires i < 64 && f < 8
    ensures (63 - i) & 7 == 7 - f <==> i & 7 == f
  {
  }

  /** Mirroring the location mirrors its one-square bitboard. */
  lemma InvertLocationPos(l: Location)
    ensures Pos(InvertLocation(l)) == Invert(Pos(l))
  {
    InvertSquare(Index(l));
  }

  /** `Location::is_queen`: the promoted-pawn flag. */
  predicate IsQueen(l: Location) {
    l.byte & 0x40 != 0
  }

  lemma FromPairInjective(r1: U8, f1: U8, r2: U8, f2: U8)
    requires r1 < 8 && f1 < 8 && r2 < 8 && f2 < 8
    ensures FromPair(r1, f1) == FromPair(r2, f2) ==> r1 == r2 && f1 == f2
  {
  }
}
