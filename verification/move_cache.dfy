/**
 * The per-turn move cache (engine/src/moves/move_cache.rs): the destination
 * bitboard of every slot of the side to move, and four partial unions of them.
 *
 * `Board::me` is not shown, so `New` takes the player to move directly, and
 * `pawn_moves` is left unimplemented in the source, so it is a parameter.
 * The source reads fields by raw pointer offsets; `Get` and `GetLoc` are the
 * explicit accessors those offsets stand for.
 */
module MoveCache {
  import opened Wrappers
  import opened BitUtils
  import opened EnginePiece
  import opened EngineLocation
  import opened EnginePlayer
  import opened Positions
  import opened Bitfields
  import Snapshot = Positions
  import Bishop
  import Rook
  import Queen
  import King

  /** The abstract `pawn_moves(pos, loc, color)`. */
  type PawnMoves = (Positions, Location, Color) -> bv64

  const NoMasks: Masks2 := [0, 0]
  type Quarters = s: seq<Masks2> | |s| == 2 witness [NoMasks, NoMasks]

  /** The `#[repr(C)]` field order is the slot order, then `all`, `halves` and `quarters`. */
  datatype MoveCache = MoveCache(
    king: bv64,
    queen: bv64,
    bishop: Masks2,
    knight: Masks2,
    rook: Masks2,
    pawn: Masks8,
    all: bv64,
    halves: Masks2,
    quarters: Quarters,
    player: Player)

  /**
   * The entry of one slot: empty slots give 0; knights are computed with the
   * bishop generator, and a pawn flagged as promoted with the queen's.
   */
  function Entry(pos: Positions, kind: Kind, color: Color, s: Option<Location>, pawnMoves: PawnMoves): (r: bv64)
    ensures s.None? ==> r == 0
  {
    match s
    case None => 0
    case Some(l) =>
      match kind
      case King => King.KingMoves(pos, l)
      case Queen => Queen.QueenMoves(pos, l)
      case Bishop => Bishop.BishopMoves(pos, l)
      case Knight => Bishop.BishopMoves(pos, l)
      case Rook => Rook.RookMoves(pos, l)
      case Pawn => if IsQueen(l) then Queen.QueenMoves(pos, l) else pawnMoves(pos, l, color)
  }

  /** The entries of a run of slots of one kind, index by index. */
  function Entries(pos: Positions, kind: Kind, color: Color, slots: seq<Option<Location>>, pawnMoves: PawnMoves): (r: seq<bv64>)
    ensures |r| == |slots|
    ensures forall i :: 0 <= i < |slots| ==> r[i] == Entry(pos, kind, color, slots[i], pawnMoves)
  {
    seq(|slots|, i requires 0 <= i < |slots| => Entry(pos, kind, color, slots[i], pawnMoves))
  }

  /**
   * `MoveCache::new`. The cache remembers the player it was built for, and
   * every slot of the cache holds the destinations of the piece in the same
   * slot of the player, computed by the generator of that slot's kind (the
   * bishop's for knights, the queen's for a promoted pawn).
   */
  function New(player: Player, pos: Positions, pawnMoves: PawnMoves): (r: MoveCache)
    ensures r.player == player
    ensures forall s: Byte :: s < 16 ==>
      Get(r, Piece(s)) == Entry(pos, SlotKind(s), player.color, GetLoc(r, Piece(s)), pawnMoves)
  {
    var c := player.color;
    Assemble(
      Entry(pos, Kind.King, c, player.king, pawnMoves),
      Entry(pos, Kind.Queen, c, player.queen, pawnMoves),
      Entries(pos, Kind.Bishop, c, player.bishop, pawnMoves),
      Entries(pos, Kind.Knight, c, player.knight, pawnMoves),
      Entries(pos, Kind.Rook, c, player.rook, pawnMoves),
      Entries(pos, Kind.Pawn, c, player.pawn, pawnMoves),
      player)
  }

  /** The slots as given, and their unions as `MoveCache::new` makes them. */
  function Assemble(king: bv64, queen: bv64, bishop: Masks2, knight: Masks2, rook: Masks2, pawn: Masks8, player: Player): (r: MoveCache)
    ensures r.king == king && r.queen == queen && r.player == player
    ensures r.bishop == bishop && r.knight == knight && r.rook == rook && r.pawn == pawn
  {
    var quarters := [
      [king | queen | OrAll(bishop), OrAll(rook) | OrAll(knight)],
      [pawn[0] | pawn[1] | pawn[2] | pawn[3], pawn[4] | pawn[5] | pawn[6] | pawn[7]]];
    var halves := [quarters[0][1] | quarters[1][1], quarters[1][0] | quarters[1][0]];
    var all := halves[0] | halves[1];
    MoveCache(king, queen, bishop, knight, rook, pawn, all, halves, quarters, player)
  }

  /**
   * The cache's sixteen per-slot entries as a `Bitfields` record, so that
   * `Bitfields.Masks` lists them in slot order; the slot order is defined
   * once, there.
   */
  function SlotFields(c: MoveCache): Bitfields {
    Bitfields(c.king, c.queen, c.knight, c.pawn, c.rook, c.bishop)
  }

  /** `get`: the 64-bit field at offset `piece.0` of the structure. */
  function Get(c: MoveCache, piece: Piece): (r: bv64)
    requires piece.slot < 23
    ensures piece.slot < 16 ==> r == Masks(SlotFields(c))[piece.slot]
    ensures piece.slot == 16 ==> r == c.all
    ensures 17 <= piece.slot < 19 ==> r == c.halves[piece.slot - 17]
    ensures 19 <= piece.slot ==> r == c.quarters[(piece.slot - 19) / 2][(piece.slot - 19) % 2]
  {
    var s := piece.slot;
    if s == 0 then c.king
    else if s == 1 then c.queen
    else if s < 4 then c.bishop[s - 2]
    else if s < 6 then c.knight[s - 4]
    else if s < 8 then c.rook[s - 6]
    else if s < 16 then c.pawn[s - 8]
    else if s == 16 then c.all
    else if s < 19 then c.halves[s - 17]
    else c.quarters[(s - 19) / 2][(s - 19) % 2]
  }

  /** `get_loc`: the location in slot `piece.0` of the player the cache was built for. */
  function GetLoc(c: MoveCache, piece: Piece): (r: Option<Location>)
    requires piece.slot < 16
    ensures piece.slot == 0 ==> r == c.player.king
    ensures piece.slot == 1 ==> r == c.player.queen
    ensures 2 <= piece.slot < 4 ==> r == c.player.bishop[piece.slot - 2]
    ensures 4 <= piece.slot < 6 ==> r == c.player.knight[piece.slot - 4]
    ensures 6 <= piece.slot < 8 ==> r == c.player.rook[piece.slot - 6]
    ensures 8 <= piece.slot ==> r == c.player.pawn[piece.slot - 8]
  {
    Slots(c.player)[piece.slot]
  }

  /**
   * `halves[1]` ORs the first pawn quarter with itself, so `all` is the union
   * of the three quarters other than the first one (king, queen, bishops).
   */
  lemma AllQuarters(player: Player, pos: Positions, pawnMoves: PawnMoves)
    ensures var c := New(player, pos, pawnMoves);
      && c.halves[1] == c.quarters[1][0]
      && c.all == c.quarters[0][1] | c.quarters[1][0] | c.quarters[1][1]
  {
  }

  /** A lone king on a1 with its own square marked mine, as the cache's snapshot has it. */
  function LoneKing(): Player {
    Player(White, Some(FromPair(0, 0)), None, [None, None], [None, None], [None, None],
      [None, None, None, None, None, None, None, None])
  }

  /** The lone king's entry holds its three squares b1, a2 and b2 ... */
  lemma LoneKingEntry(pawnMoves: PawnMoves)
    ensures New(LoneKing(), Snapshot.New(Square(0), 0), pawnMoves).king == 0x302
  {
  }

  lemma EmptyPair(pos: Positions, kind: Kind, color: Color, pawnMoves: PawnMoves)
    ensures Entries(pos, kind, color, [None, None], pawnMoves) == [0, 0]
  {
  }

  /** ... but `all` is empty: the king's moves never reach it. */
  lemma LoneKingAll(pawnMoves: PawnMoves)
    ensures New(LoneKing(), Snapshot.New(Square(0), 0), pawnMoves).all == 0
  {
    EmptyPair(Snapshot.New(Square(0), 0), Kind.Rook, White, pawnMoves);
    EmptyPair(Snapshot.New(Square(0), 0), Kind.Knight, White, pawnMoves);
    assert OrAll([0, 0]) == 0;
  }
}
