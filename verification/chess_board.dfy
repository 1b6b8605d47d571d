/**
 * The square-table board (src/board.rs): an 8 by 8 table of optional
 * pieces, the side to move, both sides' castle rights and the square of a
 * pawn that may be taken en passant. This module holds the table access and
 * the move generators; the state transition is in `ChessApply`.
 *
 * The generators return the moves as a sequence in the order the source's
 * iterator chains produce them.
 */
module ChessBoard {
  import opened Wrappers
  import opened ChessPiece
  import opened ChessMoves

  type Square = Option<Piece>

  const EmptyRow: seq<Square> := [None, None, None, None, None, None, None, None]

  type Row = r: seq<Square> | |r| == 8 witness EmptyRow

  type Table = t: seq<Row> | |t| == 8
    witness [EmptyRow, EmptyRow, EmptyRow, EmptyRow, EmptyRow, EmptyRow, EmptyRow, EmptyRow]

  datatype Castle = Castle(kingside: bool, queenside: bool)

  /** `Castle::default`: both rights. */
  const FullCastle: Castle := Castle(true, true)

  /** `Castle::no_castle`. */
  const NoCastle: Castle := Castle(false, false)

  datatype Board = Board(
    turn: Color,
    table: Table,
    black: Castle,
    white: Castle,
    passant: Option<Position>)

  const EmptyTable: Table := [EmptyRow, EmptyRow, EmptyRow, EmptyRow, EmptyRow, EmptyRow, EmptyRow, EmptyRow]

  /** `Board::empty`: White to move, no piece, no en-passant square, all castle rights. */
  function Empty(): (b: Board)
    ensures b.turn == White && b.passant == None
    ensures b.black == FullCastle && b.white == FullCastle
  {
    Board(White, EmptyTable, FullCastle, FullCastle, None)
  }

  /** The empty board has no piece on any square. */
  lemma EmptyIsEmpty(p: Position)
    requires OnBoard(p)
    ensures At(Empty(), p) == None
  {
  }

  /** `board[pos]`: indexing panics off the board, so it needs an on-board square. */
  function At(b: Board, p: Position): Square
    requires OnBoard(p)
  {
    b.table[p.rank][p.file]
  }

  /** `board[pos] = v`. */
  function Set(b: Board, p: Position, v: Square): (r: Board)
    requires OnBoard(p)
    ensures r.turn == b.turn && r.black == b.black && r.white == b.white && r.passant == b.passant
    ensures forall q :: OnBoard(q) ==> At(r, q) == if q == p then v else At(b, q)
  {
    b.(table := b.table[p.rank := b.table[p.rank][p.file := v]])
  }

  /** `Board::get`: the square's contents on the board, `None` off it (a negative index wraps past 8). */
  function Get(b: Board, p: Position): (r: Option<Square>)
    ensures r.Some? <==> OnBoard(p)
    ensures OnBoard(p) ==> r == Some(At(b, p))
  {
    if 0 <= p.rank < 8 && 0 <= p.file < 8 then Some(b.table[p.rank][p.file]) else None
  }

  /** The square is on the board and holds a piece. */
  predicate Occupied(b: Board, p: Position) {
    OnBoard(p) && At(b, p).Some?
  }

  /** The square is on the board and empty. */
  predicate Vacant(b: Board, p: Position) {
    OnBoard(p) && At(b, p).None?
  }

  /** `Board::castle`: the rights of one colour. */
  function CastleOf(b: Board, c: Color): Castle {
    match c
    case Black => b.black
    case White => b.white
  }

  // ---------------------------------------------------------------------------
  // one-step moves

  function OptionSeq(o: Option<Move>): (r: seq<Move>)
    ensures o.None? ==> r == []
    ensures o.Some? ==> r == [o.value]
  {
    match o
    case None => []
    case Some(v) => [v]
  }

  /** `Board::relative`: the move by (rank, file) from `from`, if it stays on the board. */
  function RelativeMove(from: Position, rank: int, file: int): (r: Option<Move>)
    ensures r.Some? <==> OnBoard(Position(from.rank + rank, from.file + file))
    ensures r.Some? ==> r.value == Move(Position(from.rank + rank, from.file + file), from)
  {
    match Validate(Position(from.rank + rank, from.file + file))
    case None => None
    case Some(to) => Some(Move(to, from))
  }

  /** `Board::moves_only`: a relative move onto an empty square (a pawn's push). */
  function MovesOnly(b: Board, from: Position, rank: int, file: int): (r: Option<Move>)
    ensures r.Some? <==> (OnBoard(Position(from.rank + rank, from.file + file))
                          && At(b, Position(from.rank + rank, from.file + file)).None?)
    ensures r.Some? ==> r.value == Move(Position(from.rank + rank, from.file + file), from)
  {
    match RelativeMove(from, rank, file)
    case None => None
    case Some(m) => if At(b, m.to).None? then Some(m) else None
  }

  /** `Board::capture_only`: a relative move onto an occupied square, of either colour (a pawn's capture). */
  function CaptureOnly(b: Board, from: Position, rank: int, file: int): (r: Option<Move>)
    ensures r.Some? <==> (OnBoard(Position(from.rank + rank, from.file + file))
                          && At(b, Position(from.rank + rank, from.file + file)).Some?)
    ensures r.Some? ==> r.value == Move(Position(from.rank + rank, from.file + file), from)
  {
    match RelativeMove(from, rank, file)
    case None => None
    case Some(m) => if At(b, m.to).Some? then Some(m) else None
  }

  /** Every move of `ms` leaves `from` for a square on the board. */
  predicate FromOnto(ms: seq<Move>, from: Position) {
    forall m :: m in ms ==> m.from == from && OnBoard(m.to)
  }

  lemma OntoAppend(a: seq<Move>, c: seq<Move>, from: Position)
    requires FromOnto(a, from) && FromOnto(c, from)
    ensures FromOnto(a + c, from)
  {
  }

  // ---------------------------------------------------------------------------
  // rays

  /** The `i`-th square from `init` in direction (rank, file), one step at a time. */
  function Ray(init: Position, rank: int, file: int, i: nat): Position {
    if i == 0 then init
    else
      var p := Ray(init, rank, file, i - 1);
      Position(p.rank + rank, p.file + file)
  }

  /** The stepwise ray is the source's `init + i * (rank, file)`. */
  lemma {:induction false} RayLinear(init: Position, rank: int, file: int, i: nat)
    ensures Ray(init, rank, file, i) == Position(init.rank + rank * i, init.file + file * i)
  {
    if i > 0 {
      RayLinear(init, rank, file, i - 1);
      assert rank * (i - 1) + rank == rank * i;
      assert file * (i - 1) + file == file * i;
    }
  }

  lemma RayBack(init: Position, rank: int, file: int, i: nat)
    requires i > 0
    ensures Position(Ray(init, rank, file, i).rank - rank, Ray(init, rank, file, i).file - file)
      == Ray(init, rank, file, i - 1)
  {
  }

  /** Away from `init` a ray does not come back to it. */
  lemma RayLeaves(init: Position, rank: int, file: int, i: nat)
    requires (rank, file) != (0, 0) && i != 0
    ensures Ray(init, rank, file, i) != init
  {
    RayLinear(init, rank, file, i);
    if rank != 0 {
      assert rank * i != 0;
    } else {
      assert file * i != 0;
    }
  }

  /**
   * `Board::walk` from the `i`-th square on: a square is yielded while it is
   * on the board and the square before it is `init` itself or empty.
   */
  function WalkFrom(b: Board, init: Position, rank: int, file: int, i: nat): (r: seq<Move>)
    requires 1 <= i <= 8
    requires i > 1 ==> OnBoard(Ray(init, rank, file, i - 1))
    ensures forall k :: 0 <= k < |r| ==> r[k].from == init && OnBoard(r[k].to)
    decreases 8 - i
  {
    if i == 8 then []
    else
      var current := Ray(init, rank, file, i);
      if !(0 <= current.rank < 8) || !(0 <= current.file < 8) then []
      else
        var prev := Position(current.rank - rank, current.file - file);
        RayBack(init, rank, file, i);
        if prev == init || At(b, prev).None? then [Move(current, init)] + WalkFrom(b, init, rank, file, i + 1)
        else []
  }

  /** `Board::walk`: the squares along one direction that a sliding piece can reach. */
  function Walk(b: Board, init: Position, rank: int, file: int): (r: seq<Move>)
    ensures FromOnto(r, init)
  {
    WalkFrom(b, init, rank, file, 1)
  }

  /** The walk's `k`-th move goes to the `(i + k)`-th square of the ray. */
  lemma {:induction false} WalkFromTargets(b: Board, init: Position, rank: int, file: int, i: nat)
    requires 1 <= i <= 8
    requires i > 1 ==> OnBoard(Ray(init, rank, file, i - 1))
    ensures var r := WalkFrom(b, init, rank, file, i);
      && i + |r| <= 8
      && (forall k :: 0 <= k < |r| ==> r[k] == Move(Ray(init, rank, file, i + k), init))
    decreases 8 - i
  {
    var r := WalkFrom(b, init, rank, file, i);
    if i < 8 && r != [] {
      WalkFromSome(b, init, rank, file, i);
      var rest := WalkFrom(b, init, rank, file, i + 1);
      WalkFromTargets(b, init, rank, file, i + 1);
      forall k | 0 < k < |r|
        ensures r[k] == Move(Ray(init, rank, file, i + k), init)
      {
        assert r[k] == rest[k - 1];
        assert i + 1 + (k - 1) == i + k;
      }
    }
  }

  /** Every square the walk passes over is empty, and so is the one before its first when that is not `init`. */
  lemma {:induction false} WalkFromClear(b: Board, init: Position, rank: int, file: int, i: nat)
    requires 1 <= i <= 8
    requires i > 1 ==> OnBoard(Ray(init, rank, file, i - 1))
    requires (rank, file) != (0, 0)
    ensures var r := WalkFrom(b, init, rank, file, i);
      && (|r| > 0 && i > 1 ==> Vacant(b, Ray(init, rank, file, i - 1)))
      && (forall k :: 0 <= k < |r| - 1 ==> Vacant(b, r[k].to))
    decreases 8 - i
  {
    var r := WalkFrom(b, init, rank, file, i);
    if i < 8 && OnBoard(Ray(init, rank, file, i)) {
      RayBack(init, rank, file, i);
      if i > 1 {
        RayLeaves(init, rank, file, i - 1);
      }
      var prev := Ray(init, rank, file, i - 1);
      if prev == init || At(b, prev).None? {
        var rest := WalkFrom(b, init, rank, file, i + 1);
        WalkFromClear(b, init, rank, file, i + 1);
        assert r == [Move(Ray(init, rank, file, i), init)] + rest;
        forall k | 0 < k < |r| - 1
          ensures Vacant(b, r[k].to)
        {
          assert r[k] == rest[k - 1];
        }
      }
    }
  }

  /** An empty walk stopped at the last index, at the edge, or behind an occupied square. */
  lemma WalkFromNone(b: Board, init: Position, rank: int, file: int, i: nat)
    requires 1 <= i < 8
    requires i > 1 ==> OnBoard(Ray(init, rank, file, i - 1))
    requires WalkFrom(b, init, rank, file, i) == []
    ensures !OnBoard(Ray(init, rank, file, i)) || (i > 1 && Occupied(b, Ray(init, rank, file, i - 1)))
  {
    if OnBoard(Ray(init, rank, file, i)) {
      RayBack(init, rank, file, i);
    }
  }

  /** A non-empty walk is its first square followed by the walk from the next index. */
  lemma WalkFromSome(b: Board, init: Position, rank: int, file: int, i: nat)
    requires 1 <= i < 8
    requires i > 1 ==> OnBoard(Ray(init, rank, file, i - 1))
    requires WalkFrom(b, init, rank, file, i) != []
    ensures OnBoard(Ray(init, rank, file, i))
    ensures WalkFrom(b, init, rank, file, i)
      == [Move(Ray(init, rank, file, i), init)] + WalkFrom(b, init, rank, file, i + 1)
  {
  }

  /** The walk ends at the last square, off the board, or right after an occupied square. */
  lemma {:induction false} WalkFromMaximal(b: Board, init: Position, rank: int, file: int, i: nat)
    requires 1 <= i <= 8
    requires i > 1 ==> OnBoard(Ray(init, rank, file, i - 1))
    ensures var r := WalkFrom(b, init, rank, file, i);
      i + |r| < 8 ==>
        (!OnBoard(Ray(init, rank, file, i + |r|))
         || (|r| > 0 && Occupied(b, r[|r| - 1].to))
         || (|r| == 0 && i > 1 && Occupied(b, Ray(init, rank, file, i - 1))))
    decreases 8 - i
  {
    var r := WalkFrom(b, init, rank, file, i);
    if i < 8 {
      if r == [] {
        WalkFromNone(b, init, rank, file, i);
      } else {
        WalkFromSome(b, init, rank, file, i);
        var rest := WalkFrom(b, init, rank, file, i + 1);
        WalkFromMaximal(b, init, rank, file, i + 1);
        var n := i + |r|;
        assert n == (i + 1) + |rest|;
        if |rest| > 0 {
          assert r[|r| - 1] == rest[|rest| - 1];
        } else {
          assert r == [Move(Ray(init, rank, file, i), init)];
        }
      }
    }
  }

  /**
   * `walk` yields, in order, the squares `init + k*(rank, file)` for k = 1,
   * 2, ... while they are on the board, and every yielded square but the
   * last is empty; it stops at the edge or right after the first occupied
   * square, which it includes.
   */
  lemma WalkShape(b: Board, init: Position, rank: int, file: int)
    requires (rank, file) != (0, 0)
    ensures var r := Walk(b, init, rank, file);
      && |r| <= 7
      && (forall k :: 0 <= k < |r| ==> r[k] == Move(Ray(init, rank, file, k + 1), init))
      && (forall k :: 0 <= k < |r| ==> OnBoard(r[k].to))
      && (forall k :: 0 <= k < |r| - 1 ==> Vacant(b, r[k].to))
      && (|r| < 7 ==> (!OnBoard(Ray(init, rank, file, |r| + 1)) || (|r| > 0 && Occupied(b, r[|r| - 1].to))))
  {
    WalkFromTargets(b, init, rank, file, 1);
    WalkFromClear(b, init, rank, file, 1);
    WalkFromMaximal(b, init, rank, file, 1);
  }

  // ---------------------------------------------------------------------------
  // per-kind generators

  /** `Board::bishop_moves`: the four diagonals. */
  function BishopMoves(b: Board, pos: Position): (r: seq<Move>)
    ensures FromOnto(r, pos)
  {
    Walk(b, pos, -1, -1) + Walk(b, pos, -1, 1) + Walk(b, pos, 1, -1) + Walk(b, pos, 1, 1)
  }

  /** `Board::rook_moves`: the four straight lines. */
  function RookMoves(b: Board, pos: Position): (r: seq<Move>)
    ensures FromOnto(r, pos)
  {
    Walk(b, pos, -1, 0) + Walk(b, pos, 0, -1) + Walk(b, pos, 0, 1) + Walk(b, pos, 1, 0)
  }

  /** `Board::queen_moves`: the bishop's rays followed by the rook's. */
  function QueenMoves(b: Board, pos: Position): (r: seq<Move>)
    ensures FromOnto(r, pos)
    ensures forall m :: m in r <==> m in BishopMoves(b, pos) || m in RookMoves(b, pos)
  {
    BishopMoves(b, pos) + RookMoves(b, pos)
  }

  /** The one-step moves by each offset in turn, those that stay on the board. */
  function Jumps(pos: Position, offsets: seq<(int, int)>): (r: seq<Move>)
    ensures FromOnto(r, pos)
    ensures forall m :: m in r <==> (m.to.rank - pos.rank, m.to.file - pos.file) in offsets && m.from == pos && OnBoard(m.to)
  {
    if |offsets| == 0 then []
    else OptionSeq(RelativeMove(pos, offsets[0].0, offsets[0].1)) + Jumps(pos, offsets[1..])
  }

  const KnightOffsets: seq<(int, int)> := [(2, -1), (2, 1), (-2, -1), (-2, 1), (-1, 2), (1, 2), (-1, -2), (1, -2)]

  const KingOffsets: seq<(int, int)> := [(0, 1), (0, -1), (1, 0), (1, 1), (1, -1), (-1, 0), (-1, 1), (-1, -1)]

  /** `Board::knight_moves`: the eight jumps that stay on the board. */
  function KnightMoves(pos: Position): (r: seq<Move>)
    ensures FromOnto(r, pos)
  {
    Jumps(pos, KnightOffsets)
  }

  /**
   * `Board::king_castle_moves`: the rights read are those of the side to
   * move. Kingside the king goes two files right past empty files 5 and 6;
   * queenside it goes three files left past empty files 1 to 3.
   */
  function KingCastleMoves(b: Board, pos: Position): (r: seq<Move>)
    requires OnBoard(pos)
    ensures FromOnto(r, pos)
  {
    var castle := CastleOf(b, b.turn);
    var rank := pos.rank;
    var queenside :=
      if castle.queenside && At(b, Position(rank, 1)).None? && At(b, Position(rank, 2)).None?
         && At(b, Position(rank, 3)).None?
      then RelativeMove(pos, 0, -3) else None;
    var kingside :=
      if castle.kingside && At(b, Position(rank, 5)).None? && At(b, Position(rank, 6)).None?
      then RelativeMove(pos, 0, 2) else None;
    OptionSeq(kingside) + OptionSeq(queenside)
  }

  /**
   * The castling targets: file + 2 exactly with the mover's kingside right
   * and files 5 and 6 empty, file - 3 exactly with the queenside right and
   * files 1 to 3 empty, and nothing else.
   */
  lemma KingCastleTargets(b: Board, pos: Position)
    requires OnBoard(pos)
    ensures var r := KingCastleMoves(b, pos);
      var castle := CastleOf(b, b.turn);
      && (Move(Position(pos.rank, pos.file + 2), pos) in r <==>
            castle.kingside && pos.file < 6
            && At(b, Position(pos.rank, 5)).None? && At(b, Position(pos.rank, 6)).None?)
      && (Move(Position(pos.rank, pos.file - 3), pos) in r <==>
            castle.queenside && pos.file >= 3 && At(b, Position(pos.rank, 1)).None?
            && At(b, Position(pos.rank, 2)).None? && At(b, Position(pos.rank, 3)).None?)
      && (forall m :: m in r ==> m.to.rank == pos.rank && (m.to.file == pos.file + 2 || m.to.file == pos.file - 3))
  {
  }

  /** `Board::king_moves`: the castling moves, then the eight neighbours in the source's order. */
  function KingMoves(b: Board, pos: Position): (r: seq<Move>)
    requires OnBoard(pos)
    ensures FromOnto(r, pos)
  {
    KingCastleMoves(b, pos) + Jumps(pos, KingOffsets)
  }

  /**
   * The en-passant square, when set, is on the board and off the first and
   * last ranks. The source indexes a pawn's en-passant target without a
   * bounds check, so its generators need this of the board.
   */
  predicate PassantOk(b: Board) {
    b.passant.Some? ==> OnBoard(b.passant.value) && 1 <= b.passant.value.rank <= 6
  }

  /** `Board::pawn_passant`: the diagonal step behind an adjacent pawn that just made a double step. */
  function PawnPassant(b: Board, pos: Position, color: Color): (r: Option<Move>)
    ensures r.Some? <==> (b.passant.Some? && b.passant.value.rank == pos.rank
                          && (b.passant.value.file - pos.file == 1 || pos.file - b.passant.value.file == 1))
    ensures r.Some? ==> r.value == Move(Position(pos.rank + PawnDir(color), b.passant.value.file), pos)
  {
    if b.passant.Some? then
      var passant := b.passant.value;
      var isFile := passant.file - pos.file == 1 || passant.file - pos.file == -1;
      var isRank := passant.rank == pos.rank;
      if isFile && isRank then Some(Move(Position(pos.rank + PawnDir(color), passant.file), pos))
      else None
    else None
  }

  /**
   * `Board::pawn_moves`: the two captures (of either colour) with the
   * en-passant move between them, the push, and the double step from the
   * start rank when the blocking square is empty.
   */
  function PawnMoves(b: Board, pos: Position, color: Color): (r: seq<Move>)
    requires OnBoard(pos) && PassantOk(b)
    ensures FromOnto(r, pos)
  {
    var dir := PawnDir(color);
    var blocking := FromPair((PawnBlockingRank(color), pos.file));
    var piece := At(b, blocking);
    var double := if pos.rank == PawnStart(color) && piece.None? then MovesOnly(b, pos, 2 * dir, 0) else None;
    var left := OptionSeq(CaptureOnly(b, pos, dir, 1));
    var passant := OptionSeq(PawnPassant(b, pos, color));
    var right := OptionSeq(CaptureOnly(b, pos, dir, -1));
    var push := OptionSeq(MovesOnly(b, pos, dir, 0));
    var jump := OptionSeq(double);
    OntoAppend(left, passant, pos);
    OntoAppend(left + passant, right, pos);
    OntoAppend(left + passant + right, push, pos);
    OntoAppend(left + passant + right + push, jump, pos);
    left + passant + right + push + jump
  }

  /** A pawn on its start rank whose blocking square is occupied has no double step. */
  lemma PawnDoubleBlocked(b: Board, pos: Position, color: Color)
    requires OnBoard(pos) && PassantOk(b) && pos.rank == PawnStart(color)
    requires At(b, Position(PawnBlockingRank(color), pos.file)).Some?
    ensures Move(Position(pos.rank + 2 * PawnDir(color), pos.file), pos) !in PawnMoves(b, pos, color)
  {
  }

  /**
   * A pawn moves one rank in its direction, or two from its start rank, and
   * never more than one file sideways.
   */
  lemma PawnTargets(b: Board, pos: Position, color: Color, m: Move)
    requires OnBoard(pos) && PassantOk(b) && m in PawnMoves(b, pos, color)
    ensures m.to.rank == pos.rank + PawnDir(color)
         || (pos.rank == PawnStart(color) && m.to.rank == pos.rank + 2 * PawnDir(color))
    ensures -1 <= m.to.file - pos.file <= 1
  {
    var dir := PawnDir(color);
    var blocking := FromPair((PawnBlockingRank(color), pos.file));
    var double := if pos.rank == PawnStart(color) && At(b, blocking).None? then MovesOnly(b, pos, 2 * dir, 0) else None;
    var single := OptionSeq(CaptureOnly(b, pos, dir, 1)) + OptionSeq(PawnPassant(b, pos, color))
      + OptionSeq(CaptureOnly(b, pos, dir, -1)) + OptionSeq(MovesOnly(b, pos, dir, 0));
    assert PawnMoves(b, pos, color) == single + OptionSeq(double);
    if m in single {
      assert m.to.rank == pos.rank + dir;
    }
  }

  /** `Board::unfiltered_moves_for_piece`: the piece's moves, self-captures included; none from an empty square. */
  function UnfilteredMovesForPiece(b: Board, pos: Position): (r: seq<Move>)
    requires OnBoard(pos) && PassantOk(b)
    ensures FromOnto(r, pos)
    ensures At(b, pos).None? ==> r == []
  {
    match At(b, pos)
    case None => []
    case Some(piece) =>
      match piece.kind
      case Bishop => BishopMoves(b, pos)
      case King => KingMoves(b, pos)
      case Queen => QueenMoves(b, pos)
      case Knight => KnightMoves(pos)
      case Rook => RookMoves(b, pos)
      case Pawn => PawnMoves(b, pos, piece.color)
  }

  /** A move's target is empty or holds a piece not of `player`'s colour. */
  predicate NotOwn(b: Board, m: Move, player: Color)
    requires OnBoard(m.to)
  {
    match At(b, m.to)
    case None => true
    case Some(piece) => piece.color != player
  }

  /** The filter of `moves_for_piece`, keeping the order. */
  function KeepNotOwn(b: Board, ms: seq<Move>, player: Color): (r: seq<Move>)
    requires forall m :: m in ms ==> OnBoard(m.to)
    ensures |r| <= |ms|
    ensures forall m :: m in r <==> m in ms && NotOwn(b, m, player)
  {
    if |ms| == 0 then []
    else (if NotOwn(b, ms[0], player) then [ms[0]] else []) + KeepNotOwn(b, ms[1..], player)
  }

  /**
   * `Board::moves_for_piece`: the piece's moves without self-captures. The
   * source unwraps the square, so it must hold a piece.
   */
  function MovesForPiece(b: Board, pos: Position): (r: seq<Move>)
    requires OnBoard(pos) && At(b, pos).Some? && PassantOk(b)
    ensures FromOnto(r, pos)
    ensures forall m :: m in r <==> m in UnfilteredMovesForPiece(b, pos) && NotOwn(b, m, At(b, pos).value.color)
  {
    KeepNotOwn(b, UnfilteredMovesForPiece(b, pos), At(b, pos).value.color)
  }

  /** `moves_for_piece` never lands on a square holding a piece of the mover's colour. */
  lemma NoSelfCapture(b: Board, pos: Position, m: Move)
    requires OnBoard(pos) && At(b, pos).Some? && PassantOk(b)
    requires m in MovesForPiece(b, pos)
    ensures OnBoard(m.to)
    ensures At(b, m.to).None? || At(b, m.to).value.color != At(b, pos).value.color
  {
  }

  // ---------------------------------------------------------------------------
  // scanning the table

  /** The `s`-th square in rank-major order. */
  function SquareAt(s: nat): (p: Position)
    requires s < 64
    ensures OnBoard(p) && Index(p) == s
  {
    Position(s / 8, s % 8)
  }

  function Index(p: Position): int {
    p.rank * 8 + p.file
  }

  predicate Holds(b: Board, p: Position, color: Color)
    requires OnBoard(p)
  {
    At(b, p).Some? && At(b, p).value.color == color
  }

  /** The squares from the `s`-th on that hold a piece of `color`, in rank-major order. */
  function ColoredFrom(b: Board, color: Color, s: nat): (r: seq<Position>)
    requires s <= 64
    ensures forall p :: p in r <==> OnBoard(p) && s <= Index(p) && Holds(b, p, color)
    decreases 64 - s
  {
    if s == 64 then []
    else
      var p := SquareAt(s);
      (if Holds(b, p, color) then [p] else []) + ColoredFrom(b, color, s + 1)
  }

  /**
   * `Board::colored_pieces`, as positions: the squares holding a piece of
   * `color`. The source then sorts them by a piece order that is not part of
   * this model, so only membership is stated; the sequence is rank-major.
   */
  function ColoredPieces(b: Board, color: Color): (r: seq<Position>)
    ensures forall p :: p in r <==> OnBoard(p) && Holds(b, p, color)
  {
    ColoredFrom(b, color, 0)
  }

  function MovesForAll(b: Board, ps: seq<Position>): (r: seq<Move>)
    requires PassantOk(b)
    requires forall p :: p in ps ==> OnBoard(p) && At(b, p).Some?
    ensures forall m :: m in r <==> exists p :: p in ps && m in MovesForPiece(b, p)
  {
    if |ps| == 0 then []
    else MovesForPiece(b, ps[0]) + MovesForAll(b, ps[1..])
  }

  /** `Board::moves_for`: every move of every piece of `player`, without self-captures. */
  function MovesFor(b: Board, player: Color): (r: seq<Move>)
    requires PassantOk(b)
    ensures forall m :: m in r <==>
      exists p :: OnBoard(p) && Holds(b, p, player) && m in MovesForPiece(b, p)
  {
    MovesForAll(b, ColoredPieces(b, player))
  }

  /**
   * `Board::is_any_attacked`: some move of `attacker` lands on one of the
   * squares, that is, some piece of `attacker` has a move, self-captures
   * filtered out, onto one of them.
   */
  predicate IsAnyAttacked(b: Board, squares: seq<Position>, attacker: Color)
    requires PassantOk(b)
    ensures IsAnyAttacked(b, squares, attacker) <==>
      exists p, m :: OnBoard(p) && Holds(b, p, attacker) && m in MovesForPiece(b, p) && m.to in squares
  {
    exists m :: m in MovesFor(b, attacker) && m.to in squares
  }

  /** The squares the king crosses: its rank, files `from.file` up to `to.file` (none for a leftward move). */
  function CastlePath(mov: Move): (r: seq<Position>)
    ensures |r| == if mov.to.file + 1 > mov.from.file then mov.to.file + 1 - mov.from.file else 0
    ensures forall k :: 0 <= k < |r| ==> r[k] == Position(mov.from.rank, mov.from.file + k)
  {
    if mov.to.file + 1 > mov.from.file then
      seq(mov.to.file + 1 - mov.from.file, k => Position(mov.from.rank, mov.from.file + k))
    else []
  }

  predicate IsLongKingMove(b: Board, mov: Move)
    requires OnBoard(mov.from)
  {
    At(b, mov.from).Some? && At(b, mov.from).value.kind == King
    && (mov.from.file - mov.to.file > 1 || mov.to.file - mov.from.file > 1)
  }

  /**
   * `Board::check_castle`: a king jumping more than one file must not cross
   * a square the opponent attacks, counting from its own file up to the
   * target's. The crossed squares go into an `ArrayVec` of three, so a
   * rightward jump of more than two files panics.
   */
  function CheckCastle(b: Board, mov: Move): (r: bool)
    requires OnBoard(mov.from) && PassantOk(b)
    requires IsLongKingMove(b, mov) ==> mov.to.file - mov.from.file <= 2
    ensures !IsLongKingMove(b, mov) ==> r
  {
    var isKing := match At(b, mov.from) case Some(x) => x.kind == King case None => false;
    var isLong := mov.from.file - mov.to.file > 1 || mov.to.file - mov.from.file > 1;
    if isKing && isLong then
      !IsAnyAttacked(b, CastlePath(mov), Opposite(b.turn))
    else true
  }

  lemma CastlePathMembers(mov: Move, p: Position)
    ensures p in CastlePath(mov) <==> p.rank == mov.from.rank && mov.from.file <= p.file <= mov.to.file
  {
    var r := CastlePath(mov);
    if p.rank == mov.from.rank && mov.from.file <= p.file <= mov.to.file {
      assert r[p.file - mov.from.file] == p;
    }
  }

  /**
   * A long king move passes the check exactly when no move of the opponent
   * lands on the king's rank between its file and the target's, both included.
   */
  lemma CheckCastleMeaning(b: Board, mov: Move)
    requires OnBoard(mov.from) && PassantOk(b)
    requires IsLongKingMove(b, mov) && mov.to.file - mov.from.file <= 2
    ensures CheckCastle(b, mov) <==>
      !exists m :: m in MovesFor(b, Opposite(b.turn)) && m.to.rank == mov.from.rank
                && mov.from.file <= m.to.file <= mov.to.file
  {
    forall m | m in MovesFor(b, Opposite(b.turn))
      ensures m.to in CastlePath(mov) <==> m.to.rank == mov.from.rank && mov.from.file <= m.to.file <= mov.to.file
    {
      CastlePathMembers(mov, m.to);
    }
  }

  /** A queenside castle crosses no square by this check, so it is never refused. */
  lemma QueensideNeverRefused(b: Board, mov: Move)
    requires OnBoard(mov.from) && PassantOk(b)
    requires mov.to.file < mov.from.file
    ensures CheckCastle(b, mov)
  {
  }

  /**
   * The first square from the `s`-th on, in rank-major order, holding a
   * piece of `color`; `None` when there is none.
   */
  function FindFrom(b: Board, color: Color, s: nat): (r: Option<Position>)
    requires s <= 64
    ensures r.Some? ==> OnBoard(r.value) && s <= Index(r.value) && Holds(b, r.value, color)
    ensures forall q :: OnBoard(q) && s <= Index(q) && (r.Some? ==> Index(q) < Index(r.value)) ==> !Holds(b, q, color)
    decreases 64 - s
  {
    if s == 64 then None
    else
      var p := SquareAt(s);
      if Holds(b, p, color) then Some(p)
      else
        assert forall q :: OnBoard(q) && Index(q) == s ==> q == p;
        FindFrom(b, color, s + 1)
  }

  /**
   * `Board::find_king`: the first square, in rank-major order, holding a
   * piece of `color`, whatever its kind. `None` stands for the panic on a
   * board without such a piece.
   */
  function FindKing(b: Board, color: Color): (r: Option<Position>)
    ensures r.Some? ==> OnBoard(r.value) && Holds(b, r.value, color)
    ensures r.None? ==> forall q :: OnBoard(q) ==> !Holds(b, q, color)
    ensures r.Some? ==> forall q :: OnBoard(q) && Index(q) < Index(r.value) ==> !Holds(b, q, color)
  {
    FindFrom(b, color, 0)
  }

  /** Two squares of the board with the same rank-major index are the same square. */
  lemma IndexInjective(p: Position, q: Position)
    requires OnBoard(p) && OnBoard(q) && Index(p) == Index(q)
    ensures p == q
  {
  }

  /**
   * `find_king` returns exactly the first holder of `color`, whatever its
   * kind: a board whose first White piece is a pawn has that pawn taken for
   * the king.
   */
  lemma FindKingNotKing(b: Board, color: Color, q: Position)
    requires OnBoard(q) && Holds(b, q, color)
    requires forall p :: OnBoard(p) && Index(p) < Index(q) ==> !Holds(b, p, color)
    ensures FindKing(b, color) == Some(q)
    ensures At(b, q).value.kind == Pawn ==> At(b, FindKing(b, color).value).value.kind != King
  {
    var r := FindKing(b, color);
    assert r.Some?;
    if Index(r.value) < Index(q) {
    } else if Index(q) < Index(r.value) {
    } else {
      IndexInjective(r.value, q);
    }
  }

  /** Some move of `attacker` lands on `square`. */
  predicate Attacks(b: Board, attacker: Color, square: Position)
    requires PassantOk(b)
  {
    exists m :: m in MovesFor(b, attacker) && m.to == square
  }

  /**
   * `Board::is_check`: some move of the opponent lands on the square
   * `find_king` picks. `None` stands for its panic.
   */
  function IsCheck(b: Board, color: Color): (r: Option<bool>)
    requires PassantOk(b)
    ensures r.None? <==> FindKing(b, color).None?
    ensures r.Some? ==> FindKing(b, color).Some? && r.value == Attacks(b, Opposite(color), FindKing(b, color).value)
  {
    match FindKing(b, color)
    case None => None
    case Some(king) => Some(Attacks(b, Opposite(color), king))
  }

  /**
   * `Board::check`: White is asked first, so Black is only looked at when
   * White is not in check. `None` stands for a panic of either question.
   */
  function Check(b: Board): (r: Option<Option<Color>>)
    requires PassantOk(b)
    ensures r == Some(Some(White)) <==> IsCheck(b, White) == Some(true)
    ensures r == Some(Some(Black)) <==> IsCheck(b, White) == Some(false) && IsCheck(b, Black) == Some(true)
    ensures r == Some(None) <==> IsCheck(b, White) == Some(false) && IsCheck(b, Black) == Some(false)
  {
    match IsCheck(b, White)
    case None => None
    case Some(true) => Some(Some(White))
    case Some(false) =>
      match IsCheck(b, Black)
      case None => None
      case Some(true) => Some(Some(Black))
      case Some(false) => Some(None)
  }

  /**
   * When both sides are attacked, only White is reported; and a board
   * without a Black piece does not panic as long as White is in check.
   */
  lemma CheckPrefersWhite(b: Board)
    requires PassantOk(b)
    requires IsCheck(b, White) == Some(true)
    ensures Check(b) == Some(Some(White))
  {
  }
}
