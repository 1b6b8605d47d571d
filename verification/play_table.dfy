/**
 * The older square-table board of src/table.rs. It keeps only the table
 * and two castle records, and it classifies every reachable square as a
 * `Play`: a defence of one's own piece, a capture, or a plain move. It
 * shares squares, pieces and rays with the newer board (`ChessBoard`).
 */
module PlayTable {
  import opened Wrappers
  import opened ChessPiece
  import opened ChessMoves
  import CB = ChessBoard

  /** `table::Board`: no turn and no en-passant square. */
  datatype Board = Board(table: CB.Table, black: CB.Castle, white: CB.Castle)

  /** `board[pos]`; the source panics off the board. */
  function At(b: Board, p: Position): CB.Square
    requires OnBoard(p)
  {
    b.table[p.rank][p.file]
  }

  /** `board[pos] = v`. */
  function Set(b: Board, p: Position, v: CB.Square): (r: Board)
    requires OnBoard(p)
    ensures r.black == b.black && r.white == b.white
    ensures forall q :: OnBoard(q) ==> At(r, q) == if q == p then v else At(b, q)
  {
    b.(table := b.table[p.rank := b.table[p.rank][p.file := v]])
  }

  /** The square is on the board and holds a piece. */
  predicate Taken(b: Board, p: Position) {
    OnBoard(p) && At(b, p).Some?
  }

  /** The square is on the board and empty. */
  predicate Free(b: Board, p: Position) {
    OnBoard(p) && At(b, p).None?
  }

  /** The plays that name a move (all but the two castles). */
  predicate Carries(p: Play) {
    p.Defense? || p.Capture? || p.Plain?
  }

  /** Two boards with the same squares and castle records are the same board. */
  lemma SameBoard(a: Board, b: Board)
    requires a.black == b.black && a.white == b.white
    requires forall q :: OnBoard(q) ==> At(a, q) == At(b, q)
    ensures a == b
  {
    forall rank | 0 <= rank < 8
      ensures a.table[rank] == b.table[rank]
    {
      forall file | 0 <= file < 8
        ensures a.table[rank][file] == b.table[rank][file]
      {
        assert At(a, Position(rank, file)) == At(b, Position(rank, file));
      }
    }
  }

  // ---------------------------------------------------------------------------
  // reading and writing squares

  /**
   * `Board::get`: the contents of an on-board square, `None` elsewhere (a
   * negative coordinate cast to `usize` is out of range as well).
   */
  function Get(b: Board, p: Position): (r: Option<CB.Square>)
    ensures r.Some? <==> OnBoard(p)
    ensures r.Some? ==> r.value == At(b, p)
  {
    if 0 <= p.rank < 8 && 0 <= p.file < 8 then Some(b.table[p.rank][p.file]) else None
  }

  /**
   * `Board::apply`: the contents of `from` are taken (leaving it empty) and
   * written to `to`. Nothing checks the move, and the castle records stay.
   */
  function Apply(b: Board, mov: Move): (r: Board)
    requires OnBoard(mov.from) && OnBoard(mov.to)
    ensures r.black == b.black && r.white == b.white
    ensures At(r, mov.to) == At(b, mov.from)
    ensures mov.from != mov.to ==> At(r, mov.from).None?
    ensures forall q :: OnBoard(q) && q != mov.from && q != mov.to ==> At(r, q) == At(b, q)
  {
    var piece := At(b, mov.from);
    Set(Set(b, mov.from, None), mov.to, piece)
  }

  /** A move onto an empty square is undone by the move back. */
  lemma ApplyUndo(b: Board, mov: Move)
    requires OnBoard(mov.from) && OnBoard(mov.to) && At(b, mov.to).None?
    ensures Apply(Apply(b, mov), Move(mov.from, mov.to)) == b
  {
    var back := Apply(Apply(b, mov), Move(mov.from, mov.to));
    forall q | OnBoard(q)
      ensures At(back, q) == At(b, q)
    {
    }
    SameBoard(back, b);
  }

  /**
   * The pieces of `color` with their squares, from square (rank, file) on
   * in rank-major order: the rest of this rank, then the ranks after it.
   */
  function ColoredFrom(b: Board, color: Color, rank: nat, file: nat): (r: seq<(Piece, Position)>)
    requires rank <= 8 && file <= 8
    ensures Scanned(b, color, rank * 8 + file, r)
    decreases 8 - rank, 8 - file
  {
    if rank == 8 then []
    else if file == 8 then ColoredFrom(b, color, rank + 1, 0)
    else
      var here, rest := Here(b, color, Position(rank, file)), ColoredFrom(b, color, rank, file + 1);
      ScannedJoin(b, color, rank * 8 + file, here, rest);
      here + rest
  }

  /** Every entry is a piece of `color` on its own square, at rank-major index `lo` or later. */
  predicate Scanned(b: Board, color: Color, lo: int, r: seq<(Piece, Position)>) {
    forall k :: 0 <= k < |r| ==>
      && OnBoard(r[k].1) && lo <= CB.Index(r[k].1)
      && At(b, r[k].1) == Some(r[k].0) && r[k].0.color == color
  }

  lemma ScannedJoin(b: Board, color: Color, lo: int, x: seq<(Piece, Position)>, y: seq<(Piece, Position)>)
    requires Scanned(b, color, lo, x) && Scanned(b, color, lo + 1, y)
    ensures Scanned(b, color, lo, x + y)
  {
  }

  /** The square with its piece when that piece has colour `color`, else nothing. */
  function Here(b: Board, color: Color, p: Position): (r: seq<(Piece, Position)>)
    requires OnBoard(p)
  {
    match At(b, p)
    case Some(piece) => if piece.color == color then [(piece, p)] else []
    case None => []
  }

  lemma {:induction false} ColoredFromComplete(b: Board, color: Color, rank: nat, file: nat, p: Position)
    requires rank <= 8 && file <= 8
    requires OnBoard(p) && rank * 8 + file <= CB.Index(p) && At(b, p).Some? && At(b, p).value.color == color
    ensures (At(b, p).value, p) in ColoredFrom(b, color, rank, file)
    decreases 8 - rank, 8 - file
  {
    if file == 8 {
      ColoredFromComplete(b, color, rank + 1, 0, p);
    } else if p == Position(rank, file) {
      ColoredFromHead(b, color, p);
    } else {
      ColoredFromComplete(b, color, rank, file + 1, p);
      ColoredFromTail(b, color, rank, file, (At(b, p).value, p));
    }
  }

  /** A piece of `color` on the first square scanned comes out first. */
  lemma ColoredFromHead(b: Board, color: Color, p: Position)
    requires OnBoard(p) && At(b, p).Some? && At(b, p).value.color == color
    ensures (At(b, p).value, p) in ColoredFrom(b, color, p.rank, p.file)
  {
    var here, rest := Here(b, color, p), ColoredFrom(b, color, p.rank, p.file + 1);
    assert ColoredFrom(b, color, p.rank, p.file) == here + rest;
    assert (here + rest)[0] == here[0];
  }

  /** Whatever the scan finds from the next square on, it finds from this one. */
  lemma ColoredFromTail(b: Board, color: Color, rank: nat, file: nat, x: (Piece, Position))
    requires rank < 8 && file < 8
    requires x in ColoredFrom(b, color, rank, file + 1)
    ensures x in ColoredFrom(b, color, rank, file)
  {
    var here, rest := Here(b, color, Position(rank, file)), ColoredFrom(b, color, rank, file + 1);
    assert ColoredFrom(b, color, rank, file) == here + rest;
  }

  /** The squares strictly increase in rank-major index. */
  predicate Ascending(r: seq<(Piece, Position)>) {
    forall i, j :: 0 <= i < j < |r| ==> CB.Index(r[i].1) < CB.Index(r[j].1)
  }

  lemma AscendingCons(x: (Piece, Position), rest: seq<(Piece, Position)>)
    requires Ascending(rest)
    requires forall k :: 0 <= k < |rest| ==> CB.Index(x.1) < CB.Index(rest[k].1)
    ensures Ascending([x] + rest)
  {
    var r := [x] + rest;
    forall i, j | 0 <= i < j < |r|
      ensures CB.Index(r[i].1) < CB.Index(r[j].1)
    {
      assert r[j] == rest[j - 1];
      if i > 0 {
        assert r[i] == rest[i - 1];
      }
    }
  }

  lemma {:induction false} ColoredFromSorted(b: Board, color: Color, rank: nat, file: nat)
    requires rank <= 8 && file <= 8
    ensures Ascending(ColoredFrom(b, color, rank, file))
    decreases 8 - rank, 8 - file
  {
    if rank < 8 && file == 8 {
      ColoredFromSorted(b, color, rank + 1, 0);
    } else if rank < 8 {
      var p := Position(rank, file);
      var rest := ColoredFrom(b, color, rank, file + 1);
      ColoredFromSorted(b, color, rank, file + 1);
      if At(b, p).Some? && At(b, p).value.color == color {
        AscendingCons((At(b, p).value, p), rest);
      }
    }
  }

  /** `Board::colored_pieces`: pieces of `color`, each with its square. */
  function ColoredPieces(b: Board, color: Color): (r: seq<(Piece, Position)>)
    ensures forall k :: 0 <= k < |r| ==> OnBoard(r[k].1) && At(b, r[k].1) == Some(r[k].0) && r[k].0.color == color
  {
    ColoredFrom(b, color, 0, 0)
  }

  /** Every piece of `color` comes out of `colored_pieces` with its square, and nothing else does. */
  lemma ColoredPiecesExact(b: Board, color: Color, e: (Piece, Position))
    ensures e in ColoredPieces(b, color) <==> OnBoard(e.1) && At(b, e.1) == Some(e.0) && e.0.color == color
  {
    if OnBoard(e.1) && At(b, e.1) == Some(e.0) && e.0.color == color {
      var start: nat := 0;
      ColoredFromComplete(b, color, start, start, e.1);
    }
  }

  /** `colored_pieces` runs in rank-major order: the square indices strictly increase, so no square comes twice. */
  lemma ColoredPiecesSorted(b: Board, color: Color)
    ensures Ascending(ColoredPieces(b, color))
  {
    var start: nat := 0;
    ColoredFromSorted(b, color, start, start);
    assert ColoredPieces(b, color) == ColoredFrom(b, color, start, start);
  }

  // ---------------------------------------------------------------------------
  // single steps

  /** The play onto `mov.to` for a piece of `color`, by what stands there. */
  function Classify(b: Board, mov: Move, color: Color): (r: Play)
    requires OnBoard(mov.to)
    ensures Carries(r) && r.mov == mov
  {
    match At(b, mov.to)
    case Some(piece) => if piece.color == color then Defense(mov, piece) else Capture(mov, piece)
    case None => Plain(mov)
  }

  /** A play onto one's own piece is a defence, onto the opponent's a capture, onto an empty square a plain move. */
  lemma ClassifyKinds(b: Board, mov: Move, color: Color)
    requires OnBoard(mov.to)
    ensures Classify(b, mov, color).Plain? <==> At(b, mov.to).None?
    ensures Classify(b, mov, color).Defense? <==> At(b, mov.to).Some? && At(b, mov.to).value.color == color
    ensures Classify(b, mov, color).Capture? <==> At(b, mov.to).Some? && At(b, mov.to).value.color != color
    ensures !Classify(b, mov, color).Plain? ==> At(b, mov.to) == Some(Classify(b, mov, color).piece)
  {
  }

  /** The square `(rank, file)` away from `from`. */
  function Offset(from: Position, rank: int, file: int): Position {
    Position(from.rank + rank, from.file + file)
  }

  /**
   * `Board::relative`: the play from `from` onto the square `(rank, file)`
   * away, or `None` when that square is off the board.
   */
  function Relative(b: Board, from: Position, color: Color, rank: int, file: int): (r: Option<Play>)
    ensures r.None? <==> !OnBoard(Offset(from, rank, file))
    ensures r.Some? ==> Carries(r.value) && r.value.mov == Move(Offset(from, rank, file), from)
    ensures r.Some? ==> (r.value.Plain? <==> Free(b, Offset(from, rank, file)))
    ensures r.Some? && !r.value.Plain? ==>
      && At(b, Offset(from, rank, file)) == Some(r.value.piece)
      && (r.value.Defense? <==> r.value.piece.color == color)
  {
    var to := Offset(from, rank, file);
    match Get(b, to)
    case None => None
    case Some(_) => Some(Classify(b, Move(to, from), color))
  }

  /** `Board::moves_only`: the step, kept only when it lands on an empty square. */
  function MovesOnly(b: Board, from: Position, color: Color, rank: int, file: int): (r: Option<Play>)
    ensures r.Some? <==> Free(b, Offset(from, rank, file))
    ensures r.Some? ==> r.value == Plain(Move(Offset(from, rank, file), from))
  {
    var play := Relative(b, from, color, rank, file);
    if play.Some? && play.value.Plain? then play else None
  }

  /** `Board::capture_only`: the step, kept only when it lands on a piece (of either colour). */
  function CaptureOnly(b: Board, from: Position, color: Color, rank: int, file: int): (r: Option<Play>)
    ensures r.Some? <==> Taken(b, Offset(from, rank, file))
    ensures r.Some? ==> Carries(r.value) && !r.value.Plain? && r.value.mov == Move(Offset(from, rank, file), from)
    ensures r.Some? ==> (r.value.Capture? <==> At(b, Offset(from, rank, file)).value.color != color)
  {
    var play := Relative(b, from, color, rank, file);
    if play.Some? && play.value.Plain? then None else play
  }

  /** `Board::is_capture`: the square holds a piece of the other colour. */
  function IsCapture(b: Board, pos: Position, color: Color): (r: bool)
    requires OnBoard(pos)
  {
    match At(b, pos)
    case Some(piece) => piece.color != color
    case None => false
  }

  /** `is_capture` agrees with `relative`: a step onto the square is a capture exactly when the square is one. */
  lemma IsCaptureRelative(b: Board, from: Position, color: Color, rank: int, file: int)
    requires OnBoard(Offset(from, rank, file))
    ensures IsCapture(b, Offset(from, rank, file), color)
      <==> Relative(b, from, color, rank, file).value.Capture?
  {
  }

  function Plays(o: Option<Play>): (r: seq<Play>)
    ensures o.None? ==> r == []
    ensures o.Some? ==> r == [o.value]
  {
    match o
    case None => []
    case Some(p) => [p]
  }

  // ---------------------------------------------------------------------------
  // walks

  /** A unit direction: each component is -1, 0 or 1, and not both are 0. */
  predicate Unit(rank: int, file: int) {
    -1 <= rank <= 1 && -1 <= file <= 1 && (rank, file) != (0, 0)
  }

  /**
   * The square `t` lies strictly beyond `pos` in the unit direction
   * (rank, file): each coordinate moves with the sign of its component, and
   * along a diagonal both move by the same distance.
   */
  predicate Beyond(t: Position, pos: Position, rank: int, file: int) {
    && (rank == 0 <==> t.rank == pos.rank) && (rank > 0 <==> t.rank > pos.rank)
    && (file == 0 <==> t.file == pos.file) && (file > 0 <==> t.file > pos.file)
    && (rank != 0 && file != 0 ==>
          if rank == file then t.rank - pos.rank == t.file - pos.file else t.rank - pos.rank == pos.file - t.file)
  }

  /** One more step in the direction stays beyond the start, and so never returns to it. */
  lemma BeyondStep(t: Position, pos: Position, rank: int, file: int)
    requires Unit(rank, file) && (t == pos || Beyond(t, pos, rank, file))
    ensures Beyond(Offset(t, rank, file), pos, rank, file) && Offset(t, rank, file) != pos
  {
  }

  /**
   * `Board::walk` as written, from the square `cur` with `n` of its seven
   * indices left: the next square is yielded while it is on the board and
   * `cur`, the square before it, holds a piece, or the next square is the
   * piece's own. The source computes the `i`-th square as `pos + i * (rank,
   * file)`; stepping from the square before is the same square.
   */
  function WalkOn(b: Board, pos: Position, color: Color, rank: int, file: int, cur: Position, n: nat): (r: seq<Play>)
    requires OnBoard(cur)
    decreases n
    ensures |r| <= n
    ensures forall k :: 0 <= k < |r| ==>
      Carries(r[k]) && r[k].mov.from == pos && OnBoard(r[k].mov.to) && r[k] == Classify(b, r[k].mov, color)
  {
    if n == 0 then []
    else
      var next := Offset(cur, rank, file);
      if !(0 <= next.rank < 8) || !(0 <= next.file < 8) then []
      else if pos == next || At(b, cur).Some? then
        [Classify(b, Move(next, pos), color)] + WalkOn(b, pos, color, rank, file, next, n - 1)
      else []
  }

  /** `Board::walk`, as written: indices 1 to 7 from the piece's square. */
  function Walk(b: Board, pos: Position, color: Color, rank: int, file: int): (r: seq<Play>)
    requires OnBoard(pos)
    ensures |r| < 8
    ensures forall k :: 0 <= k < |r| ==>
      Carries(r[k]) && r[k].mov.from == pos && OnBoard(r[k].mov.to) && r[k] == Classify(b, r[k].mov, color)
  {
    WalkOn(b, pos, color, rank, file, pos, 7)
  }

  /** The `n` squares after `cur` are on the board, and the square before each holds a piece. */
  predicate PathTaken(b: Board, rank: int, file: int, cur: Position, n: nat)
    decreases n
  {
    n == 0
    || (OnBoard(Offset(cur, rank, file)) && Taken(b, cur) && PathTaken(b, rank, file, Offset(cur, rank, file), n - 1))
  }

  /** The `n` squares after `cur` are on the board, and the square before each is `pos` or empty. */
  predicate PathClear(b: Board, pos: Position, rank: int, file: int, cur: Position, n: nat)
    decreases n
  {
    n == 0
    || (OnBoard(Offset(cur, rank, file)) && (cur == pos || Free(b, cur))
        && PathClear(b, pos, rank, file, Offset(cur, rank, file), n - 1))
  }

  lemma {:induction false} WalkOnLength(b: Board, pos: Position, color: Color, rank: int, file: int, cur: Position, n: nat, k: nat)
    requires OnBoard(cur) && Unit(rank, file) && (cur == pos || Beyond(cur, pos, rank, file)) && k <= n
    ensures k <= |WalkOn(b, pos, color, rank, file, cur, n)| <==> PathTaken(b, rank, file, cur, k)
    decreases n
  {
    if k > 0 {
      var next := Offset(cur, rank, file);
      BeyondStep(cur, pos, rank, file);
      if OnBoard(next) && Taken(b, cur) {
        WalkOnLength(b, pos, color, rank, file, next, n - 1, k - 1);
      }
    }
  }

  /** Every play of the walk as written goes to a square beyond the piece in the walk's direction. */
  lemma {:induction false} WalkOnBeyond(b: Board, pos: Position, color: Color, rank: int, file: int, cur: Position, n: nat)
    requires OnBoard(cur) && Unit(rank, file) && (cur == pos || Beyond(cur, pos, rank, file))
    ensures forall q :: q in WalkOn(b, pos, color, rank, file, cur, n) ==> Beyond(q.mov.to, pos, rank, file)
    decreases n
  {
    var next := Offset(cur, rank, file);
    BeyondStep(cur, pos, rank, file);
    if n > 0 && OnBoard(next) {
      WalkOnBeyond(b, pos, color, rank, file, next, n - 1);
    }
  }

  /**
   * The walk as written reaches its `k`-th square exactly when the squares
   * up to it are on the board and every square before one of them, the
   * piece's own included, holds a piece.
   */
  lemma WalkReach(b: Board, pos: Position, color: Color, rank: int, file: int, k: nat)
    requires OnBoard(pos) && Unit(rank, file) && k <= 7
    ensures k <= |Walk(b, pos, color, rank, file)| <==> PathTaken(b, rank, file, pos, k)
  {
    WalkOnLength(b, pos, color, rank, file, pos, 7, k);
  }

  /**
   * As written, a piece whose first square ahead is empty stops there, even
   * when the next square is on the board.
   */
  lemma WalkStopsAfterFree(b: Board, pos: Position, color: Color, rank: int, file: int)
    requires OnBoard(pos) && At(b, pos).Some? && Unit(rank, file)
    requires Free(b, Offset(pos, rank, file)) && OnBoard(Offset(Offset(pos, rank, file), rank, file))
    ensures Walk(b, pos, color, rank, file) == [Plain(Move(Offset(pos, rank, file), pos))]
  {
    var next := Offset(pos, rank, file);
    BeyondStep(pos, pos, rank, file);
    BeyondStep(next, pos, rank, file);
    assert WalkOn(b, pos, color, rank, file, next, 6) == [];
  }

  /**
   * The walk as `src/board.rs` writes it, and as this one evidently means:
   * the next square is yielded while it is on the board and the square
   * before it is the piece's own or empty.
   */
  function WalkFixedOn(b: Board, pos: Position, color: Color, rank: int, file: int, cur: Position, n: nat): (r: seq<Play>)
    requires OnBoard(cur)
    decreases n
    ensures |r| <= n
    ensures forall k :: 0 <= k < |r| ==>
      Carries(r[k]) && r[k].mov.from == pos && OnBoard(r[k].mov.to) && r[k] == Classify(b, r[k].mov, color)
  {
    if n == 0 then []
    else
      var next := Offset(cur, rank, file);
      if !(0 <= next.rank < 8) || !(0 <= next.file < 8) then []
      else if cur == pos || At(b, cur).None? then
        [Classify(b, Move(next, pos), color)] + WalkFixedOn(b, pos, color, rank, file, next, n - 1)
      else []
  }

  function WalkFixed(b: Board, pos: Position, color: Color, rank: int, file: int): (r: seq<Play>)
    requires OnBoard(pos)
    ensures |r| < 8
    ensures forall k :: 0 <= k < |r| ==>
      Carries(r[k]) && r[k].mov.from == pos && OnBoard(r[k].mov.to) && r[k] == Classify(b, r[k].mov, color)
  {
    WalkFixedOn(b, pos, color, rank, file, pos, 7)
  }

  lemma {:induction false} WalkFixedOnLength(b: Board, pos: Position, color: Color, rank: int, file: int, cur: Position, n: nat, k: nat)
    requires OnBoard(cur) && k <= n
    ensures k <= |WalkFixedOn(b, pos, color, rank, file, cur, n)| <==> PathClear(b, pos, rank, file, cur, k)
    decreases n
  {
    if k > 0 {
      var next := Offset(cur, rank, file);
      if OnBoard(next) && (cur == pos || Free(b, cur)) {
        WalkFixedOnLength(b, pos, color, rank, file, next, n - 1, k - 1);
      }
    }
  }

  lemma {:induction false} WalkFixedOnBeyond(b: Board, pos: Position, color: Color, rank: int, file: int, cur: Position, n: nat)
    requires OnBoard(cur) && Unit(rank, file) && (cur == pos || Beyond(cur, pos, rank, file))
    ensures forall q :: q in WalkFixedOn(b, pos, color, rank, file, cur, n) ==> Beyond(q.mov.to, pos, rank, file)
    decreases n
  {
    var next := Offset(cur, rank, file);
    BeyondStep(cur, pos, rank, file);
    if n > 0 && OnBoard(next) {
      WalkFixedOnBeyond(b, pos, color, rank, file, next, n - 1);
    }
  }

  /**
   * The corrected walk reaches its `k`-th square exactly when the squares up
   * to it are on the board and every square strictly between the piece and
   * it is empty: it runs up to and including the first piece in the way.
   */
  lemma WalkFixedReach(b: Board, pos: Position, color: Color, rank: int, file: int, k: nat)
    requires OnBoard(pos) && k <= 7
    ensures k <= |WalkFixed(b, pos, color, rank, file)| <==> PathClear(b, pos, rank, file, pos, k)
  {
    WalkFixedOnLength(b, pos, color, rank, file, pos, 7, k);
  }

  /** Every play of the corrected walk goes to a square beyond the piece in the walk's direction. */
  lemma WalkFixedBeyond(b: Board, pos: Position, color: Color, rank: int, file: int)
    requires OnBoard(pos) && Unit(rank, file)
    ensures forall q :: q in WalkFixed(b, pos, color, rank, file) ==> Beyond(q.mov.to, pos, rank, file)
  {
    WalkFixedOnBeyond(b, pos, color, rank, file, pos, 7);
  }

  /** Where the walk as written stops after one step, the corrected walk goes on to the second square. */
  lemma WalkFixedPassesFree(b: Board, pos: Position, color: Color, rank: int, file: int)
    requires OnBoard(pos) && Unit(rank, file)
    requires Free(b, Offset(pos, rank, file)) && OnBoard(Offset(Offset(pos, rank, file), rank, file))
    ensures |WalkFixed(b, pos, color, rank, file)| >= 2
  {
    var next := Offset(pos, rank, file);
    BeyondStep(pos, pos, rank, file);
    WalkFixedReach(b, pos, color, rank, file, 2);
    assert PathClear(b, pos, rank, file, Offset(next, rank, file), 0);
    assert PathClear(b, pos, rank, file, next, 1);
  }

  /** One step further along a ray is the ray from the next square, one index shorter. */
  lemma {:induction false} RayFromNext(cur: Position, rank: int, file: int, k: nat)
    ensures CB.Ray(Offset(cur, rank, file), rank, file, k) == CB.Ray(cur, rank, file, k + 1)
  {
    if k > 0 {
      RayFromNext(cur, rank, file, k - 1);
    }
  }

  lemma {:induction false} WalkOnTargets(b: Board, pos: Position, color: Color, rank: int, file: int, cur: Position, n: nat)
    requires OnBoard(cur)
    ensures forall k :: 0 <= k < |WalkOn(b, pos, color, rank, file, cur, n)| ==>
      WalkOn(b, pos, color, rank, file, cur, n)[k].mov.to == CB.Ray(cur, rank, file, k + 1)
    decreases n
  {
    var next := Offset(cur, rank, file);
    if n > 0 && OnBoard(next) && (pos == next || At(b, cur).Some?) {
      WalkOnTargets(b, pos, color, rank, file, next, n - 1);
      forall k | 1 <= k < |WalkOn(b, pos, color, rank, file, cur, n)|
        ensures WalkOn(b, pos, color, rank, file, cur, n)[k].mov.to == CB.Ray(cur, rank, file, k + 1)
      {
        RayFromNext(cur, rank, file, k);
      }
    }
  }

  lemma {:induction false} WalkFixedOnTargets(b: Board, pos: Position, color: Color, rank: int, file: int, cur: Position, n: nat)
    requires OnBoard(cur)
    ensures forall k :: 0 <= k < |WalkFixedOn(b, pos, color, rank, file, cur, n)| ==>
      WalkFixedOn(b, pos, color, rank, file, cur, n)[k].mov.to == CB.Ray(cur, rank, file, k + 1)
    decreases n
  {
    var next := Offset(cur, rank, file);
    if n > 0 && OnBoard(next) && (cur == pos || At(b, cur).None?) {
      WalkFixedOnTargets(b, pos, color, rank, file, next, n - 1);
      forall k | 1 <= k < |WalkFixedOn(b, pos, color, rank, file, cur, n)|
        ensures WalkFixedOn(b, pos, color, rank, file, cur, n)[k].mov.to == CB.Ray(cur, rank, file, k + 1)
      {
        RayFromNext(cur, rank, file, k);
      }
    }
  }

  /**
   * The `k`-th play of the walk as written goes onto the `k + 1`-th square
   * of the piece's ray; with `Walk`'s classification and `WalkReach` fixing
   * how many there are, this pins the walk down completely.
   */
  lemma WalkSquares(b: Board, pos: Position, color: Color, rank: int, file: int)
    requires OnBoard(pos)
    ensures forall k :: 0 <= k < |Walk(b, pos, color, rank, file)| ==>
      Walk(b, pos, color, rank, file)[k].mov == Move(CB.Ray(pos, rank, file, k + 1), pos)
  {
    WalkOnTargets(b, pos, color, rank, file, pos, 7);
  }

  /** The same for the corrected walk, whose length `WalkFixedReach` fixes. */
  lemma WalkFixedSquares(b: Board, pos: Position, color: Color, rank: int, file: int)
    requires OnBoard(pos)
    ensures forall k :: 0 <= k < |WalkFixed(b, pos, color, rank, file)| ==>
      WalkFixed(b, pos, color, rank, file)[k].mov == Move(CB.Ray(pos, rank, file, k + 1), pos)
  {
    WalkFixedOnTargets(b, pos, color, rank, file, pos, 7);
  }

  // ---------------------------------------------------------------------------
  // the pieces

  /**
   * Every play goes from `pos` to a square of the board and is classified
   * by what stands there, seen from `color`.
   */
  predicate Classified(b: Board, qs: seq<Play>, pos: Position, color: Color) {
    forall q :: q in qs ==> Carries(q) && q.mov.from == pos && OnBoard(q.mov.to) && q == Classify(b, q.mov, color)
  }

  /**
   * `Board::bishop_moves`: the walks as written along only three diagonals,
   * (-1, -1), (-1, 1) and (1, -1).
   */
  function BishopMoves(b: Board, pos: Position, color: Color): (r: seq<Play>)
    requires OnBoard(pos)
    ensures |r| <= 21
    ensures Classified(b, r, pos, color)
  {
    Walk(b, pos, color, -1, -1) + Walk(b, pos, color, -1, 1) + Walk(b, pos, color, 1, -1)
  }

  /** `Board::rook_moves`: the walks as written in the four straight directions. */
  function RookMoves(b: Board, pos: Position, color: Color): (r: seq<Play>)
    requires OnBoard(pos)
    ensures |r| <= 28
    ensures Classified(b, r, pos, color)
  {
    Walk(b, pos, color, -1, 0) + Walk(b, pos, color, 0, -1)
      + Walk(b, pos, color, 0, 1) + Walk(b, pos, color, 1, 0)
  }

  /** `Board::queen_moves`: the bishop's plays, then the rook's. */
  function QueenMoves(b: Board, pos: Position, color: Color): (r: seq<Play>)
    requires OnBoard(pos)
    ensures |r| <= 49
    ensures Classified(b, r, pos, color)
  {
    BishopMoves(b, pos, color) + RookMoves(b, pos, color)
  }

  /** The bishop's three directions, walked with the corrected walk. */
  function BishopMovesFixed(b: Board, pos: Position, color: Color): (r: seq<Play>)
    requires OnBoard(pos)
    ensures |r| <= 21
    ensures Classified(b, r, pos, color)
  {
    WalkFixed(b, pos, color, -1, -1) + WalkFixed(b, pos, color, -1, 1) + WalkFixed(b, pos, color, 1, -1)
  }

  /** The rook's four directions, walked with the corrected walk. */
  function RookMovesFixed(b: Board, pos: Position, color: Color): (r: seq<Play>)
    requires OnBoard(pos)
    ensures |r| <= 28
    ensures Classified(b, r, pos, color)
  {
    WalkFixed(b, pos, color, -1, 0) + WalkFixed(b, pos, color, 0, -1)
      + WalkFixed(b, pos, color, 0, 1) + WalkFixed(b, pos, color, 1, 0)
  }

  /** The queen on the corrected walk: the corrected bishop's plays, then the corrected rook's. */
  function QueenMovesFixed(b: Board, pos: Position, color: Color): (r: seq<Play>)
    requires OnBoard(pos)
    ensures |r| <= 49
    ensures Classified(b, r, pos, color)
  {
    BishopMovesFixed(b, pos, color) + RookMovesFixed(b, pos, color)
  }

  /** The play goes from `pos` to a square of the board that shares its rank or its file, but not both. */
  predicate Straight(q: Play, pos: Position) {
    Carries(q) && q.mov.from == pos && OnBoard(q.mov.to)
    && (q.mov.to.rank == pos.rank <==> q.mov.to.file != pos.file)
  }

  /**
   * The play goes from `pos` diagonally to a square of the board, but never
   * towards higher ranks and higher files at once.
   */
  predicate ThreeDiagonals(q: Play, pos: Position) {
    Carries(q) && q.mov.from == pos && OnBoard(q.mov.to)
    && q.mov.to != pos
    && (q.mov.to.rank - pos.rank == q.mov.to.file - pos.file || q.mov.to.rank - pos.rank == pos.file - q.mov.to.file)
    && !(q.mov.to.rank > pos.rank && q.mov.to.file > pos.file)
  }

  /** A rook moves along its rank or its file, each play classified by what stands on its square. */
  lemma RookMovesStraight(b: Board, pos: Position, color: Color)
    requires OnBoard(pos)
    ensures forall q :: q in RookMoves(b, pos, color) ==> Straight(q, pos)
  {
    WalkOnBeyond(b, pos, color, -1, 0, pos, 7);
    WalkOnBeyond(b, pos, color, 0, -1, pos, 7);
    WalkOnBeyond(b, pos, color, 0, 1, pos, 7);
    WalkOnBeyond(b, pos, color, 1, 0, pos, 7);
  }

  /**
   * A bishop moves diagonally, and never towards higher ranks and files at
   * once: the fourth diagonal is missing.
   */
  lemma BishopMovesDiagonal(b: Board, pos: Position, color: Color)
    requires OnBoard(pos)
    ensures forall q :: q in BishopMoves(b, pos, color) ==> ThreeDiagonals(q, pos)
  {
    WalkOnBeyond(b, pos, color, -1, -1, pos, 7);
    WalkOnBeyond(b, pos, color, -1, 1, pos, 7);
    WalkOnBeyond(b, pos, color, 1, -1, pos, 7);
  }

  /** A queen moves straight or along one of the bishop's three diagonals. */
  lemma QueenMovesLines(b: Board, pos: Position, color: Color)
    requires OnBoard(pos)
    ensures forall q :: q in QueenMoves(b, pos, color) ==> Straight(q, pos) || ThreeDiagonals(q, pos)
  {
    RookMovesStraight(b, pos, color);
    BishopMovesDiagonal(b, pos, color);
  }

  /** The corrected rook also stays on its rank or file. */
  lemma RookMovesFixedStraight(b: Board, pos: Position, color: Color)
    requires OnBoard(pos)
    ensures forall q :: q in RookMovesFixed(b, pos, color) ==> Straight(q, pos)
  {
    WalkFixedBeyond(b, pos, color, -1, 0);
    WalkFixedBeyond(b, pos, color, 0, -1);
    WalkFixedBeyond(b, pos, color, 0, 1);
    WalkFixedBeyond(b, pos, color, 1, 0);
  }

  /** The corrected bishop also keeps to the three diagonals. */
  lemma BishopMovesFixedDiagonal(b: Board, pos: Position, color: Color)
    requires OnBoard(pos)
    ensures forall q :: q in BishopMovesFixed(b, pos, color) ==> ThreeDiagonals(q, pos)
  {
    WalkFixedBeyond(b, pos, color, -1, -1);
    WalkFixedBeyond(b, pos, color, -1, 1);
    WalkFixedBeyond(b, pos, color, 1, -1);
  }

  /** The corrected queen moves straight or along one of the three diagonals. */
  lemma QueenMovesFixedLines(b: Board, pos: Position, color: Color)
    requires OnBoard(pos)
    ensures forall q :: q in QueenMovesFixed(b, pos, color) ==> Straight(q, pos) || ThreeDiagonals(q, pos)
  {
    RookMovesFixedStraight(b, pos, color);
    BishopMovesFixedDiagonal(b, pos, color);
  }

  /** The eight neighbours of `king_moves`, in the source's order. */
  const KingSteps: seq<(int, int)> := [(0, 1), (0, -1), (1, 0), (1, 1), (1, -1), (-1, 0), (-1, 1), (-1, -1)]

  /** The on-board single steps from `pos`, in the order of `steps`. */
  function Steps(b: Board, pos: Position, color: Color, steps: seq<(int, int)>): (r: seq<Play>)
    ensures |r| <= |steps|
    ensures Classified(b, r, pos, color)
  {
    if |steps| == 0 then []
    else Plays(Relative(b, pos, color, steps[0].0, steps[0].1)) + Steps(b, pos, color, steps[1..])
  }

  lemma {:induction false} StepsMembers(b: Board, pos: Position, color: Color, steps: seq<(int, int)>, q: Play)
    ensures q in Steps(b, pos, color, steps) <==> exists s :: s in steps && Relative(b, pos, color, s.0, s.1) == Some(q)
  {
    if |steps| > 0 {
      StepsMembers(b, pos, color, steps[1..], q);
      assert forall s :: s in steps <==> s == steps[0] || s in steps[1..];
    }
  }

  /** Every play of `Steps` comes from one of the steps; returns its index. */
  lemma {:induction false} StepsSource(b: Board, pos: Position, color: Color, steps: seq<(int, int)>, q: Play) returns (i: nat)
    requires q in Steps(b, pos, color, steps)
    ensures i < |steps| && Relative(b, pos, color, steps[i].0, steps[i].1) == Some(q)
  {
    if Relative(b, pos, color, steps[0].0, steps[0].1) == Some(q) {
      i := 0;
    } else {
      var j := StepsSource(b, pos, color, steps[1..], q);
      i := j + 1;
    }
  }

  /** `Board::king_moves`: one step in each of the eight directions that stays on the board. */
  function KingMoves(b: Board, pos: Position, color: Color): (r: seq<Play>)
    ensures |r| <= 8
    ensures Classified(b, r, pos, color)
  {
    Steps(b, pos, color, KingSteps)
  }

  /** The play goes from `pos` to a neighbouring square of the board. */
  predicate Adjacent(q: Play, pos: Position) {
    Carries(q) && q.mov.from == pos && OnBoard(q.mov.to) && q.mov.to != pos
    && -1 <= q.mov.to.rank - pos.rank <= 1 && -1 <= q.mov.to.file - pos.file <= 1
  }

  /** The king's plays are exactly the classified plays onto its neighbours on the board. */
  lemma KingMovesNeighbours(b: Board, pos: Position, color: Color, q: Play)
    ensures q in KingMoves(b, pos, color) <==> Adjacent(q, pos) && q == Classify(b, q.mov, color)
  {
    if q in KingMoves(b, pos, color) {
      KingMovesSound(b, pos, color, q);
    }
    if Adjacent(q, pos) && q == Classify(b, q.mov, color) {
      KingMovesComplete(b, pos, color, q);
    }
  }

  lemma KingMovesSound(b: Board, pos: Position, color: Color, q: Play)
    requires q in KingMoves(b, pos, color)
    ensures Adjacent(q, pos) && q == Classify(b, q.mov, color)
  {
    var i := StepsSource(b, pos, color, KingSteps, q);
    var s := KingSteps[i];
    assert s != (0, 0) && -1 <= s.0 <= 1 && -1 <= s.1 <= 1;
  }

  lemma KingMovesComplete(b: Board, pos: Position, color: Color, q: Play)
    requires Adjacent(q, pos) && q == Classify(b, q.mov, color)
    ensures q in KingMoves(b, pos, color)
  {
    var s := (q.mov.to.rank - pos.rank, q.mov.to.file - pos.file);
    assert s in KingSteps;
    assert Relative(b, pos, color, s.0, s.1) == Some(q);
    StepsMembers(b, pos, color, KingSteps, q);
  }

  /**
   * `Board::pawn_moves`: the two diagonal steps forward when they land on a
   * piece (of either colour), the step forward onto an empty square, and
   * from the start rank the double step onto an empty square, whatever
   * stands in between. Neither en passant nor promotion is made here.
   */
  function PawnMoves(b: Board, pos: Position, color: Color): (r: seq<Play>)
    ensures |r| <= 4
    ensures Classified(b, r, pos, color)
  {
    var dir := PawnDir(color);
    Plays(CaptureOnly(b, pos, color, dir, 1)) + Plays(CaptureOnly(b, pos, color, dir, -1))
      + Plays(MovesOnly(b, pos, color, dir, 0))
      + Plays(if pos.rank == PawnStart(color) then MovesOnly(b, pos, color, 2 * dir, 0) else None)
  }

  /**
   * The shape of a pawn's play: a plain move goes straight forward onto an
   * empty square, one step or two from its start rank; every other play is
   * one step diagonally forward onto a piece.
   */
  predicate PawnStep(b: Board, q: Play, pos: Position, color: Color) {
    && Carries(q) && q.mov.from == pos && OnBoard(q.mov.to)
    && (q.Plain? ==>
          && Free(b, q.mov.to) && q.mov.to.file == pos.file
          && (q.mov.to.rank == pos.rank + PawnDir(color)
              || (pos.rank == PawnStart(color) && q.mov.to.rank == pos.rank + 2 * PawnDir(color))))
    && (!q.Plain? ==>
          && Taken(b, q.mov.to) && q.mov.to.rank == pos.rank + PawnDir(color)
          && (q.mov.to.file == pos.file + 1 || q.mov.to.file == pos.file - 1))
  }

  /** Every pawn play has that shape and is classified by what stands on its square. */
  lemma PawnMovesShape(b: Board, pos: Position, color: Color, q: Play)
    requires q in PawnMoves(b, pos, color)
    ensures PawnStep(b, q, pos, color) && q == Classify(b, q.mov, color)
  {
    var dir := PawnDir(color);
    var right, left := CaptureOnly(b, pos, color, dir, 1), CaptureOnly(b, pos, color, dir, -1);
    var step := MovesOnly(b, pos, color, dir, 0);
    var jump := if pos.rank == PawnStart(color) then MovesOnly(b, pos, color, 2 * dir, 0) else None;
    assert PawnMoves(b, pos, color) == Plays(right) + Plays(left) + Plays(step) + Plays(jump);
    if q in Plays(right) {
      PawnCaptureShape(b, pos, color, 1);
    } else if q in Plays(left) {
      PawnCaptureShape(b, pos, color, -1);
    } else if q in Plays(step) {
      PawnAdvanceShape(b, pos, color, 1);
    } else {
      PawnAdvanceShape(b, pos, color, 2);
    }
  }

  lemma PawnCaptureShape(b: Board, pos: Position, color: Color, side: int)
    requires side == 1 || side == -1
    requires CaptureOnly(b, pos, color, PawnDir(color), side).Some?
    ensures PawnStep(b, CaptureOnly(b, pos, color, PawnDir(color), side).value, pos, color)
  {
  }

  lemma PawnAdvanceShape(b: Board, pos: Position, color: Color, n: int)
    requires n == 1 || (n == 2 && pos.rank == PawnStart(color))
    requires MovesOnly(b, pos, color, n * PawnDir(color), 0).Some?
    ensures PawnStep(b, MovesOnly(b, pos, color, n * PawnDir(color), 0).value, pos, color)
  {
  }

  /** From its start rank a pawn jumps two squares even when the square in between is occupied. */
  lemma PawnJumpsOver(b: Board, pos: Position, color: Color)
    requires pos.rank == PawnStart(color) && 0 <= pos.file < 8
    requires Taken(b, Offset(pos, PawnDir(color), 0))
    requires Free(b, Offset(pos, 2 * PawnDir(color), 0))
    ensures Plain(Move(Offset(pos, 2 * PawnDir(color), 0), pos)) in PawnMoves(b, pos, color)
  {
  }

  /** The king's plays, all at once (see `KingMovesNeighbours`). */
  lemma KingMovesShape(b: Board, pos: Position, color: Color)
    ensures forall q :: q in KingMoves(b, pos, color) ==> Adjacent(q, pos) && q == Classify(b, q.mov, color)
  {
    forall q | q in KingMoves(b, pos, color)
      ensures Adjacent(q, pos) && q == Classify(b, q.mov, color)
    {
      KingMovesSound(b, pos, color, q);
    }
  }

  /** The pawn's plays, all at once (see `PawnMovesShape`). */
  lemma PawnMovesAll(b: Board, pos: Position, color: Color)
    ensures forall q :: q in PawnMoves(b, pos, color) ==> PawnStep(b, q, pos, color) && q == Classify(b, q.mov, color)
  {
    forall q | q in PawnMoves(b, pos, color)
      ensures PawnStep(b, q, pos, color) && q == Classify(b, q.mov, color)
    {
      PawnMovesShape(b, pos, color, q);
    }
  }

  /** The geometry of a play of `piece` standing on `pos`, by the piece's kind as `moves_for` dispatches it. */
  predicate Shaped(b: Board, piece: Piece, pos: Position, q: Play) {
    match piece.kind
    case Bishop => ThreeDiagonals(q, pos)
    case Rook => Straight(q, pos)
    case Queen => Straight(q, pos) || ThreeDiagonals(q, pos)
    case King => Adjacent(q, pos)
    case Knight => Adjacent(q, pos)
    case Pawn => PawnStep(b, q, pos, piece.color)
  }

  /**
   * `Board::moves_for`: the plays of the piece on `pos`, none for an empty
   * square. Every play goes where the piece's kind moves (three diagonals
   * for the bishop, a king's step for the knight) and is classified by
   * what stands on its square, seen from the piece's colour.
   */
  function MovesFor(b: Board, pos: Position): (r: seq<Play>)
    requires OnBoard(pos)
    ensures At(b, pos).None? ==> r == []
    ensures At(b, pos).Some? ==> forall q :: q in r ==>
      Shaped(b, At(b, pos).value, pos, q) && q == Classify(b, q.mov, At(b, pos).value.color)
  {
    match At(b, pos)
    case None => []
    case Some(piece) =>
      match piece.kind
      case Bishop => BishopMovesDiagonal(b, pos, piece.color); BishopMoves(b, pos, piece.color)
      case King => KingMovesShape(b, pos, piece.color); KingMoves(b, pos, piece.color)
      case Queen => QueenMovesLines(b, pos, piece.color); QueenMoves(b, pos, piece.color)
      case Knight => KingMovesShape(b, pos, piece.color); KingMoves(b, pos, piece.color)
      case Rook => RookMovesStraight(b, pos, piece.color); RookMoves(b, pos, piece.color)
      case Pawn => PawnMovesAll(b, pos, piece.color); PawnMoves(b, pos, piece.color)
  }

  /** A knight gets a king's plays (see `KingMovesNeighbours`): one step to each neighbour, never the L-shaped jump. */
  lemma KnightMovesAsKing(b: Board, pos: Position, c: Color)
    requires OnBoard(pos) && At(b, pos) == Some(Piece(Knight, c))
    ensures MovesFor(b, pos) == KingMoves(b, pos, c)
  {
  }

  /** The plays of each listed square, one list per square. */
  function MovesEach(b: Board, es: seq<(Piece, Position)>): (r: seq<seq<Play>>)
    requires forall k :: 0 <= k < |es| ==> OnBoard(es[k].1)
    ensures |r| == |es| && forall k :: 0 <= k < |es| ==> r[k] == MovesFor(b, es[k].1)
  {
    if |es| == 0 then []
    else [MovesFor(b, es[0].1)] + MovesEach(b, es[1..])
  }

  /** The lists, one after the other. */
  function Flatten(xss: seq<seq<Play>>): (r: seq<Play>)
  {
    if |xss| == 0 then [] else xss[0] + Flatten(xss[1..])
  }

  /** Every element of the flattening comes from one of the lists; returns its index. */
  lemma {:induction false} FlattenSource(xss: seq<seq<Play>>, q: Play) returns (k: nat)
    requires q in Flatten(xss)
    ensures k < |xss| && q in xss[k]
  {
    if q in xss[0] {
      k := 0;
    } else {
      var j := FlattenSource(xss[1..], q);
      k := j + 1;
    }
  }

  /** Every element of every list is in the flattening. */
  lemma {:induction false} FlattenHas(xss: seq<seq<Play>>, k: nat, q: Play)
    requires k < |xss| && q in xss[k]
    ensures q in Flatten(xss)
  {
    if k > 0 {
      FlattenHas(xss[1..], k - 1, q);
    }
  }

  /** The plays of the listed squares, square after square. */
  function MovesAll(b: Board, es: seq<(Piece, Position)>): (r: seq<Play>)
    requires forall k :: 0 <= k < |es| ==> OnBoard(es[k].1)
  {
    Flatten(MovesEach(b, es))
  }

  /** The square holds a piece of `turn`. */
  predicate Mover(b: Board, turn: Color, p: Position) {
    Taken(b, p) && At(b, p).value.color == turn
  }

  /** A play of the piece on `p` starts on `p` and is classified from that piece's side. */
  lemma MovesForFrom(b: Board, p: Position, q: Play)
    requires OnBoard(p) && At(b, p).Some? && q in MovesFor(b, p)
    ensures Carries(q) && q.mov.from == p && OnBoard(q.mov.to) && q == Classify(b, q.mov, At(b, p).value.color)
  {
    assert Shaped(b, At(b, p).value, p, q);
  }

  /** Every play of the listed squares, all holding pieces of `turn`, starts on one of them. */
  lemma MovesAllFrom(b: Board, es: seq<(Piece, Position)>, turn: Color)
    requires forall k :: 0 <= k < |es| ==> OnBoard(es[k].1) && At(b, es[k].1) == Some(es[k].0) && es[k].0.color == turn
    ensures forall q :: q in MovesAll(b, es) ==> Carries(q) && Mover(b, turn, q.mov.from) && OnBoard(q.mov.to) && q == Classify(b, q.mov, turn)
  {
    forall q | q in MovesAll(b, es)
      ensures Carries(q) && Mover(b, turn, q.mov.from) && OnBoard(q.mov.to) && q == Classify(b, q.mov, turn)
    {
      var k := FlattenSource(MovesEach(b, es), q);
      MovesForFrom(b, es[k].1, q);
    }
  }

  /**
   * `Board::moves`: the plays of every piece of `turn`, defences included.
   * Each play starts on a square of one of `turn`'s pieces and is
   * classified from `turn`'s side.
   */
  function Moves(b: Board, turn: Color): (r: seq<Play>)
    ensures forall q :: q in r ==> Carries(q) && Mover(b, turn, q.mov.from) && OnBoard(q.mov.to) && q == Classify(b, q.mov, turn)
  {
    var es := ColoredPieces(b, turn);
    MovesAllFrom(b, es, turn);
    MovesAll(b, es)
  }

  /** A play is among `turn`'s exactly when it is a play of one of `turn`'s pieces. */
  lemma MovesMembers(b: Board, turn: Color, q: Play)
    ensures q in Moves(b, turn) <==> exists p :: Mover(b, turn, p) && q in MovesFor(b, p)
  {
    if q in Moves(b, turn) {
      var p := MovesSource(b, turn, q);
    }
    if exists p :: Mover(b, turn, p) && q in MovesFor(b, p) {
      var p :| Mover(b, turn, p) && q in MovesFor(b, p);
      MovesComplete(b, turn, p, q);
    }
  }

  lemma MovesSource(b: Board, turn: Color, q: Play) returns (p: Position)
    requires q in Moves(b, turn)
    ensures Mover(b, turn, p) && q in MovesFor(b, p)
  {
    var es := ColoredPieces(b, turn);
    var k := FlattenSource(MovesEach(b, es), q);
    p := es[k].1;
  }

  lemma MovesComplete(b: Board, turn: Color, p: Position, q: Play)
    requires Mover(b, turn, p) && q in MovesFor(b, p)
    ensures q in Moves(b, turn)
  {
    var es := ColoredPieces(b, turn);
    ColoredPiecesExact(b, turn, (At(b, p).value, p));
    var k :| 0 <= k < |es| && es[k] == (At(b, p).value, p);
    FlattenHas(MovesEach(b, es), k, q);
  }

  // ---------------------------------------------------------------------------
  // the walk, on a board with a single rook

  /** The table with one White rook, on (0, 0). */
  function LoneRook(): Board {
    var row := CB.EmptyRow[0 := Some(Piece(Rook, White))];
    Board([row, CB.EmptyRow, CB.EmptyRow, CB.EmptyRow, CB.EmptyRow, CB.EmptyRow, CB.EmptyRow, CB.EmptyRow],
          CB.FullCastle, CB.FullCastle)
  }

  /**
   * A lone rook in the corner: the walk as written gives it one square
   * along its rank, where the corrected walk gives the whole rank.
   */
  lemma LoneRookWalks()
    ensures Walk(LoneRook(), Position(0, 0), White, 0, 1) == [Plain(Move(Position(0, 1), Position(0, 0)))]
  {
    WalkStopsAfterFree(LoneRook(), Position(0, 0), White, 0, 1);
  }

  /** Squares (0, f) to (0, 6) of the lone rook's table are empty, so the path from (0, f) on is clear. */
  lemma {:induction false} LoneRookRowClear(f: nat)
    requires 1 <= f <= 7
    ensures PathClear(LoneRook(), Position(0, 0), 0, 1, Position(0, f), 7 - f)
    decreases 7 - f
  {
    if f < 7 {
      LoneRookRowClear(f + 1);
      assert Offset(Position(0, f), 0, 1) == Position(0, f + 1);
      assert Free(LoneRook(), Position(0, f));
    }
  }

  /** With the corrected walk, the lone rook reaches every square of its rank: seven plays. */
  lemma LoneRookWalksFixed()
    ensures |WalkFixed(LoneRook(), Position(0, 0), White, 0, 1)| == 7
  {
    WalkFixedReach(LoneRook(), Position(0, 0), White, 0, 1, 7);
    LoneRookRowClear(1);
    assert Offset(Position(0, 0), 0, 1) == Position(0, 1);
  }

  /** Squares (f, 0) to (6, 0) of the lone rook's table are empty, so the path down its file from (f, 0) on is clear. */
  lemma {:induction false} LoneRookFileClear(f: nat)
    requires 1 <= f <= 7
    ensures PathClear(LoneRook(), Position(0, 0), 1, 0, Position(f, 0), 7 - f)
    decreases 7 - f
  {
    if f < 7 {
      LoneRookFileClear(f + 1);
      assert Offset(Position(f, 0), 1, 0) == Position(f + 1, 0);
      assert Free(LoneRook(), Position(f, 0));
    }
  }

  /** The lone rook's walks off the board, up and to the left, yield nothing. */
  lemma LoneRookWalksOff()
    ensures Walk(LoneRook(), Position(0, 0), White, -1, 0) == []
    ensures Walk(LoneRook(), Position(0, 0), White, 0, -1) == []
  {
  }

  /** As written, the lone rook's walk down its file also stops after its first, empty, square. */
  lemma LoneRookWalksDown()
    ensures Walk(LoneRook(), Position(0, 0), White, 1, 0) == [Plain(Move(Position(1, 0), Position(0, 0)))]
  {
    WalkStopsAfterFree(LoneRook(), Position(0, 0), White, 1, 0);
  }

  /**
   * As written, the lone rook in the corner gets two plays in all: the
   * square next to it along its rank and the one along its file.
   */
  lemma LoneRookMoves()
    ensures MovesFor(LoneRook(), Position(0, 0))
      == [Plain(Move(Position(0, 1), Position(0, 0))), Plain(Move(Position(1, 0), Position(0, 0)))]
  {
    var b, pos := LoneRook(), Position(0, 0);
    assert At(b, pos) == Some(Piece(Rook, White));
    LoneRookWalksOff();
    LoneRookWalks();
    LoneRookWalksDown();
    assert MovesFor(b, pos) == RookMoves(b, pos, White);
  }

  /** With the corrected walk, the lone rook reaches every square of its file: seven plays. */
  lemma LoneRookWalksFixedDown()
    ensures |WalkFixed(LoneRook(), Position(0, 0), White, 1, 0)| == 7
  {
    WalkFixedReach(LoneRook(), Position(0, 0), White, 1, 0, 7);
    LoneRookFileClear(1);
    assert Offset(Position(0, 0), 1, 0) == Position(1, 0);
  }

  /** With the corrected walk, the lone rook reaches its whole rank and file: fourteen plays. */
  lemma LoneRookMovesFixed()
    ensures |RookMovesFixed(LoneRook(), Position(0, 0), White)| == 14
  {
    var b, pos := LoneRook(), Position(0, 0);
    assert WalkFixed(b, pos, White, -1, 0) == [] && WalkFixed(b, pos, White, 0, -1) == [];
    LoneRookWalksFixed();
    LoneRookWalksFixedDown();
  }
}
