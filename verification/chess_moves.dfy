/**
 * Squares, moves and plays of the square-table board (src/moves.rs). A
 * `Position` is a signed (rank, file) pair that may lie off the board; the
 * board is ranks and files 0 to 7.
 */
module ChessMoves {
  import opened Wrappers
  import opened ChessPiece

  /** `isize` coordinates; the model does not bound them. */
  datatype Position = Position(rank: int, file: int)

  datatype Move = Move(to: Position, from: Position)

  /**
   * `Play`: a `Defense` is a move onto one's own piece, kept for the
   * heuristics but not playable; `Plain` is the source's `Play::Move`.
   */
  datatype Play =
    | Defense(mov: Move, piece: Piece)
    | Capture(mov: Move, piece: Piece)
    | Plain(mov: Move)
    | RightCastle
    | LeftClastle

  predicate OnBoard(p: Position) {
    0 <= p.rank < 8 && 0 <= p.file < 8
  }

  /** `From<(isize, isize)>`: the first component is the rank, the second the file. */
  function FromPair(pair: (int, int)): (p: Position)
    ensures p.rank == pair.0 && p.file == pair.1
  {
    Position(pair.0, pair.1)
  }

  /** `playable`: every play but a defence can be played. */
  function Playable(p: Play): (r: bool)
    ensures r <==> !(exists m, q :: p == Defense(m, q))
  {
    !p.Defense?
  }

  /**
   * `Position::validate` is not part of this model; this stand-in keeps the
   * position exactly when it lies on the board.
   */
  function Validate(p: Position): (r: Option<Position>)
    ensures r.Some? <==> OnBoard(p)
    ensures r.Some? ==> r.value == p
  {
    if OnBoard(p) then Some(p) else None
  }

  /**
   * `Position::relative`: the offsets, read as absolute positions (the
   * receiver is not added), that lie on the board, in input order.
   */
  function Relative(offsets: seq<(int, int)>): (r: seq<Position>)
    ensures |r| <= |offsets|
    ensures forall k :: 0 <= k < |r| ==> OnBoard(r[k])
  {
    if |offsets| == 0 then []
    else
      var p := FromPair(offsets[0]);
      (if OnBoard(p) then [p] else []) + Relative(offsets[1..])
  }

  /** Exactly the offsets that land on the board come out of `relative`. */
  lemma {:induction false} RelativeMembers(offsets: seq<(int, int)>, p: Position)
    ensures p in Relative(offsets) <==> OnBoard(p) && (p.rank, p.file) in offsets
  {
    if |offsets| > 0 {
      RelativeMembers(offsets[1..], p);
      assert offsets == [offsets[0]] + offsets[1..];
    }
  }

  /** `relative` keeps the input order: it distributes over concatenation. */
  lemma {:induction false} RelativeAppend(a: seq<(int, int)>, b: seq<(int, int)>)
    ensures Relative(a + b) == Relative(a) + Relative(b)
  {
    if |a| > 0 {
      RelativeAppend(a[1..], b);
      assert (a + b)[1..] == a[1..] + b;
    } else {
      assert a + b == b;
    }
  }

  lemma RelativeExample()
    ensures Relative([(1, 2), (-1, 0), (7, 8), (7, 7)]) == [Position(1, 2), Position(7, 7)]
  {
  }
}
