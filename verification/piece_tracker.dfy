/**
 * The piece tracker (engine/src/piece_tracker.rs): beside the square table,
 * a list per colour of the squares its pieces stand on, which every move
 * has to keep in step with the table.
 *
 * The tracker's board is the square table of `ChessBoard`; a `Tracked`
 * value pairs the two. The tracker's `ArrayVec` capacity of sixteen is not
 * modelled.
 */
module PieceTracker {
  import opened Wrappers
  import opened ChessPiece
  import opened ChessMoves
  import opened ChessBoard
  import StartBoard

  datatype Tracker = Tracker(black: seq<Position>, white: seq<Position>)

  /** A board together with its tracker. */
  datatype Tracked = Tracked(board: Board, pieces: Tracker)

  /** `PieceTracker::pieces`. */
  function Pieces(t: Tracker, c: Color): seq<Position> {
    match c
    case Black => t.black
    case White => t.white
  }

  /** Writing through `PieceTracker::pieces_mut`: one colour's list replaced, the other kept. */
  function WithPieces(t: Tracker, c: Color, s: seq<Position>): (r: Tracker)
    ensures Pieces(r, c) == s && Pieces(r, Opposite(c)) == Pieces(t, Opposite(c))
  {
    match c
    case Black => t.(black := s)
    case White => t.(white := s)
  }

  /** `find_position`: the index of the first entry equal to `target`. */
  function FindPosition(s: seq<Position>, target: Position): (r: Option<nat>)
    ensures r.None? <==> target !in s
    ensures r.Some? ==> r.value < |s| && s[r.value] == target
    ensures r.Some? ==> forall j :: 0 <= j < r.value ==> s[j] != target
  {
    if |s| == 0 then None
    else if s[0] == target then Some(0)
    else
      match FindPosition(s[1..], target)
      case None => None
      case Some(i) => Some(i + 1)
  }

  /** `ArrayVec::swap_remove`: the last entry takes the place of the removed one. */
  function SwapRemove(s: seq<Position>, i: nat): (r: seq<Position>)
    requires i < |s|
    ensures |r| == |s| - 1
    ensures multiset(r) == multiset(s) - multiset{s[i]}
  {
    SwapRemoveCount(s, i);
    s[i := s[|s| - 1]][..|s| - 1]
  }

  lemma SwapRemoveCount(s: seq<Position>, i: nat)
    requires i < |s|
    ensures multiset(s[i := s[|s| - 1]][..|s| - 1]) == multiset(s) - multiset{s[i]}
  {
    var last := |s| - 1;
    var moved := s[i := s[last]];
    assert s == s[..last] + [s[last]];
    if i < last {
      assert s[..last] == s[..i] + [s[i]] + s[i + 1..last];
      assert moved[..last] == s[..i] + [s[last]] + s[i + 1..last];
    }
  }

  /**
   * `PieceTracker::remove`: the first entry equal to `target` is dropped
   * (by swap-remove); an untracked target changes nothing. Either way one
   * copy of `target` leaves the multiset, which is all the caller needs.
   */
  function Remove(t: Tracker, c: Color, target: Position): (r: Tracker)
    ensures Pieces(r, Opposite(c)) == Pieces(t, Opposite(c))
    ensures multiset(Pieces(r, c)) == multiset(Pieces(t, c)) - multiset{target}
    ensures target in Pieces(t, c) ==> |Pieces(r, c)| == |Pieces(t, c)| - 1
    ensures target !in Pieces(t, c) ==> r == t
  {
    match FindPosition(Pieces(t, c), target)
    case None =>
      assert multiset(Pieces(t, c))[target] == 0;
      t
    case Some(i) => WithPieces(t, c, SwapRemove(Pieces(t, c), i))
  }

  /**
   * `PieceTracker::mov`: the first entry equal to `mov.from` becomes
   * `mov.to`; the lengths and the other colour stay.
   */
  function Mov(t: Tracker, c: Color, mov: Move): (r: Tracker)
    ensures Pieces(r, Opposite(c)) == Pieces(t, Opposite(c))
    ensures |Pieces(r, c)| == |Pieces(t, c)|
    ensures mov.from !in Pieces(t, c) ==> r == t
    ensures mov.from in Pieces(t, c) ==>
      multiset(Pieces(r, c)) == multiset(Pieces(t, c)) - multiset{mov.from} + multiset{mov.to}
    ensures forall k :: 0 <= k < |Pieces(r, c)| && Pieces(t, c)[k] != mov.from ==> Pieces(r, c)[k] == Pieces(t, c)[k]
  {
    var s := Pieces(t, c);
    match FindPosition(s, mov.from)
    case None => t
    case Some(i) =>
      assert multiset(s[i := mov.to]) == multiset(s) - multiset{mov.from} + multiset{mov.to};
      WithPieces(t, c, s[i := mov.to])
  }

  /** `mov` changes exactly the first matching entry, so the earlier entries and the later ones stay. */
  lemma MovFirst(t: Tracker, c: Color, mov: Move)
    requires mov.from in Pieces(t, c)
    ensures var i := FindPosition(Pieces(t, c), mov.from).value;
      && Pieces(Mov(t, c, mov), c) == Pieces(t, c)[i := mov.to]
      && forall j :: 0 <= j < i ==> Pieces(t, c)[j] != mov.from
  {
  }

  // ---------------------------------------------------------------------------
  // being in step with the board

  /** The square holds a piece of colour `c` (false off the board). */
  predicate Has(b: Board, p: Position, c: Color) {
    OnBoard(p) && At(b, p).Some? && At(b, p).value.color == c
  }

  /**
   * The invariant the tracker is meant to keep: each colour's list holds
   * every square with a piece of that colour exactly once, and nothing else.
   */
  ghost predicate InSync(tb: Tracked) {
    SyncExcept(tb, Black, None) && SyncExcept(tb, White, None)
  }

  /**
   * Colour `c`'s list holds each square with a piece of that colour once
   * and nothing else, leaving out the square `skip` (if any), which it must
   * not hold at all.
   */
  ghost predicate SyncExcept(tb: Tracked, c: Color, skip: Option<Position>) {
    forall p :: multiset(Pieces(tb.pieces, c))[p] == if Has(tb.board, p, c) && skip != Some(p) then 1 else 0
  }

  /** What `_check_pieces` tests: every piece is tracked under its colour, and every tracked square holds a piece. */
  ghost predicate Consistent(tb: Tracked) {
    AllTracked(tb) && AllOccupied(tb)
  }

  /** Every piece on the board is in its colour's list. */
  ghost predicate AllTracked(tb: Tracked) {
    forall p :: OnBoard(p) && At(tb.board, p).Some? ==> p in Pieces(tb.pieces, At(tb.board, p).value.color)
  }

  /** Every piece from the `s`-th square on, in rank-major order, is in its colour's list. */
  ghost predicate TrackedFrom(tb: Tracked, s: nat) {
    forall p :: OnBoard(p) && s <= Index(p) && At(tb.board, p).Some? ==> p in Pieces(tb.pieces, At(tb.board, p).value.color)
  }

  /** Every entry of either list is a square of the board holding a piece. */
  ghost predicate AllOccupied(tb: Tracked) {
    forall c: Color, p :: p in Pieces(tb.pieces, c) ==> OnBoard(p) && At(tb.board, p).Some?
  }

  /** Every entry of `ps` holds a piece. */
  predicate Occupied(b: Board, ps: seq<Position>)
    requires forall p :: p in ps ==> OnBoard(p)
  {
    forall p :: p in ps ==> At(b, p).Some?
  }

  lemma TrackedFromStart(tb: Tracked)
    ensures TrackedFrom(tb, 0) <==> AllTracked(tb)
  {
  }

  lemma OccupiedBoth(tb: Tracked)
    requires forall c: Color, p :: p in Pieces(tb.pieces, c) ==> OnBoard(p)
    ensures AllOccupied(tb) <==> Occupied(tb.board, Pieces(tb.pieces, White)) && Occupied(tb.board, Pieces(tb.pieces, Black))
  {
    if Occupied(tb.board, Pieces(tb.pieces, White)) && Occupied(tb.board, Pieces(tb.pieces, Black)) {
      forall c: Color, p | p in Pieces(tb.pieces, c)
        ensures OnBoard(p) && At(tb.board, p).Some?
      {
        if c == Black {
        } else {
        }
      }
    }
  }

  /** In step means consistent; consistency alone allows duplicates and entries under the wrong colour. */
  lemma SyncConsistent(tb: Tracked)
    requires InSync(tb)
    ensures Consistent(tb)
  {
    forall p | OnBoard(p) && At(tb.board, p).Some?
      ensures p in Pieces(tb.pieces, At(tb.board, p).value.color)
    {
      assert multiset(Pieces(tb.pieces, At(tb.board, p).value.color))[p] == 1;
    }
    forall c: Color, p | p in Pieces(tb.pieces, c)
      ensures OnBoard(p) && At(tb.board, p).Some?
    {
      assert multiset(Pieces(tb.pieces, c))[p] > 0;
      assert SyncExcept(tb, c, None);
    }
  }

  /** The outcome of `_check_pieces`: `Err` names a colour and square out of step. */
  datatype Checked = Ok | Err(color: Color, pos: Position)

  /** The first square, from the `s`-th on in rank-major order, whose piece is not tracked under its colour. */
  function CheckSquares(tb: Tracked, s: nat): (r: Checked)
    requires s <= 64
    ensures r.Ok? <==> TrackedFrom(tb, s)
    ensures r.Err? ==> Has(tb.board, r.pos, r.color) && r.pos !in Pieces(tb.pieces, r.color)
    decreases 64 - s
  {
    if s == 64 then Ok
    else
      var p := SquareAt(s);
      assert forall q :: OnBoard(q) && Index(q) == s ==> q == p;
      match At(tb.board, p)
      case Some(piece) =>
        if p !in Pieces(tb.pieces, piece.color) then Err(piece.color, p) else CheckSquares(tb, s + 1)
      case None => CheckSquares(tb, s + 1)
  }

  /** The first entry of `ps`, a list of colour `c`, on an empty square. The source would panic on an entry off the board. */
  function CheckEntries(b: Board, c: Color, ps: seq<Position>): (r: Checked)
    requires forall p :: p in ps ==> OnBoard(p)
    ensures r.Ok? <==> Occupied(b, ps)
    ensures r.Err? ==> r.color == c && r.pos in ps && At(b, r.pos).None?
  {
    if |ps| == 0 then Ok
    else if At(b, ps[0]).None? then Err(c, ps[0])
    else CheckEntries(b, c, ps[1..])
  }

  /**
   * `Board::_check_pieces`: the table is scanned first, then White's list,
   * then Black's. An entry off the board is the index panic, excluded here.
   */
  function CheckPieces(tb: Tracked): (r: Checked)
    requires forall c: Color, p :: p in Pieces(tb.pieces, c) ==> OnBoard(p)
    ensures r.Ok? <==> TrackedFrom(tb, 0) && Occupied(tb.board, Pieces(tb.pieces, White)) && Occupied(tb.board, Pieces(tb.pieces, Black))
    ensures r.Err? ==>
      (Has(tb.board, r.pos, r.color) && r.pos !in Pieces(tb.pieces, r.color))
      || (r.pos in Pieces(tb.pieces, r.color) && At(tb.board, r.pos).None?)
  {
    match CheckSquares(tb, 0)
    case Err(c, p) => Err(c, p)
    case Ok =>
      match CheckEntries(tb.board, White, Pieces(tb.pieces, White))
      case Err(c, p) => Err(c, p)
      case Ok =>
        CheckEntries(tb.board, Black, Pieces(tb.pieces, Black))
  }

  /** `_check_pieces` passes exactly on a consistent tracker. */
  lemma CheckPiecesConsistent(tb: Tracked)
    requires forall c: Color, p :: p in Pieces(tb.pieces, c) ==> OnBoard(p)
    ensures CheckPieces(tb).Ok? <==> Consistent(tb)
  {
    TrackedFromStart(tb);
    OccupiedBoth(tb);
  }

  // ---------------------------------------------------------------------------
  // building and moving

  /** The multiset of squares the rank-major scan from the `s`-th square finds for `c`. */
  lemma {:induction false} ColoredFromOnce(b: Board, c: Color, s: nat, p: Position)
    requires s <= 64
    ensures multiset(ColoredFrom(b, c, s))[p] == if Has(b, p, c) && s <= Index(p) then 1 else 0
    decreases 64 - s
  {
    if s < 64 {
      ColoredFromOnce(b, c, s + 1, p);
      var q := SquareAt(s);
      if p == q {
        assert p !in ColoredFrom(b, c, s + 1);
      } else if OnBoard(p) && Index(p) == s {
        IndexInjective(p, q);
      }
    }
  }

  /**
   * `Board::init_piece_tracker`: each colour's list is the rank-major scan
   * of the table for that colour. The source then sorts each list by piece
   * kind with an ordering that is not part of this model, so the order is
   * left as scanned and only the contents are stated.
   */
  function InitPieceTracker(b: Board): (r: Tracker)
    ensures forall c: Color, p :: p in Pieces(r, c) <==> Has(b, p, c)
  {
    Tracker(ColoredPieces(b, Black), ColoredPieces(b, White))
  }

  /** A freshly built tracker is in step with its board. */
  lemma InitInSync(b: Board)
    ensures InSync(Tracked(b, InitPieceTracker(b)))
  {
    InitSyncColor(b, Black);
    InitSyncColor(b, White);
  }

  lemma InitSyncColor(b: Board, c: Color)
    ensures SyncExcept(Tracked(b, InitPieceTracker(b)), c, None)
  {
    InitCounts(b, c);
    CountsSync(Tracked(b, InitPieceTracker(b)), c);
  }

  lemma InitCounts(b: Board, c: Color)
    ensures forall p :: multiset(Pieces(InitPieceTracker(b), c))[p] == if Has(b, p, c) then 1 else 0
  {
    forall p: Position
      ensures multiset(Pieces(InitPieceTracker(b), c))[p] == if Has(b, p, c) then 1 else 0
    {
      ColoredPiecesOnce(b, c, p);
    }
  }

  lemma CountsSync(tb: Tracked, c: Color)
    requires forall p :: multiset(Pieces(tb.pieces, c))[p] == if Has(tb.board, p, c) then 1 else 0
    ensures SyncExcept(tb, c, None)
  {
  }

  /** The rank-major scan lists each square holding a piece of `c` exactly once, and nothing else. */
  lemma ColoredPiecesOnce(b: Board, c: Color, p: Position)
    ensures multiset(ColoredPieces(b, c))[p] == if Has(b, p, c) then 1 else 0
  {
    var s: nat := 0;
    ColoredFromOnce(b, c, s, p);
    assert Has(b, p, c) ==> s <= Index(p);
  }

  /** `Default for Board` with `init_piece_tracker`: the start position, tracked. */
  function TrackedDefault(): Tracked {
    var b := StartBoard.Default();
    Tracked(b, InitPieceTracker(b))
  }

  /** The start position's tracker passes `_check_pieces` and lists sixteen squares per colour. */
  lemma TrackedDefaultChecks()
    ensures forall c: Color, p :: p in Pieces(TrackedDefault().pieces, c) ==> OnBoard(p)
    ensures CheckPieces(TrackedDefault()) == Ok
    ensures |TrackedDefault().pieces.black| == 16 && |TrackedDefault().pieces.white| == 16
  {
    var tb := TrackedDefault();
    InitInSync(tb.board);
    SyncConsistent(tb);
    CheckPiecesConsistent(tb);
    StartBoard.DefaultSixteen(Black);
    StartBoard.DefaultSixteen(White);
  }

  /**
   * `Board::_move_noncapture`: the piece leaves `from` for `to` on the
   * table, and its tracker entry follows. An empty `from` is the source's
   * panic, excluded here.
   */
  function MoveNoncapture(tb: Tracked, mov: Move): (r: (Tracked, Piece))
    requires OnBoard(mov.from) && OnBoard(mov.to) && At(tb.board, mov.from).Some?
    ensures r.1 == At(tb.board, mov.from).value
    ensures At(r.0.board, mov.to) == Some(r.1)
    ensures mov.from != mov.to ==> At(r.0.board, mov.from).None?
    ensures forall q :: OnBoard(q) && q != mov.from && q != mov.to ==> At(r.0.board, q) == At(tb.board, q)
    ensures r.0.pieces == Mov(tb.pieces, r.1.color, mov)
  {
    var piece := At(tb.board, mov.from).value;
    var b := Set(Set(tb.board, mov.from, None), mov.to, Some(piece));
    (Tracked(b, Mov(tb.pieces, piece.color, mov)), piece)
  }

  /**
   * `Board::_move_capture`: whatever stands on `to` is dropped from its
   * colour's list first, then the move is played as a non-capture. The
   * captured square's former contents come back with the mover.
   */
  function MoveCapture(tb: Tracked, mov: Move): (r: (Tracked, Piece, Square))
    requires OnBoard(mov.from) && OnBoard(mov.to) && At(tb.board, mov.from).Some?
    ensures r.2 == At(tb.board, mov.to) && r.1 == At(tb.board, mov.from).value
  {
    var capture := At(tb.board, mov.to);
    var pieces := if capture.Some? then Remove(tb.pieces, capture.value.color, mov.to) else tb.pieces;
    var (after, piece) := MoveNoncapture(Tracked(tb.board, pieces), mov);
    (after, piece, capture)
  }

  /**
   * A capture (or a plain move) between two different squares keeps the
   * tracker in step: the engine's test checks exactly this after every move.
   */
  lemma MoveCaptureInSync(tb: Tracked, mov: Move)
    requires InSync(tb)
    requires OnBoard(mov.from) && OnBoard(mov.to) && At(tb.board, mov.from).Some?
    requires mov.from != mov.to
    ensures InSync(MoveCapture(tb, mov).0)
  {
    var capture := At(tb.board, mov.to);
    var pieces := if capture.Some? then Remove(tb.pieces, capture.value.color, mov.to) else tb.pieces;
    var cleared := Tracked(tb.board, pieces);
    CaptureClears(tb, mov.to, Black);
    CaptureClears(tb, mov.to, White);
    assert MoveCapture(tb, mov).0 == MoveNoncapture(cleared, mov).0;
    NoncaptureSync(cleared, mov, Black);
    NoncaptureSync(cleared, mov, White);
  }

  /** Dropping the captured piece's entry leaves the lists in step everywhere but on `to`, which nobody holds. */
  lemma CaptureClears(tb: Tracked, to: Position, c: Color)
    requires InSync(tb) && OnBoard(to)
    ensures var capture := At(tb.board, to);
      var pieces := if capture.Some? then Remove(tb.pieces, capture.value.color, to) else tb.pieces;
      SyncExcept(Tracked(tb.board, pieces), c, Some(to))
  {
    assert SyncExcept(tb, c, None);
    var capture := At(tb.board, to);
    if capture.Some? && capture.value.color != c {
      assert c == Opposite(capture.value.color);
    }
  }

  /** Moving onto a square nobody holds, from an occupied one, brings the lists back in step. */
  lemma NoncaptureSync(tb: Tracked, mov: Move, c: Color)
    requires OnBoard(mov.from) && OnBoard(mov.to) && At(tb.board, mov.from).Some? && mov.from != mov.to
    requires SyncExcept(tb, Black, Some(mov.to)) && SyncExcept(tb, White, Some(mov.to))
    ensures SyncExcept(MoveNoncapture(tb, mov).0, c, None)
  {
    var piece := At(tb.board, mov.from).value;
    if c == piece.color {
      NoncaptureMoverCounts(tb, mov);
    } else {
      assert c == Opposite(piece.color);
      NoncaptureOtherCounts(tb, mov);
    }
    CountsSync(MoveNoncapture(tb, mov).0, c);
  }

  /** The mover's list loses `from` and gains `to`, just as its pieces do. */
  lemma NoncaptureMoverCounts(tb: Tracked, mov: Move)
    requires OnBoard(mov.from) && OnBoard(mov.to) && At(tb.board, mov.from).Some? && mov.from != mov.to
    requires SyncExcept(tb, At(tb.board, mov.from).value.color, Some(mov.to))
    ensures var c := At(tb.board, mov.from).value.color;
      var after := MoveNoncapture(tb, mov).0;
      forall p :: multiset(Pieces(after.pieces, c))[p] == if Has(after.board, p, c) then 1 else 0
  {
    var c := At(tb.board, mov.from).value.color;
    var after := MoveNoncapture(tb, mov).0;
    assert multiset(Pieces(tb.pieces, c))[mov.from] == 1;
    assert multiset(Pieces(after.pieces, c)) == multiset(Pieces(tb.pieces, c)) - multiset{mov.from} + multiset{mov.to};
    forall p: Position
      ensures multiset(Pieces(after.pieces, c))[p] == if Has(after.board, p, c) then 1 else 0
    {
      assert multiset(Pieces(tb.pieces, c))[p] == if Has(tb.board, p, c) && p != mov.to then 1 else 0;
    }
  }

  /** The other colour's list stays, and so do its pieces: the move neither starts nor lands on one. */
  lemma NoncaptureOtherCounts(tb: Tracked, mov: Move)
    requires OnBoard(mov.from) && OnBoard(mov.to) && At(tb.board, mov.from).Some? && mov.from != mov.to
    requires SyncExcept(tb, Opposite(At(tb.board, mov.from).value.color), Some(mov.to))
    ensures var c := Opposite(At(tb.board, mov.from).value.color);
      var after := MoveNoncapture(tb, mov).0;
      forall p :: multiset(Pieces(after.pieces, c))[p] == if Has(after.board, p, c) then 1 else 0
  {
    var c := Opposite(At(tb.board, mov.from).value.color);
    var after := MoveNoncapture(tb, mov).0;
    assert Pieces(after.pieces, c) == Pieces(tb.pieces, c);
    forall p: Position
      ensures multiset(Pieces(after.pieces, c))[p] == if Has(after.board, p, c) then 1 else 0
    {
      assert multiset(Pieces(tb.pieces, c))[p] == if Has(tb.board, p, c) && p != mov.to then 1 else 0;
    }
  }

  /**
   * `Board::remove_piece`: the piece's tracker entry goes but the piece stays
   * on the table, so a tracker that was in step no longer passes
   * `_check_pieces`. An empty square changes nothing.
   */
  function RemovePiece(tb: Tracked, pos: Position): (r: (Tracked, Option<Piece>))
    requires OnBoard(pos)
    ensures r.0.board == tb.board && r.1 == At(tb.board, pos)
    ensures r.1.None? ==> r.0 == tb
    ensures r.1.Some? ==> r.0.pieces == Remove(tb.pieces, r.1.value.color, pos)
  {
    match At(tb.board, pos)
    case None => (tb, None)
    case Some(piece) => (Tracked(tb.board, Remove(tb.pieces, piece.color, pos)), Some(piece))
  }

  lemma RemovePieceDesyncs(tb: Tracked, pos: Position)
    requires InSync(tb) && OnBoard(pos) && At(tb.board, pos).Some?
    ensures !Consistent(RemovePiece(tb, pos).0)
  {
    var c := At(tb.board, pos).value.color;
    assert SyncExcept(tb, c, None);
    assert multiset(Pieces(tb.pieces, c))[pos] == 1;
    assert multiset(Pieces(RemovePiece(tb, pos).0.pieces, c))[pos] == 0;
  }

  /**
   * `Board::colored_pieces` of the tracked board: each tracked square with
   * the piece on it, in tracker order. A tracked square off the board or
   * empty is the source's panic, excluded here.
   */
  function TrackedColoredPieces(tb: Tracked, c: Color): (r: seq<(Piece, Position)>)
    requires forall p :: p in Pieces(tb.pieces, c) ==> OnBoard(p) && At(tb.board, p).Some?
    ensures |r| == |Pieces(tb.pieces, c)|
    ensures forall k :: 0 <= k < |r| ==> r[k].1 == Pieces(tb.pieces, c)[k] && Some(r[k].0) == At(tb.board, r[k].1)
  {
    var ps := Pieces(tb.pieces, c);
    seq(|ps|, k requires 0 <= k < |ps| => (At(tb.board, ps[k]).value, ps[k]))
  }

  /** On a tracker in step, the tracked pieces of a colour are exactly the board's pieces of that colour. */
  lemma TrackedColoredPiecesExact(tb: Tracked, c: Color, p: Position)
    requires InSync(tb)
    ensures forall q :: q in Pieces(tb.pieces, c) ==> OnBoard(q) && At(tb.board, q).Some?
    ensures (exists k :: 0 <= k < |Pieces(tb.pieces, c)| && TrackedColoredPieces(tb, c)[k].1 == p) <==> Has(tb.board, p, c)
  {
    SyncConsistent(tb);
    assert SyncExcept(tb, c, None);
    var r := TrackedColoredPieces(tb, c);
    if Has(tb.board, p, c) {
      assert multiset(Pieces(tb.pieces, c))[p] == 1;
      var k :| 0 <= k < |Pieces(tb.pieces, c)| && Pieces(tb.pieces, c)[k] == p;
      assert r[k].1 == p;
    } else {
      assert multiset(Pieces(tb.pieces, c))[p] == 0;
    }
  }
}
