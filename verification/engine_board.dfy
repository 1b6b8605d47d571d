/**
 * The engine's board record and its starting position (engine/src/board.rs).
 *
 * The board is 32 optional pieces, each a colour, a kind and a location, and
 * the metadata byte. The source builds each entry with `Color | Kind | (rank,
 * file)`; here an entry is the triple itself.
 */
module EngineBoard {
  import opened Wrappers
  import opened BitUtils
  import opened EnginePiece
  import opened EngineLocation
  import Metadata

  datatype Placed = Placed(color: Color, kind: Kind, loc: Location)

  type Pieces = s: seq<Option<Placed>> | |s| == 32
    witness seq(32, _ => None)

  datatype Board = Board(pieces: Pieces, meta: Metadata.Metadata)

  function P(color: Color, kind: Kind, rank: U8, file: U8): Option<Placed> {
    Some(Placed(color, kind, FromPair(rank, file)))
  }

  /**
   * `Board::default`: the 32 entries in the source's order, then the default
   * metadata. Every entry holds a piece, and the last sixteen are the pawns.
   */
  function Default(): (r: Board)
    ensures forall j :: 0 <= j < 32 ==> r.pieces[j].Some?
    ensures forall j :: 0 <= j < 32 ==> (r.pieces[j].value.kind == Pawn <==> 16 <= j)
  {
    Board(BlackBack() + WhiteBack() + BlackPawns() + WhitePawns(), Metadata.Default())
  }

  function BlackBack(): seq<Option<Placed>> {
    [P(Black, Rook, 0, 0), P(Black, Knight, 0, 1), P(Black, Bishop, 0, 2), P(Black, Queen, 0, 3),
     P(Black, King, 0, 4), P(Black, Bishop, 0, 5), P(Black, Knight, 0, 6), P(Black, Rook, 0, 7)]
  }

  function WhiteBack(): seq<Option<Placed>> {
    [P(White, Rook, 7, 0), P(White, Knight, 7, 1), P(White, Bishop, 7, 2), P(White, Queen, 7, 3),
     P(White, King, 7, 4), P(White, Bishop, 7, 5), P(White, Knight, 7, 6), P(White, Rook, 7, 7)]
  }

  function BlackPawns(): seq<Option<Placed>> {
    [P(Black, Pawn, 1, 0), P(Black, Pawn, 1, 1), P(Black, Pawn, 1, 2), P(Black, Pawn, 1, 3),
     P(Black, Pawn, 1, 4), P(Black, Pawn, 1, 5), P(Black, Pawn, 1, 6), P(Black, Pawn, 1, 7)]
  }

  function WhitePawns(): seq<Option<Placed>> {
    [P(White, Pawn, 6, 0), P(White, Pawn, 6, 1), P(White, Pawn, 6, 2), P(White, Pawn, 6, 3),
     P(White, Pawn, 6, 4), P(White, Pawn, 6, 5), P(White, Pawn, 6, 6), P(White, Pawn, 6, 7)]
  }

  /** The order of the back rank, file by file. */
  const BackRank: seq<Kind> := [Rook, Knight, Bishop, Queen, King, Bishop, Knight, Rook]
  const Files: seq<U8> := [0, 1, 2, 3, 4, 5, 6, 7]
  /** The rank of each block of eight entries. */
  const BlockRank: seq<U8> := [0, 7, 1, 6]

  /**
   * The layout by rule: block `j / 8` is Black's back rank, White's back rank,
   * Black's pawns, White's pawns, and the file is `j % 8`.
   */
  function Expected(j: nat): Placed
    requires j < 32
  {
    var block := j / 8;
    Placed(
      if block % 2 == 0 then Black else White,
      if block < 2 then BackRank[j % 8] else Pawn,
      FromPair(BlockRank[block], Files[j % 8]))
  }

  lemma BlackBackLayout(k: nat)
    requires k < 8
    ensures |BlackBack()| == 8 && BlackBack()[k] == Some(Expected(k))
  {
  }

  lemma WhiteBackLayout(k: nat)
    requires k < 8
    ensures |WhiteBack()| == 8 && WhiteBack()[k] == Some(Expected(k + 8))
  {
  }

  lemma BlackPawnsLayout(k: nat)
    requires k < 8
    ensures |BlackPawns()| == 8 && BlackPawns()[k] == Some(Expected(k + 16))
  {
  }

  lemma WhitePawnsLayout(k: nat)
    requires k < 8
    ensures |WhitePawns()| == 8 && WhitePawns()[k] == Some(Expected(k + 24))
  {
  }

  /** Every entry of the starting board is present and follows the rule. */
  lemma DefaultLayout(j: nat)
    requires j < 32
    ensures Default().pieces[j] == Some(Expected(j))
  {
    var s := Default().pieces;
    if j < 8 {
      BlackBackLayout(j);
      assert s[j] == BlackBack()[j];
    } else if j < 16 {
      WhiteBackLayout(j - 8);
      assert s[j] == WhiteBack()[j - 8];
    } else if j < 24 {
      BlackPawnsLayout(j - 16);
      assert s[j] == BlackPawns()[j - 16];
    } else {
      WhitePawnsLayout(j - 24);
      assert s[j] == WhitePawns()[j - 24];
    }
  }

  /** The eight ranks of the four blocks' ranks are distinct, and so are the files. */
  lemma ExpectedDistinct(i: nat, j: nat)
    requires i < 32 && j < 32 && i != j
    ensures Expected(i).loc != Expected(j).loc
  {
    var bi, fi, bj, fj := i / 8, i % 8, j / 8, j % 8;
    assert i == 8 * bi + fi && j == 8 * bj + fj;
    assert bi != bj || fi != fj;
    assert BlockRank[bi] != BlockRank[bj] || Files[fi] != Files[fj];
    FromPairInjective(BlockRank[bi], Files[fi], BlockRank[bj], Files[fj]);
  }

  /** No two entries of the starting board share a square. */
  lemma DefaultDistinct(i: nat, j: nat)
    requires i < 32 && j < 32 && i != j
    ensures Default().pieces[i].Some? && Default().pieces[j].Some?
      && Default().pieces[i].value.loc != Default().pieces[j].value.loc
  {
    DefaultLayout(i);
    DefaultLayout(j);
    ExpectedDistinct(i, j);
  }

  /** The number of entries of a colour. */
  function CountColor(s: seq<Option<Placed>>, c: Color): (n: nat)
    ensures n <= |s|
  {
    if |s| == 0 then 0
    else CountColor(s[..|s| - 1], c) + (if s[|s| - 1].Some? && s[|s| - 1].value.color == c then 1 else 0)
  }

  lemma {:induction false} CountAppend(a: seq<Option<Placed>>, b: seq<Option<Placed>>, c: Color)
    ensures CountColor(a + b, c) == CountColor(a, c) + CountColor(b, c)
    decreases |b|
  {
    if |b| > 0 {
      assert (a + b)[..|a + b| - 1] == a + b[..|b| - 1];
      CountAppend(a, b[..|b| - 1], c);
    } else {
      assert a + b == a;
    }
  }

  /** A run of entries all of one colour counts fully for that colour and not at all for the other. */
  lemma {:induction false} OneColorCount(s: seq<Option<Placed>>, c: Color, d: Color)
    requires forall k :: 0 <= k < |s| ==> s[k].Some? && s[k].value.color == c
    ensures CountColor(s, d) == if d == c then |s| else 0
  {
    if |s| > 0 {
      OneColorCount(s[..|s| - 1], c, d);
    }
  }

  /** Each block of eight is one colour. */
  lemma RowCounts(d: Color)
    ensures CountColor(BlackBack(), d) == if d == Black then 8 else 0
    ensures CountColor(WhiteBack(), d) == if d == White then 8 else 0
    ensures CountColor(BlackPawns(), d) == if d == Black then 8 else 0
    ensures CountColor(WhitePawns(), d) == if d == White then 8 else 0
  {
    forall k | 0 <= k < 8
      ensures BlackBack()[k].Some? && BlackBack()[k].value.color == Black
      ensures WhiteBack()[k].Some? && WhiteBack()[k].value.color == White
      ensures BlackPawns()[k].Some? && BlackPawns()[k].value.color == Black
      ensures WhitePawns()[k].Some? && WhitePawns()[k].value.color == White
    {
      BlackBackLayout(k);
      WhiteBackLayout(k);
      BlackPawnsLayout(k);
      WhitePawnsLayout(k);
    }
    OneColorCount(BlackBack(), Black, d);
    OneColorCount(WhiteBack(), White, d);
    OneColorCount(BlackPawns(), Black, d);
    OneColorCount(WhitePawns(), White, d);
  }

  /** Sixteen pieces a side, and the default metadata. */
  lemma DefaultCounts()
    ensures CountColor(Default().pieces, White) == 16
    ensures CountColor(Default().pieces, Black) == 16
    ensures Default().meta == Metadata.Default()
  {
    RowCounts(White);
    RowCounts(Black);
    var ab := BlackBack() + WhiteBack();
    var abc := ab + BlackPawns();
    CountAppend(BlackBack(), WhiteBack(), White);
    CountAppend(BlackBack(), WhiteBack(), Black);
    CountAppend(ab, BlackPawns(), White);
    CountAppend(ab, BlackPawns(), Black);
    CountAppend(abc, WhitePawns(), White);
    CountAppend(abc, WhitePawns(), Black);
  }
}
