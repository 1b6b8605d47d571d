/**
 * Bitboard helpers of the engine (engine/src/moves/utils.rs).
 *
 * A bitboard is a 64-bit word whose bit `rank * 8 + file` stands for one square.
 * Square indices, ranks and files are all kept as `bv64` (the engine's `u8`
 * values are the `bv64` values below 256), so that every fact below is a pure
 * 64-bit statement.
 */
module BitUtils {

  type Bitboard = bv64

  /** A Rust `u8`, held in a 64-bit word. */
  type U8 = x: bv64 | x < 256

  /**
   * Rust's `u8::saturating_sub` on byte values: the difference, or 0 where
   * it would go below zero.
   */
  function SaturatingSub(a: bv64, b: bv64): (r: bv64)
    ensures a >= b ==> r == a - b
    ensures a < b ==> r == 0
  {
    if a >= b then a - b else 0
  }

  /** Bit `i` of `x` is set. */
  predicate Bit(x: bv64, i: bv64)
    requires i < 64
  {
    (x >> i) & 1 == 1
  }

  /** Bit `i` of the byte `x` is set. */
  predicate Bit8(x: bv8, i: bv8)
    requires i < 8
  {
    (x >> i) & 1 == 1
  }

  /** The one-square bitboard of square index `i`. */
  function Square(i: bv64): bv64
    requires i < 64
  {
    1 << i
  }

  lemma SquareBit(i: bv64, j: bv64)
    requires i < 64 && j < 64
    ensures Bit(Square(i), j) <==> j == i
  {
  }

  /** Bit `k` of `a & b` is set exactly when it is set in both. */
  lemma BitAnd(a: bv64, b: bv64, k: bv64)
    requires k < 64
    ensures Bit(a & b, k) <==> Bit(a, k) && Bit(b, k)
  {
  }

  /** Bit `k` of `a | b` is set exactly when it is set in either. */
  lemma BitOr(a: bv64, b: bv64, k: bv64)
    requires k < 64
    ensures Bit(a | b, k) <==> Bit(a, k) || Bit(b, k)
  {
  }

  /** Bit `k` of `a & !b` is set exactly when it is set in `a` and not in `b`. */
  lemma BitAndNot(a: bv64, b: bv64, k: bv64)
    requires k < 64
    ensures Bit(a & !b, k) <==> Bit(a, k) && !Bit(b, k)
  {
  }

  /** Bit `k` of `(a | b) & !c`. */
  lemma BitOrAndNot(a: bv64, b: bv64, c: bv64, k: bv64)
    requires k < 64
    ensures Bit((a | b) & !c, k) <==> (Bit(a, k) || Bit(b, k)) && !Bit(c, k)
  {
    BitAndNot(a | b, c, k);
    BitOr(a, b, k);
  }

  /** The squares from `lo` upwards. */
  function Above(lo: bv64): bv64
    requires lo < 64
  {
    0xffff_ffff_ffff_ffff << lo
  }

  /** The squares up to and including `hi`. */
  function Below(hi: bv64): bv64
    requires hi < 64
  {
    0xffff_ffff_ffff_ffff >> (63 - hi)
  }

  /** The squares `lo..hi`, both included. */
  function Span(lo: bv64, hi: bv64): bv64
    requires lo <= hi < 64
  {
    Above(lo) & Below(hi)
  }

  lemma AboveBit(lo: bv64, k: bv64)
    requires lo < 64 && k < 64
    ensures Bit(Above(lo), k) <==> lo <= k
  {
  }

  lemma BelowBit(hi: bv64, k: bv64)
    requires hi < 64 && k < 64
    ensures Bit(Below(hi), k) <==> k <= hi
  {
  }

  /** At most one square is set. */
  predicate AtMostOneBit(x: bv64) {
    x & (x - 1) == 0
  }

  /**
   * `file(n)`: the column mask `0x0101010101010101 << n`; the shift panics
   * for n >= 64. For a file n, the mask is square n of the first rank
   * repeated up every rank: moving it up a rank and adding square n gives
   * it back.
   */
  function FileMask(n: bv64): (r: bv64)
    requires n < 64
    ensures n < 8 ==> (r << 8) | (1 << n) == r
  {
    0x0101010101010101 << n
  }

  /** The file mask holds exactly the squares whose file (low three bits) is `n`. */
  lemma FileMaskBit(n: bv64, i: bv64)
    requires n < 8 && i < 64
    ensures Bit(FileMask(n), i) <==> i & 7 == n
  {
  }

  /**
   * `rank(n)`: the row mask `0xff << 8n`; the shift panics for n >= 8. The
   * mask is full on rank n and empty below and above it.
   */
  function RankMask(n: bv64): (r: bv64)
    requires n < 8
    ensures r >> (8 * n) == 0xff
    ensures r & ((1 << (8 * n)) - 1) == 0
  {
    0xff << (8 * n)
  }

  /** The rank mask holds exactly the squares whose rank (high three bits) is `n`. */
  lemma RankMaskBit(n: bv64, i: bv64)
    requires n < 8 && i < 64
    ensures Bit(RankMask(n), i) <==> i >> 3 == n
  {
  }

  /** The edge files `file(7)` and `file(0)`, as constants. */
  const LastFile: bv64 := 0x8080_8080_8080_8080
  const FirstFile: bv64 := 0x0101_0101_0101_0101

  lemma FileConstants()
    ensures LastFile == FileMask(7) && FirstFile == FileMask(0)
  {
  }

  /**
   * `invert`: reverses the 64 bits with five swap-and-mask rounds. The two
   * corner squares trade places, and only the empty board maps to the empty
   * board.
   */
  function Invert(x0: bv64): (r: bv64)
    ensures r & 1 == x0 >> 63 && r >> 63 == x0 & 1
    ensures r == 0 <==> x0 == 0
  {
    var x := (x0 >> 32) | (x0 << 32);
    var x := ((x >> 16) & 0x0000ffff0000ffff) | ((x & 0x0000ffff0000ffff) << 16);
    var x := ((x >> 8) & 0x00ff00ff00ff00ff) | ((x & 0x00ff00ff00ff00ff) << 8);
    var x := ((x >> 4) & 0x0f0f0f0f0f0f0f0f) | ((x & 0x0f0f0f0f0f0f0f0f) << 4);
    var x := ((x >> 2) & 0x3333333333333333) | ((x & 0x3333333333333333) << 2);
    ((x >> 1) & 0x5555555555555555) | ((x & 0x5555555555555555) << 1)
  }

  /**
   * `invert_u8`: reverses the 8 bits of a byte with three rounds. The end
   * bits trade places, and only zero maps to zero.
   */
  function InvertU8(x0: bv8): (r: bv8)
    ensures r & 1 == x0 >> 7 && r >> 7 == x0 & 1
    ensures r == 0 <==> x0 == 0
  {
    var x := (x0 >> 4) | (x0 << 4);
    var x := ((x >> 2) & 0x33) | ((x & 0x33) << 2);
    ((x >> 1) & 0x55) | ((x & 0x55) << 1)
  }

  /**
   * OR of a sequence of bitboards (the `or` helper the engine imports from this
   * file; its definition is not shown, so this is the plain fold). It is
   * empty exactly when every bitboard of the sequence is.
   */
  function OrAll(s: seq<bv64>): (r: bv64)
    ensures r == 0 <==> forall k :: 0 <= k < |s| ==> s[k] == 0
  {
    if |s| == 0 then 0 else OrAll(s[..|s| - 1]) | s[|s| - 1]
  }

  lemma {:induction false} OrAllAppend(a: seq<bv64>, b: seq<bv64>)
    ensures OrAll(a + b) == OrAll(a) | OrAll(b)
    decreases |b|
  {
    if |b| > 0 {
      assert (a + b)[..|a + b| - 1] == a + b[..|b| - 1];
      OrAllAppend(a, b[..|b| - 1]);
    } else {
      assert a + b == a;
    }
  }

  /** A square is in the OR exactly when one of the bitboards has it. */
  lemma {:induction false} OrAllBit(s: seq<bv64>, i: bv64)
    requires i < 64
    ensures Bit(OrAll(s), i) <==> exists j :: 0 <= j < |s| && Bit(s[j], i)
  {
    if |s| > 0 {
      OrAllBit(s[..|s| - 1], i);
      assert forall j :: 0 <= j < |s| - 1 ==> s[..|s| - 1][j] == s[j];
    }
  }

  lemma FileRankMeet(n: bv64, m: bv64)
    requires n < 8 && m < 8
    ensures FileMask(n) & RankMask(m) == Square(m * 8 + n)
  {
  }

  /** `invert` moves square `63 - i` to square `i`. */
  lemma InvertBit(x: bv64, i: bv64)
    requires i < 64
    ensures Bit(Invert(x), i) <==> Bit(x, 63 - i)
  {
  }

  /** `invert_u8` moves bit `7 - i` to bit `i`. */
  lemma InvertU8Bit(x: bv8, i: bv8)
    requires i < 8
    ensures Bit8(InvertU8(x), i) <==> Bit8(x, 7 - i)
  {
  }

  lemma InvertInvolution(x: bv64)
    ensures Invert(Invert(x)) == x
  {
  }

  lemma InvertSquare(i: bv64)
    requires i < 64
    ensures Invert(Square(i)) == Square(63 - i)
  {
  }

  lemma InvertRank(n: bv64)
    requires n < 8
    ensures Invert(RankMask(n)) == RankMask(7 - n)
  {
  }

  lemma InvertFile(n: bv64)
    requires n < 8
    ensures Invert(FileMask(n)) == FileMask(7 - n)
  {
  }

  /** A bitboard apart from the mirror of `p` mirrors to one apart from `p`. */
  lemma InvertApart(u: bv64, p: bv64)
    requires u & Invert(p) == 0
    ensures Invert(u) & p == 0
  {
  }

  lemma InvertU8Involution(x: bv8)
    ensures InvertU8(InvertU8(x)) == x
  {
  }

  /** Bit 0 of `x`, as a count. */
  function Low(x: bv64): nat {
    if x & 1 == 1 then 1 else 0
  }

  /** The number of set bits among the low `n` bits of `x`. */
  function Pop(x: bv64, n: nat): nat
    decreases n
  {
    if n == 0 then 0 else Low(x) + Pop(x >> 1, n - 1)
  }

  /** The number of squares set in `x`. */
  function PopCount(x: bv64): nat {
    Pop(x, 64)
  }

  /** `x` shifted right by one, `n` times. */
  function ShrBy(x: bv64, n: nat): bv64
    decreases n
  {
    if n == 0 then x else ShrBy(x >> 1, n - 1)
  }

  lemma {:induction false} ShrByAdd(x: bv64, a: nat, b: nat)
    ensures ShrBy(x, a + b) == ShrBy(ShrBy(x, a), b)
    decreases a
  {
    if a > 0 {
      ShrByAdd(x >> 1, a - 1, b);
    }
  }

  lemma ShrByDouble(x: bv64, a: nat)
    ensures ShrBy(x, a + a) == ShrBy(ShrBy(x, a), a)
  {
    ShrByAdd(x, a, a);
  }

  lemma ShrBy1(x: bv64)
    ensures ShrBy(x, 1) == x >> 1
  {
  }

  lemma ShrBy2(x: bv64)
    ensures ShrBy(x, 2) == x >> 2
  {
    ShrByDouble(x, 1);
    ShrBy1(x);
    ShrBy1(x >> 1);
  }

  lemma ShrBy4(x: bv64)
    ensures ShrBy(x, 4) == x >> 4
  {
    ShrByDouble(x, 2);
    ShrBy2(x);
    ShrBy2(x >> 2);
  }

  lemma ShrBy8(x: bv64)
    ensures ShrBy(x, 8) == x >> 8
  {
    ShrByDouble(x, 4);
    ShrBy4(x);
    ShrBy4(x >> 4);
  }

  lemma ShrBy16(x: bv64)
    ensures ShrBy(x, 16) == x >> 16
  {
    ShrByDouble(x, 8);
    ShrBy8(x);
    ShrBy8(x >> 8);
  }

  lemma ShrBy32(x: bv64)
    ensures ShrBy(x, 32) == x >> 32
  {
    ShrByDouble(x, 16);
    ShrBy16(x);
    ShrBy16(x >> 16);
  }

  /** Sixty-four single shifts clear every word. */
  lemma ShrByAll(x: bv64)
    ensures ShrBy(x, 64) == 0
  {
    ShrByDouble(x, 32);
    ShrBy32(x);
    ShrBy32(x >> 32);
  }

  /** A right shift by one loses at most the low bit, when nothing lies past the counted bits. */
  lemma ShrPop(x: bv64, n: nat)
    requires ShrBy(x, n + 1) == 0
    ensures Pop(x >> 1, n + 1) <= Pop(x, n + 1)
  {
    PopLast(x >> 1, n);
  }

  /** Counting one bit further adds bit `n`. */
  lemma {:induction false} PopLast(y: bv64, n: nat)
    ensures Pop(y, n + 1) == Pop(y, n) + Low(ShrBy(y, n))
    decreases n
  {
    if n > 0 {
      PopLast(y >> 1, n - 1);
    }
  }

  lemma AndShift(x: bv64, m: bv64)
    ensures (x & m) >> 1 == (x >> 1) & (m >> 1)
    ensures Low(x & m) <= Low(x)
  {
  }

  lemma {:induction false} AndPop(x: bv64, m: bv64, n: nat)
    ensures Pop(x & m, n) <= Pop(x, n)
    decreases n
  {
    if n > 0 {
      AndShift(x, m);
      AndPop(x >> 1, m >> 1, n - 1);
    }
  }

  /** Clearing squares never adds to the count. */
  lemma AndCount(x: bv64, m: bv64)
    ensures PopCount(x & m) <= PopCount(x)
  {
    AndPop(x, m, 64);
  }

  lemma ShrOne(x: bv64)
    ensures PopCount(x >> 1) <= PopCount(x)
  {
    ShrByAll(x);
    ShrPop(x, 63);
  }

  lemma ShlShr(x: bv64)
    ensures (x << 1) >> 1 == x & 0x7fff_ffff_ffff_ffff
    ensures Low(x << 1) == 0
  {
  }

  /** A left shift by one drops the top bit and adds none. */
  lemma ShlPop(x: bv64, n: nat)
    ensures Pop(x << 1, n + 1) <= Pop(x, n + 1)
  {
    ShlShr(x);
    AndPop(x, 0x7fff_ffff_ffff_ffff, n);
    PopLast(x, n);
  }

  lemma ShlOne(x: bv64)
    ensures PopCount(x << 1) <= PopCount(x)
  {
    ShlPop(x, 63);
  }
  // The capture shifts of the engine (by 7 and by 9) never add squares.

  /** The shift amounts of the engine, each reached from smaller ones. */
  lemma ShrJoins(x: bv64)
    ensures (x >> 1) >> 1 == x >> 2 && (x >> 2) >> 2 == x >> 4 && (x >> 4) >> 2 == x >> 6
    ensures (x >> 6) >> 1 == x >> 7 && (x >> 4) >> 4 == x >> 8 && (x >> 8) >> 1 == x >> 9
  {
  }

  lemma Shr2Count(x: bv64)
    ensures PopCount(x >> 2) <= PopCount(x)
  {
    ShrOne(x);
    ShrOne(x >> 1);
    ShrJoins(x);
  }

  lemma Shr4Count(x: bv64)
    ensures PopCount(x >> 4) <= PopCount(x)
  {
    Shr2Count(x);
    Shr2Count(x >> 2);
    ShrJoins(x);
  }

  lemma Shr6Count(x: bv64)
    ensures PopCount(x >> 6) <= PopCount(x)
  {
    Shr4Count(x);
    Shr2Count(x >> 4);
    ShrJoins(x);
  }

  lemma Shr7Count(x: bv64)
    ensures PopCount(x >> 7) <= PopCount(x)
  {
    Shr6Count(x);
    ShrOne(x >> 6);
    ShrJoins(x);
  }

  lemma Shr8Count(x: bv64)
    ensures PopCount(x >> 8) <= PopCount(x)
  {
    Shr4Count(x);
    Shr4Count(x >> 4);
    ShrJoins(x);
  }

  lemma Shr9Count(x: bv64)
    ensures PopCount(x >> 9) <= PopCount(x)
  {
    Shr8Count(x);
    ShrOne(x >> 8);
    ShrJoins(x);
  }

  /** The shift amounts of the engine, each reached from smaller ones. */
  lemma ShlJoins(x: bv64)
    ensures (x << 1) << 1 == x << 2 && (x << 2) << 2 == x << 4 && (x << 4) << 2 == x << 6
    ensures (x << 6) << 1 == x << 7 && (x << 4) << 4 == x << 8 && (x << 8) << 1 == x << 9
  {
  }

  lemma Shl2Count(x: bv64)
    ensures PopCount(x << 2) <= PopCount(x)
  {
    ShlOne(x);
    ShlOne(x << 1);
    ShlJoins(x);
  }

  lemma Shl4Count(x: bv64)
    ensures PopCount(x << 4) <= PopCount(x)
  {
    Shl2Count(x);
    Shl2Count(x << 2);
    ShlJoins(x);
  }

  lemma Shl6Count(x: bv64)
    ensures PopCount(x << 6) <= PopCount(x)
  {
    Shl4Count(x);
    Shl2Count(x << 4);
    ShlJoins(x);
  }

  lemma Shl7Count(x: bv64)
    ensures PopCount(x << 7) <= PopCount(x)
  {
    Shl6Count(x);
    ShlOne(x << 6);
    ShlJoins(x);
  }

  lemma Shl8Count(x: bv64)
    ensures PopCount(x << 8) <= PopCount(x)
  {
    Shl4Count(x);
    Shl4Count(x << 4);
    ShlJoins(x);
  }

  lemma Shl9Count(x: bv64)
    ensures PopCount(x << 9) <= PopCount(x)
  {
    Shl8Count(x);
    ShlOne(x << 8);
    ShlJoins(x);
  }
}
