/**
 * The engine's integer material evaluation (engine/src/heuristic.rs).
 *
 * `material` is White's `player_material` minus Black's. A player scores 9000
 * for a live king, 900 for a live queen, 5 per live rook whatever its square,
 * `sum * 35 / 10` for the bishops and `sum * 3` for the knights, where `sum`
 * adds the centre scores of the live pieces, and for each pawn 9000 when it is
 * a promoted queen and its centre score otherwise. Every sum is far inside the
 * `i32` range, so the model computes on unbounded integers.
 */
module Heuristic {
  import opened Wrappers
  import opened EngineLocation
  import opened EnginePlayer

  /** `is_alive`: 1 for an occupied slot, 0 for an empty one. */
  function IsAlive(p: Option<Location>): int {
    if p.Some? then 1 else 0
  }

  /** `center_seeking`: 100 minus the squared distance from the square (4, 4). */
  function CenterSeeking(p: Location): (r: int)
    ensures 68 <= r <= 100
    ensures r == 100 <==> Rank(p) == 4 && File(p) == 4
  {
    var dr := Rank(p) as int - 4;
    var df := File(p) as int - 4;
    100 - (dr * dr + df * df)
  }

  /** `sum_value`: the centre scores of the live pieces of a pair of slots. */
  function SumValue(pieces: Slots2): (r: int)
    ensures 0 <= r <= 200
    ensures r == 0 <==> pieces[0].None? && pieces[1].None?
  {
    Value(pieces[0]) + Value(pieces[1])
  }

  /** The centre score of an occupied slot, 0 for an empty one (the `filter_map`). */
  function Value(p: Option<Location>): (r: int)
    ensures p.None? ==> r == 0
    ensures p.Some? ==> 68 <= r <= 100
  {
    match p
    case None => 0
    case Some(l) => CenterSeeking(l)
  }

  /** `count`: the number of occupied slots of a pair. */
  function Count(pieces: Slots2): (r: int)
    ensures 0 <= r <= 2
    ensures r == 0 <==> pieces[0].None? && pieces[1].None?
    ensures r == 2 <==> pieces[0].Some? && pieces[1].Some?
  {
    IsAlive(pieces[0]) + IsAlive(pieces[1])
  }

  /** The score of one pawn slot: 9000 for a promoted queen, the centre score otherwise. */
  function PawnValue(p: Option<Location>): (r: int)
    ensures p.None? ==> r == 0
    ensures p.Some? && IsQueen(p.value) ==> r == 9000
    ensures p.Some? && !IsQueen(p.value) ==> 68 <= r <= 100
  {
    match p
    case None => 0
    case Some(l) => if IsQueen(l) then 9000 else CenterSeeking(l)
  }

  /** The pawn sum, slot by slot. */
  function PawnsValue(pawns: seq<Option<Location>>): (r: int)
    ensures 0 <= r <= 9000 * |pawns|
  {
    if |pawns| == 0 then 0 else PawnsValue(pawns[..|pawns| - 1]) + PawnValue(pawns[|pawns| - 1])
  }

  /** `player_material`. */
  function PlayerMaterial(p: Player): (r: int)
    ensures 0 <= r
  {
    IsAlive(p.king) * 9000
      + IsAlive(p.queen) * 900
      + Count(p.rook) * 5
      + SumValue(p.bishop) * 35 / 10
      + SumValue(p.knight) * 3
      + PawnsValue(p.pawn)
  }

  /** `material`: White's score minus Black's; equal sides score 0. */
  function Material(white: Player, black: Player): (r: int)
    ensures white == black ==> r == 0
  {
    PlayerMaterial(white) - PlayerMaterial(black)
  }

  /** Swapping the two players negates the evaluation. */
  lemma MaterialAntisymmetric(white: Player, black: Player)
    ensures Material(black, white) == -Material(white, black)
    ensures Material(white, white) == 0
  {
  }

  /** A live king adds exactly 9000 and a live queen exactly 900, wherever they stand. */
  lemma RoyaltyWeights(p: Player, l: Location)
    ensures PlayerMaterial(p.(king := Some(l))) == PlayerMaterial(p.(king := None)) + 9000
    ensures PlayerMaterial(p.(queen := Some(l))) == PlayerMaterial(p.(queen := None)) + 900
  {
  }

  /** A rook's square does not matter: each live rook adds 5. */
  lemma RookWeight(p: Player, i: nat, l: Location)
    requires i < 2
    ensures PlayerMaterial(p.(rook := p.rook[i := Some(l)])) == PlayerMaterial(p.(rook := p.rook[i := None])) + 5
  {
  }

  /** The pawn sum of a run with one slot replaced changes by the difference of that slot's scores. */
  lemma {:induction false} PawnsUpdate(pawns: seq<Option<Location>>, i: nat, q: Option<Location>)
    requires i < |pawns|
    ensures PawnsValue(pawns[i := q]) == PawnsValue(pawns) - PawnValue(pawns[i]) + PawnValue(q)
  {
    var n := |pawns| - 1;
    if i < n {
      assert pawns[i := q][..n] == pawns[..n][i := q];
      PawnsUpdate(pawns[..n], i, q);
    } else {
      assert pawns[i := q][..n] == pawns[..n];
    }
  }

  /** A promoted pawn adds 9000 over an empty slot; an unpromoted one its centre score. */
  lemma PawnWeight(p: Player, i: nat, l: Location)
    requires i < 8
    ensures IsQueen(l) ==>
      PlayerMaterial(p.(pawn := p.pawn[i := Some(l)])) == PlayerMaterial(p.(pawn := p.pawn[i := None])) + 9000
    ensures !IsQueen(l) ==>
      PlayerMaterial(p.(pawn := p.pawn[i := Some(l)])) == PlayerMaterial(p.(pawn := p.pawn[i := None])) + CenterSeeking(l)
  {
    PawnsUpdate(p.pawn, i, Some(l));
    PawnsUpdate(p.pawn, i, None);
  }

  /** The bishop term is rounded down after scaling: two centre bishops give 700, one corner bishop 238. */
  lemma BishopScaling(a: Location, b: Location)
    requires Rank(a) == 4 && File(a) == 4 && Rank(b) == 0 && File(b) == 0
    ensures SumValue([Some(a), Some(a)]) * 35 / 10 == 700
    ensures SumValue([Some(b), None]) * 35 / 10 == 238
  {
  }
}
