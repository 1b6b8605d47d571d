/**
 * Integer alpha-beta search of the engine (engine/src/search.rs).
 *
 * The board is abstract: a `Game` supplies its children, the side to move and
 * the `material` evaluation (`Board::children` is not shown, and the side to
 * move, which the source reads with `Metadata::turn`, is taken as given).
 * `sort_by_cached_key` computes each child's key once and sorts the
 * (key, index) pairs, which orders by key and keeps equal keys in their
 * original order; it is modelled as a stable insertion sort of the indices.
 */
module Search {
  import opened EnginePiece

  type I32 = x: int | -0x8000_0000 <= x < 0x8000_0000

  const MIN: I32 := -0x8000_0000
  const MAX: I32 := 0x7fff_ffff

  datatype Game<!B> = Game(children: B -> seq<B>, turn: B -> Color, material: B -> I32, sortDepth: I32)

  function Max(a: I32, b: I32): I32 { if a >= b then a else b }
  function Min(a: I32, b: I32): I32 { if a <= b then a else b }

  // ---------------------------------------------------------------------------
  // sort_by_cached_key

  /** `x` comes no later than `y`: a smaller key, or an equal key and a smaller index. */
  predicate Before(keys: seq<int>, x: nat, y: nat)
    requires x < |keys| && y < |keys|
  {
    keys[x] < keys[y] || (keys[x] == keys[y] && x <= y)
  }

  predicate Indices(keys: seq<int>, s: seq<nat>) {
    forall k :: 0 <= k < |s| ==> s[k] < |keys|
  }

  /** The indices are in (key, index) order. */
  predicate SortedBy(keys: seq<int>, s: seq<nat>)
    requires Indices(keys, s)
  {
    forall a, b :: 0 <= a < b < |s| ==> Before(keys, s[a], s[b])
  }

  /** Place index `i` after every index that comes before it. */
  function Insert(keys: seq<int>, i: nat, s: seq<nat>): (r: seq<nat>)
    requires i < |keys| && Indices(keys, s)
    ensures Indices(keys, r)
    ensures multiset(r) == multiset(s) + multiset{i}
  {
    if |s| == 0 then [i]
    else if keys[i] < keys[s[0]] then [i] + s
    else assert s == [s[0]] + s[1..]; [s[0]] + Insert(keys, i, s[1..])
  }

  /** The indices `0..n` in order. */
  function Range(n: nat): (r: seq<nat>)
    ensures |r| == n
    ensures forall k :: 0 <= k < n ==> r[k] == k
  {
    if n == 0 then [] else Range(n - 1) + [n - 1]
  }

  /** Insertion sort of the first `n` indices. */
  function SortIndices(keys: seq<int>, n: nat): (r: seq<nat>)
    requires n <= |keys|
    ensures Indices(keys, r)
    ensures multiset(r) == multiset(Range(n))
  {
    if n == 0 then [] else Insert(keys, n - 1, SortIndices(keys, n - 1))
  }

  predicate AllBelow(s: seq<nat>, n: nat) {
    forall k :: 0 <= k < |s| ==> s[k] < n
  }

  /** Inserting an index larger than every index present keeps the (key, index) order. */
  lemma {:induction false} InsertSorted(keys: seq<int>, i: nat, s: seq<nat>)
    requires i < |keys| && Indices(keys, s) && SortedBy(keys, s)
    requires AllBelow(s, i)
    ensures SortedBy(keys, Insert(keys, i, s))
  {
    if |s| > 0 && keys[i] >= keys[s[0]] {
      var t := s[1..];
      InsertSorted(keys, i, t);
      var r := Insert(keys, i, t);
      forall b | 0 <= b < |r|
        ensures Before(keys, s[0], r[b])
      {
        assert r[b] in multiset(r);
        assert r[b] in multiset(t) || r[b] == i;
        if r[b] != i {
          var k :| 0 <= k < |t| && t[k] == r[b];
          assert s[k + 1] == r[b];
        }
      }
    }
  }

  /** The indices of the first `n` are below `n`. */
  lemma SortIndicesBelow(keys: seq<int>, n: nat)
    requires n <= |keys|
    ensures AllBelow(SortIndices(keys, n), n)
  {
    var r := SortIndices(keys, n);
    forall k | 0 <= k < |r|
      ensures r[k] < n
    {
      assert r[k] in multiset(Range(n));
    }
  }

  /** One insertion step of the sort keeps the (key, index) order. */
  lemma SortStep(keys: seq<int>, n: nat)
    requires 0 < n <= |keys|
    requires SortedBy(keys, SortIndices(keys, n - 1))
    ensures SortedBy(keys, SortIndices(keys, n))
  {
    SortIndicesBelow(keys, n - 1);
    InsertSorted(keys, n - 1, SortIndices(keys, n - 1));
  }

  /** The sort orders the indices by key, equal keys by index: the order `sort_by_cached_key` gives. */
  lemma {:induction false} SortIndicesSorted(keys: seq<int>, n: nat)
    requires n <= |keys|
    ensures SortedBy(keys, SortIndices(keys, n))
  {
    if n > 0 {
      SortIndicesSorted(keys, n - 1);
      SortStep(keys, n);
    }
  }

  /** The sequence rearranged by a list of indices. */
  function Permute<B>(cs: seq<B>, idx: seq<nat>): (r: seq<B>)
    requires forall k :: 0 <= k < |idx| ==> idx[k] < |cs|
    ensures |r| == |idx|
  {
    seq(|idx|, k requires 0 <= k < |idx| => cs[idx[k]])
  }

  /** The sort key: `-material` for White, who wants the best child first, `material` for Black. */
  function Keys<B>(g: Game<B>, b: B, cs: seq<B>): (keys: seq<int>)
    ensures |keys| == |cs|
  {
    seq(|cs|, k requires 0 <= k < |cs| => var m: int := g.material(cs[k]); if g.turn(b) == White then -m else m)
  }

  /** The children in the order they are searched: presorted only at depth `sort_depth` and above. */
  function Ordered<B>(g: Game<B>, b: B, depth: I32): seq<B> {
    var cs := g.children(b);
    if depth >= g.sortDepth then Permute(cs, SortIndices(Keys(g, b, cs), |cs|)) else cs
  }

  /**
   * Presorting permutes the children: it is a rearrangement by a permutation
   * of their indices that puts the mover's best material first, and below
   * `sort_depth` the order is left alone.
   */
  lemma OrderedPermutes<B>(g: Game<B>, b: B, depth: I32)
    ensures var cs := g.children(b);
      var keys := Keys(g, b, cs);
      var idx := SortIndices(keys, |cs|);
      && multiset(idx) == multiset(Range(|cs|))
      && SortedBy(keys, idx)
      && (depth >= g.sortDepth ==> Ordered(g, b, depth) == Permute(cs, idx))
      && (depth < g.sortDepth ==> Ordered(g, b, depth) == cs)
  {
    var cs := g.children(b);
    SortIndicesSorted(Keys(g, b, cs), |cs|);
  }

  /** A single child stays where it is, sorted or not. */
  lemma OrderedSingle<B>(g: Game<B>, b: B, depth: I32)
    ensures |g.children(b)| == 1 ==> Ordered(g, b, depth) == g.children(b)
  {
    var cs := g.children(b);
    if |cs| == 1 && depth >= g.sortDepth {
      var idx := SortIndices(Keys(g, b, cs), 1);
      assert multiset(idx) == multiset{0};
      assert |idx| == 1;
      assert idx[0] in multiset(idx);
    }
  }

  // ---------------------------------------------------------------------------
  // minimax

  /**
   * `minimax`: fail-soft alpha-beta; White maximises, Black minimises. At
   * depth 0 or below the position is scored by `material`, whatever the
   * window. A side with no children, searched above depth 0, scores the
   * worst value for itself.
   */
  function Minimax<B>(g: Game<B>, b: B, depth: I32, alpha: I32, beta: I32): (r: I32)
    ensures depth <= 0 ==> r == g.material(b)
    ensures depth > 0 && g.children(b) == [] ==> r == if g.turn(b) == White then MIN else MAX
    decreases depth, 1
  {
    if depth <= 0 then g.material(b)
    else if g.turn(b) == White then MaxLoop(g, Ordered(g, b, depth), depth, MIN, alpha, beta)
    else MinLoop(g, Ordered(g, b, depth), depth, MAX, alpha, beta)
  }

  /**
   * The loop over White's children: raise `max` and `alpha`, and stop once
   * `beta <= alpha`. The result is never below the running best.
   */
  function MaxLoop<B>(g: Game<B>, cs: seq<B>, depth: I32, max: I32, alpha: I32, beta: I32): (r: I32)
    requires depth > 0
    ensures max <= r
    decreases depth, 0, |cs|
  {
    if |cs| == 0 then max
    else
      var score := Minimax(g, cs[0], depth - 1, alpha, beta);
      var max' := Max(max, score);
      var alpha' := Max(alpha, score);
      if beta <= alpha' then max' else MaxLoop(g, cs[1..], depth, max', alpha', beta)
  }

  /**
   * The loop over Black's children: lower `min` and `beta`, and stop once
   * `beta <= alpha`. The result is never above the running best.
   */
  function MinLoop<B>(g: Game<B>, cs: seq<B>, depth: I32, min: I32, alpha: I32, beta: I32): (r: I32)
    requires depth > 0
    ensures r <= min
    decreases depth, 0, |cs|
  {
    if |cs| == 0 then min
    else
      var score := Minimax(g, cs[0], depth - 1, alpha, beta);
      var min' := Min(min, score);
      var beta' := Min(beta, score);
      if beta' <= alpha then min' else MinLoop(g, cs[1..], depth, min', alpha, beta')
  }

  /**
   * The plain minimax value over the same children, with no pruning: the
   * reference. At depth 0 or below it is the material score, and a forced
   * move passes its child's value up unchanged.
   */
  function Value<B>(g: Game<B>, b: B, depth: I32): (r: I32)
    ensures depth <= 0 ==> r == g.material(b)
    ensures depth > 0 && |g.children(b)| == 1 ==> r == Value(g, g.children(b)[0], depth - 1)
    decreases depth, 1
  {
    OrderedSingle(g, b, depth);
    if depth <= 0 then g.material(b)
    else
      var cs := Ordered(g, b, depth);
      assert |cs| == 1 ==>
        && cs[1..] == []
        && FoldMax(g, cs, depth, MIN) == Max(MIN, Value(g, cs[0], depth - 1))
        && FoldMin(g, cs, depth, MAX) == Min(MAX, Value(g, cs[0], depth - 1));
      if g.turn(b) == White then FoldMax(g, cs, depth, MIN)
      else FoldMin(g, cs, depth, MAX)
  }

  function FoldMax<B>(g: Game<B>, cs: seq<B>, depth: I32, acc: I32): I32
    requires depth > 0
    decreases depth, 0, |cs|
  {
    if |cs| == 0 then acc else FoldMax(g, cs[1..], depth, Max(acc, Value(g, cs[0], depth - 1)))
  }

  function FoldMin<B>(g: Game<B>, cs: seq<B>, depth: I32, acc: I32): I32
    requires depth > 0
    decreases depth, 0, |cs|
  {
    if |cs| == 0 then acc else FoldMin(g, cs[1..], depth, Min(acc, Value(g, cs[0], depth - 1)))
  }

  lemma {:induction false} FoldMaxAtLeast<B>(g: Game<B>, cs: seq<B>, depth: I32, acc: I32)
    requires depth > 0
    ensures FoldMax(g, cs, depth, acc) >= acc
    decreases |cs|
  {
    if |cs| > 0 {
      FoldMaxAtLeast(g, cs[1..], depth, Max(acc, Value(g, cs[0], depth - 1)));
    }
  }

  lemma {:induction false} FoldMinAtMost<B>(g: Game<B>, cs: seq<B>, depth: I32, acc: I32)
    requires depth > 0
    ensures FoldMin(g, cs, depth, acc) <= acc
    decreases |cs|
  {
    if |cs| > 0 {
      FoldMinAtMost(g, cs[1..], depth, Min(acc, Value(g, cs[0], depth - 1)));
    }
  }

  /** The fail-soft guarantee of a search result `r` against the true value `v` in the window (alpha, beta). */
  predicate FailSoft(r: int, v: int, alpha: int, beta: int) {
    && (r <= alpha ==> v <= r)
    && (r >= beta ==> v >= r)
    && (alpha < r < beta ==> r == v)
  }

  /**
   * Alpha-beta is exact inside the window and a bound outside it: when the
   * result lies strictly between alpha and beta it is the plain minimax value;
   * a result at or below alpha bounds the value from above, and one at or above
   * beta bounds it from below.
   */
  lemma {:induction false} AlphaBeta<B>(g: Game<B>, b: B, depth: I32, alpha: I32, beta: I32)
    requires alpha < beta
    ensures FailSoft(Minimax(g, b, depth, alpha, beta), Value(g, b, depth), alpha, beta)
    decreases depth, 1
  {
    if depth > 0 {
      if g.turn(b) == White {
        MaxLoopSound(g, Ordered(g, b, depth), depth, MIN, MIN, alpha, alpha, beta);
      } else {
        MinLoopSound(g, Ordered(g, b, depth), depth, MAX, MAX, alpha, beta, beta);
      }
    }
  }

  /**
   * White's loop, from a state where `max` is the best score so far, `vmax`
   * the best true value so far, and `alpha` the window's lower end raised by
   * the scores seen.
   */
  lemma {:induction false} MaxLoopSound<B>(g: Game<B>, cs: seq<B>, depth: I32, max: I32, vmax: I32,
                                           alpha0: I32, alpha: I32, beta: I32)
    requires depth > 0
    requires alpha == Max(alpha0, max) && alpha < beta
    requires vmax <= max && (max <= alpha0 || vmax >= max)
    ensures FailSoft(MaxLoop(g, cs, depth, max, alpha, beta), FoldMax(g, cs, depth, vmax), alpha0, beta)
    decreases depth, 0, |cs|
  {
    if |cs| > 0 {
      var c := cs[0];
      var score := Minimax(g, c, depth - 1, alpha, beta);
      var v := Value(g, c, depth - 1);
      AlphaBeta(g, c, depth - 1, alpha, beta);
      var max' := Max(max, score);
      var alpha' := Max(alpha, score);
      var vmax' := Max(vmax, v);
      if beta <= alpha' {
        FoldMaxAtLeast(g, cs[1..], depth, vmax');
      } else {
        MaxLoopSound(g, cs[1..], depth, max', vmax', alpha0, alpha', beta);
      }
    }
  }

  /** Black's loop, the mirror image: `min` falls and `beta` is lowered by the scores seen. */
  lemma {:induction false} MinLoopSound<B>(g: Game<B>, cs: seq<B>, depth: I32, min: I32, vmin: I32,
                                           alpha: I32, beta0: I32, beta: I32)
    requires depth > 0
    requires beta == Min(beta0, min) && alpha < beta
    requires vmin >= min && (min >= beta0 || vmin <= min)
    ensures FailSoft(MinLoop(g, cs, depth, min, alpha, beta), FoldMin(g, cs, depth, vmin), alpha, beta0)
    decreases depth, 0, |cs|
  {
    if |cs| > 0 {
      var c := cs[0];
      var score := Minimax(g, c, depth - 1, alpha, beta);
      var v := Value(g, c, depth - 1);
      AlphaBeta(g, c, depth - 1, alpha, beta);
      var min' := Min(min, score);
      var beta' := Min(beta, score);
      var vmin' := Min(vmin, v);
      if beta' <= alpha {
        FoldMinAtMost(g, cs[1..], depth, vmin');
      } else {
        MinLoopSound(g, cs[1..], depth, min', vmin', alpha, beta0, beta');
      }
    }
  }

  /** With the widest window nothing is pruned: the search returns the plain minimax value. */
  lemma FullWindow<B>(g: Game<B>, b: B, depth: I32)
    ensures Minimax(g, b, depth, MIN, MAX) == Value(g, b, depth)
  {
    AlphaBeta(g, b, depth, MIN, MAX);
  }
}
