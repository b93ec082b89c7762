/** The candidate positions a wolf proposes, in exact real arithmetic. The
    random draws are inputs; the square root and the exponential are oracle
    functions, since floating point is not modelled.
 */
module WsaMoves {

  /** What `searchWithinVisual` does to a copy of a wolf: coordinate `k`
      moves by `alpha * g[k] * radius`, where `g[k]` is the k-th Gaussian
      draw and `radius` the visual radius parameter. */
  function Perturb(v: seq<real>, g: seq<real>, alpha: real, radius: real): (w: seq<real>)
    requires |g| == |v|
    ensures |w| == |v|
    ensures forall k :: 0 <= k < |v| ==> w[k] == v[k] + alpha * g[k] * radius
  {
    seq(|v|, k requires 0 <= k < |v| => v[k] + alpha * g[k] * radius)
  }

  /** A visual search stays put exactly in the coordinates whose draw is 0
      (for a positive step scale), and all-zero draws leave the wolf where it
      is. */
  lemma PerturbMovesOnlyWithDraws(v: seq<real>, g: seq<real>, alpha: real, radius: real)
    requires |g| == |v| && alpha * radius != 0.0
    ensures forall k :: 0 <= k < |v| ==> (Perturb(v, g, alpha, radius)[k] == v[k] <==> g[k] == 0.0)
    ensures (forall k :: 0 <= k < |g| ==> g[k] == 0.0) ==> Perturb(v, g, alpha, radius) == v
  {
    var w := Perturb(v, g, alpha, radius);
    forall k | 0 <= k < |v| ensures w[k] == v[k] <==> g[k] == 0.0 {
      assert w[k] - v[k] == (alpha * radius) * g[k];
    }
  }

  /** The accumulated "distance" of the pack move after the first `n`
      coordinates: starting from `acc`, each coordinate replaces it by
      `sqrt((best[i] - wolf[i]) ** 2 + acc)`. */
  function AccumulateUpTo(sqrt: real -> real, acc: real, best: seq<real>, wolf: seq<real>, n: nat): real
    requires n <= |best| == |wolf|
  {
    if n == 0 then acc
    else sqrt(Square(best[n - 1] - wolf[n - 1]) + AccumulateUpTo(sqrt, acc, best, wolf, n - 1))
  }

  /** `x ** 2`. */
  function Square(x: real): (y: real)
    ensures 0.0 <= y
  {
    x * x
  }

  /** A square root that is non-negative on non-negative arguments keeps a
      non-negative accumulator non-negative. */
  lemma {:induction false} AccumulateNonNegative(sqrt: real -> real, acc: real, best: seq<real>, wolf: seq<real>, n: nat)
    requires forall x :: 0.0 <= x ==> 0.0 <= sqrt(x)
    requires n <= |best| == |wolf| && 0.0 <= acc
    ensures 0.0 <= AccumulateUpTo(sqrt, acc, best, wolf, n)
  {
    if n > 0 {
      AccumulateNonNegative(sqrt, acc, best, wolf, n - 1);
    }
  }

  /** The accumulator is not the Euclidean distance: with an exact square
      root, from 0, the wolf (0, 0) and the neighbour (2, 0) give a value
      whose square is 2, where the squared distance is 4. */
  lemma AccumulateIsNotTheNorm(sqrt: real -> real)
    requires forall x :: 0.0 <= x ==> 0.0 <= sqrt(x) && sqrt(x) * sqrt(x) == x
    ensures var a := AccumulateUpTo(sqrt, 0.0, [2.0, 0.0], [0.0, 0.0], 2);
      a * a == 2.0 && a * a != 2.0 * 2.0 + 0.0 * 0.0
  {
    var best, wolf := [2.0, 0.0], [0.0, 0.0];
    var a1 := AccumulateUpTo(sqrt, 0.0, best, wolf, 1);
    assert a1 == sqrt(4.0 + 0.0);
    assert 0.0 <= a1 && a1 * a1 == 4.0;
    assert (a1 - 2.0) * (a1 + 2.0) == 0.0;
    ZeroProduct(a1 - 2.0, a1 + 2.0);
    assert a1 == 2.0;
    assert AccumulateUpTo(sqrt, 0.0, best, wolf, 2) == sqrt(0.0 + 2.0);
  }

  lemma ZeroProduct(a: real, b: real)
    requires a * b == 0.0
    ensures a == 0.0 || b == 0.0
  {
  }

  /** The pack move: `wolf * (1 - beta) + best * beta + alpha * g`, one
      Gaussian draw `g` added to every coordinate. */
  function Pull(wolf: seq<real>, best: seq<real>, beta: real, alpha: real, g: real): (w: seq<real>)
    requires |best| == |wolf|
    ensures |w| == |wolf|
  {
    seq(|wolf|, k requires 0 <= k < |wolf| => wolf[k] * (1.0 - beta) + best[k] * beta + alpha * g)
  }

  function Min(a: real, b: real): real { if a <= b then a else b }
  function Max(a: real, b: real): real { if a <= b then b else a }

  /** One coordinate of a blend with a weight in [0, 1] lies between its
      two ends. */
  lemma BlendBetween(x: real, y: real, beta: real)
    requires 0.0 <= beta <= 1.0
    ensures Min(x, y) <= x * (1.0 - beta) + y * beta <= Max(x, y)
  {
    var diff := y - x;
    assert x * (1.0 - beta) + y * beta == x + beta * diff;
    assert diff - beta * diff == (1.0 - beta) * diff;
    if 0.0 <= diff {
      MulNonNegative(beta, diff);
      MulNonNegative(1.0 - beta, diff);
    } else {
      MulNonNegative(beta, -diff);
      MulNonNegative(1.0 - beta, -diff);
    }
  }

  lemma MulNonNegative(a: real, b: real)
    requires 0.0 <= a && 0.0 <= b
    ensures 0.0 <= a * b
  {
  }

  /** For a weight in [0, 1], every coordinate of the pack move lies between
      the wolf's and the neighbour's, shifted by the common random step; a
      weight of 1 with no random step lands on the neighbour and a weight of
      0 with no random step stays on the wolf. */
  lemma PullBlendsTowardBest(wolf: seq<real>, best: seq<real>, beta: real, alpha: real, g: real)
    requires |best| == |wolf| && 0.0 <= beta <= 1.0
    ensures forall k :: 0 <= k < |wolf| ==>
      Min(wolf[k], best[k]) + alpha * g <= Pull(wolf, best, beta, alpha, g)[k] <= Max(wolf[k], best[k]) + alpha * g
    ensures alpha * g == 0.0 && beta == 1.0 ==> Pull(wolf, best, beta, alpha, g) == best
    ensures alpha * g == 0.0 && beta == 0.0 ==> Pull(wolf, best, beta, alpha, g) == wolf
  {
    var w := Pull(wolf, best, beta, alpha, g);
    forall k | 0 <= k < |wolf|
      ensures Min(wolf[k], best[k]) + alpha * g <= w[k] <= Max(wolf[k], best[k]) + alpha * g
    {
      BlendBetween(wolf[k], best[k], beta);
    }
  }

  /** The escape move: `wolf + alpha * (g * (range / 2 - acc))`, where
      `range` is the width of the search space per coordinate and `acc` the
      accumulator of the pack moves. */
  function Escape(wolf: seq<real>, g: seq<real>, range: seq<real>, acc: real, alpha: real): (w: seq<real>)
    requires |g| == |wolf| && |range| == |wolf|
    ensures |w| == |wolf|
  {
    seq(|wolf|, k requires 0 <= k < |wolf| => wolf[k] + alpha * (g[k] * (range[k] / 2.0 - acc)))
  }

  /** For a positive velocity, an escape leaves coordinate `k` in place
      exactly when its draw is 0 or the accumulator equals half the range of
      that coordinate; past half the range the jump is reversed. */
  lemma EscapeDisplacement(wolf: seq<real>, g: seq<real>, range: seq<real>, acc: real, alpha: real)
    requires |g| == |wolf| && |range| == |wolf| && 0.0 < alpha
    ensures forall k :: 0 <= k < |wolf| ==>
      (Escape(wolf, g, range, acc, alpha)[k] == wolf[k] <==> g[k] == 0.0 || acc == range[k] / 2.0)
    ensures forall k :: 0 <= k < |wolf| && 0.0 < g[k] && range[k] / 2.0 < acc ==>
      Escape(wolf, g, range, acc, alpha)[k] < wolf[k]
  {
    var w := Escape(wolf, g, range, acc, alpha);
    forall k | 0 <= k < |wolf|
      ensures w[k] == wolf[k] <==> g[k] == 0.0 || acc == range[k] / 2.0
      ensures 0.0 < g[k] && range[k] / 2.0 < acc ==> w[k] < wolf[k]
    {
      var h := range[k] / 2.0 - acc;
      assert w[k] - wolf[k] == alpha * (g[k] * h);
      if g[k] != 0.0 && h != 0.0 {
        assert g[k] * h != 0.0;
      }
      if 0.0 < g[k] && h < 0.0 {
        assert g[k] * h < 0.0;
      }
    }
  }
}
