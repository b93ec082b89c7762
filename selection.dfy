/** Choosing among wolves: the neighbours inside the visual radius, the best
    of them, and the population's best at the end of an iteration. Distances
    and fitness values come from oracle functions; what is modelled is the
    filtering and the first-occurrence argmin.
 */
module WsaSelection {
  import opened WsaPopulation

  /** Element-wise `a - b` of two vectors of one dimension. */
  function Sub(a: seq<real>, b: seq<real>): (d: seq<real>)
    requires |a| == |b|
    ensures |d| == |a| && forall k :: 0 <= k < |a| ==> d[k] == a[k] - b[k]
  {
    seq(|a|, k requires 0 <= k < |a| => a[k] - b[k])
  }

  /** The zero vector of dimension `n`. */
  function Zeros(n: nat): (z: seq<real>)
    ensures |z| == n && forall k :: 0 <= k < n ==> z[k] == 0.0
  {
    seq(n, k => 0.0)
  }

  lemma SubSelf(a: seq<real>)
    ensures Sub(a, a) == Zeros(|a|)
  {
  }

  /** `[linalg.norm(wolf - Wolves[i]) for i in range(NP)]`, with the norm an
      oracle. */
  function Distances(norm: seq<real> -> real, wolf: seq<real>, wolves: seq<seq<real>>): (ds: seq<real>)
    requires forall k :: 0 <= k < |wolves| ==> |wolves[k]| == |wolf|
    ensures |ds| == |wolves|
    ensures forall k :: 0 <= k < |wolves| ==> ds[k] == norm(Sub(wolf, wolves[k]))
  {
    seq(|wolves|, k requires 0 <= k < |wolves| => norm(Sub(wolf, wolves[k])))
  }

  /** Strictly increasing, hence without repetition. */
  predicate Increasing(s: seq<nat>) {
    forall a, b :: 0 <= a < b < |s| ==> s[a] < s[b]
  }

  /** `[index for index, dist in enumerate(distances[..n]) if 0 < dist < r]`. */
  function SatisfiedUpTo(ds: seq<real>, radius: real, n: nat): (sat: seq<nat>)
    requires n <= |ds|
    ensures forall a :: 0 <= a < |sat| ==> sat[a] < n
  {
    if n == 0 then []
    else
      var prefix := SatisfiedUpTo(ds, radius, n - 1);
      if 0.0 < ds[n - 1] < radius then prefix + [n - 1] else prefix
  }

  /** The filter keeps exactly the indices below `n` whose distance lies
      strictly between 0 and the radius, in increasing order. */
  lemma {:induction false} SatisfiedUpToIsFilter(ds: seq<real>, radius: real, n: nat)
    requires n <= |ds|
    ensures var sat := SatisfiedUpTo(ds, radius, n);
      && Increasing(sat)
      && forall j: nat :: j in sat <==> j < n && 0.0 < ds[j] < radius
  {
    if n > 0 {
      SatisfiedUpToIsFilter(ds, radius, n - 1);
    }
  }

  /** The satisfied indices of a list of distances. */
  function Satisfied(ds: seq<real>, radius: real): (sat: seq<nat>)
    ensures forall a :: 0 <= a < |sat| ==> sat[a] < |ds|
  {
    SatisfiedUpTo(ds, radius, |ds|)
  }

  /** The satisfied indices are every index whose distance lies strictly
      between 0 and the visual radius, each once, in increasing order. */
  lemma SatisfiedIsFilter(ds: seq<real>, radius: real)
    ensures var sat := Satisfied(ds, radius);
      && Increasing(sat)
      && forall j: nat :: j in sat <==> j < |ds| && 0.0 < ds[j] < radius
  {
    SatisfiedUpToIsFilter(ds, radius, |ds|);
  }

  /** numpy's `argmin` over `xs[..n]`: the first index of a least value. */
  function ArgMinUpTo(xs: seq<real>, n: nat): (k: nat)
    requires 0 < n <= |xs|
    ensures k < n
  {
    if n == 1 then 0
    else
      var k := ArgMinUpTo(xs, n - 1);
      if xs[n - 1] < xs[k] then n - 1 else k
  }

  /** No value of the prefix is below the one picked, and every value before
      it is strictly above. */
  lemma {:induction false} ArgMinUpToIsFirstMinimum(xs: seq<real>, n: nat)
    requires 0 < n <= |xs|
    ensures var k := ArgMinUpTo(xs, n);
      && (forall j :: 0 <= j < n ==> xs[k] <= xs[j])
      && (forall j :: 0 <= j < k ==> xs[k] < xs[j])
  {
    if n > 1 {
      ArgMinUpToIsFirstMinimum(xs, n - 1);
    }
  }

  /** numpy's `argmin`. */
  function ArgMin(xs: seq<real>): (k: nat)
    requires 0 < |xs|
    ensures k < |xs|
  {
    ArgMinUpTo(xs, |xs|)
  }

  /** `argmin` picks the first index of a least value. */
  lemma ArgMinIsFirstMinimum(xs: seq<real>)
    requires 0 < |xs|
    ensures var k := ArgMin(xs);
      && (forall j :: 0 <= j < |xs| ==> xs[k] <= xs[j])
      && (forall j :: 0 <= j < k ==> xs[k] < xs[j])
  {
    ArgMinUpToIsFirstMinimum(xs, |xs|);
  }

  /** `apply_along_axis(task.eval, 1, Wolves[satisfiedIndex])`: the objective
      evaluated afresh at each selected wolf. */
  function EvalRows(eval: seq<real> -> real, wolves: seq<seq<real>>, sel: seq<nat>): (fs: seq<real>)
    requires forall a :: 0 <= a < |sel| ==> sel[a] < |wolves|
    ensures |fs| == |sel| && forall a :: 0 <= a < |sel| ==> fs[a] == eval(wolves[sel[a]])
  {
    seq(|sel|, a requires 0 <= a < |sel| => eval(wolves[sel[a]]))
  }

  /** `satisfiedIndex[argmin(satisfiedEvaluation)]`: the index of the best
      neighbour. */
  function BestNeighbour(eval: seq<real> -> real, wolves: seq<seq<real>>, sat: seq<nat>): (j: nat)
    requires 0 < |sat|
    requires forall a :: 0 <= a < |sat| ==> sat[a] < |wolves|
  {
    sat[ArgMin(EvalRows(eval, wolves, sat))]
  }

  /** The chosen neighbour is one of the satisfied indices, no satisfied
      wolf evaluates lower, and every satisfied index before it evaluates
      strictly higher (ties go to the first occurrence). */
  lemma {:induction false} BestNeighbourIsFirstMinimum(eval: seq<real> -> real, wolves: seq<seq<real>>, sat: seq<nat>)
    requires 0 < |sat| && Increasing(sat)
    requires forall a :: 0 <= a < |sat| ==> sat[a] < |wolves|
    ensures var j := BestNeighbour(eval, wolves, sat);
      && j in sat
      && (forall i :: i in sat ==> eval(wolves[j]) <= eval(wolves[i]))
      && (forall i :: i in sat && i < j ==> eval(wolves[j]) < eval(wolves[i]))
  {
    var fs := EvalRows(eval, wolves, sat);
    var m := ArgMin(fs);
    ArgMinIsFirstMinimum(fs);
    var j := sat[m];
    forall i | i in sat ensures eval(wolves[j]) <= eval(wolves[i]) && (i < j ==> eval(wolves[j]) < eval(wolves[i])) {
      var a :| 0 <= a < |sat| && sat[a] == i;
      assert fs[m] <= fs[a];
      if i < j {
        assert a < m;
      }
    }
  }

  /** With the fitness values stored consistently, the neighbour picked by
      re-evaluating the satisfied wolves is the satisfied index of least
      stored fitness, the first one on ties. */
  lemma BestNeighbourByStoredFitness(eval: seq<real> -> real, p: Pop, sat: seq<nat>)
    requires Consistent(p, eval)
    requires 0 < |sat| && Increasing(sat)
    requires forall a :: 0 <= a < |sat| ==> sat[a] < |p.wolves|
    ensures var j := BestNeighbour(eval, p.wolves, sat);
      && j in sat
      && (forall i :: i in sat ==> p.evals[j] <= p.evals[i])
      && (forall i :: i in sat && i < j ==> p.evals[j] < p.evals[i])
  {
    BestNeighbourIsFirstMinimum(eval, p.wolves, sat);
  }

  /** A wolf is never its own neighbour, nor is any exact duplicate of it:
      their distance is the norm of the zero vector, which is 0 for a norm. */
  lemma SatisfiedExcludesDuplicates(norm: seq<real> -> real, wolf: seq<real>, wolves: seq<seq<real>>, radius: real, j: nat)
    requires forall k :: 0 <= k < |wolves| ==> |wolves[k]| == |wolf|
    requires norm(Zeros(|wolf|)) == 0.0
    requires j < |wolves| && wolves[j] == wolf
    ensures j !in Satisfied(Distances(norm, wolf, wolves), radius)
  {
    SubSelf(wolf);
    SatisfiedIsFilter(Distances(norm, wolf, wolves), radius);
  }

  /** With a single wolf there is never a neighbour, so the second visual
      search always runs. */
  lemma LoneWolfHasNoNeighbour(norm: seq<real> -> real, wolves: seq<seq<real>>, radius: real)
    requires |wolves| == 1 && norm(Zeros(|wolves[0]|)) == 0.0
    ensures Satisfied(Distances(norm, wolves[0], wolves), radius) == []
  {
    var ds := Distances(norm, wolves[0], wolves);
    SubSelf(wolves[0]);
    assert ds[0] == 0.0;
    assert SatisfiedUpTo(ds, radius, 0) == [];
  }

  /** The end-of-iteration update of the global best `(xb, fxb)`: take the
      first best slot of the population and adopt it only on strict
      improvement. */
  function GlobalBest(p: Pop, xb: seq<real>, fxb: real): (best: (seq<real>, real))
    requires 0 < |p.wolves| == |p.evals|
  {
    var k := ArgMin(p.evals);
    if p.evals[k] < fxb then (p.wolves[k], p.evals[k]) else (xb, fxb)
  }

  /** The best fitness never increases. It is replaced exactly when some
      slot is strictly better than it, and then it becomes the least fitness
      of the population and the best vector is the wolf of the first slot
      holding that least fitness. Either way it ends at most every fitness of
      the population. */
  lemma GlobalBestSpec(p: Pop, xb: seq<real>, fxb: real)
    requires 0 < |p.wolves| == |p.evals|
    ensures var (xb', fxb') := GlobalBest(p, xb, fxb);
      && fxb' <= fxb
      && (forall k :: 0 <= k < |p.evals| ==> fxb' <= p.evals[k])
      && ((exists k :: 0 <= k < |p.evals| && p.evals[k] < fxb) <==> fxb' < fxb)
      && (fxb' < fxb ==>
            && (forall k :: 0 <= k < |p.evals| ==> fxb' <= p.evals[k])
            && exists k :: 0 <= k < |p.evals| && p.evals[k] == fxb' && xb' == p.wolves[k]
                           && forall i :: 0 <= i < k ==> fxb' < p.evals[i])
      && (fxb' == fxb ==> xb' == xb)
  {
    var k := ArgMin(p.evals);
    ArgMinIsFirstMinimum(p.evals);
    var (xb', fxb') := GlobalBest(p, xb, fxb);
    if fxb' < fxb {
      assert p.evals[k] == fxb' && xb' == p.wolves[k];
    }
  }
}
