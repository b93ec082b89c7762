/** The algorithm object: its parameters, and the methods that change a
    population in place. `Wolves` is an array whose elements are the wolves'
    vectors, `Evaluations` an array of their fitness values; both belong to
    the caller and are changed through `UpdateIfBetter` only.
 */
module WolfSearch {
  import opened WsaParameters
  import opened WsaPopulation
  import opened WsaSelection
  import opened WsaMoves
  import opened WsaIteration

  class WolfSearchAlgorithm {
    var NP: PyValue
    var r: PyValue
    var s: PyValue
    var alpha: PyValue
    var pa: PyValue

    /** Construction stores the keyword parameters as `setParameters` does. */
    constructor (NP: PyValue := DefaultNP, r: PyValue := DefaultR, s: PyValue := DefaultS,
                 alpha: PyValue := DefaultAlpha, pa: PyValue := DefaultPa)
      ensures this.NP == NP && this.r == r && this.s == s && this.alpha == alpha && this.pa == pa
    {
      this.NP, this.r, this.s, this.alpha, this.pa := NP, r, s, alpha, pa;
    }

    /** `setParameters`: store the population size and the four parameters
        of the algorithm as given, without validating them. */
    method SetParameters(NP: PyValue := DefaultNP, r: PyValue := DefaultR, s: PyValue := DefaultS,
                         alpha: PyValue := DefaultAlpha, pa: PyValue := DefaultPa)
      modifies this
      ensures this.NP == NP && this.r == r && this.s == s && this.alpha == alpha && this.pa == pa
    {
      this.NP, this.r, this.s, this.alpha, this.pa := NP, r, s, alpha, pa;
    }

    /** `getParameters`: the base class's dictionary of values, updated with
        the four parameters of the algorithm as stored. */
    function GetParameters(base: map<string, PyValue>): (d: map<string, PyValue>)
      reads this
      ensures d.Keys == base.Keys + {"r", "s", "alpha", "pa"}
      ensures d["r"] == r && d["s"] == s && d["alpha"] == alpha && d["pa"] == pa
      ensures forall k :: k in base && k !in {"r", "s", "alpha", "pa"} ==> d[k] == base[k]
    {
      base["r" := r]["s" := s]["alpha" := alpha]["pa" := pa]
    }

    /** The numeric parameters an iteration computes with. */
    predicate Numeric()
      reads this
    {
      IsNumber(r) && IsNumber(alpha) && IsNumber(pa)
    }

    function Coefficients(): Coeffs
      reads this
      requires Numeric()
    {
      Coeffs(Num(r), Num(alpha), Num(pa))
    }

    /** `updateIfBetter`: evaluate the candidate and write it, with its
        fitness, into slot `index` only when it is strictly better; no other
        slot, and nothing when it is not better. */
    method UpdateIfBetter(task: Task, wolves: array<seq<real>>, evaluations: array<real>, wolfTmp: seq<real>, index: nat)
      requires wolves.Length == evaluations.Length && index < wolves.Length
      requires |wolfTmp| == |wolves[index]|
      modifies wolves, evaluations
      ensures Pop(wolves[..], evaluations[..]) == Update(old(Pop(wolves[..], evaluations[..])), task.eval, wolfTmp, index)
      ensures evaluations[index] <= old(evaluations[index])
      ensures forall k :: 0 <= k < wolves.Length && k != index ==>
                wolves[k] == old(wolves[k]) && evaluations[k] == old(evaluations[k])
    {
      var wolfTmpEvaluation := task.eval(wolfTmp);
      if wolfTmpEvaluation < evaluations[index] {
        wolves[index] := wolfTmp;
        evaluations[index] := wolfTmpEvaluation;
      }
    }

    /** `searchWithinVisual`: move every coordinate of the copy by
        `alpha * randn * r`, with a fresh Gaussian draw per coordinate. */
    method SearchWithinVisual(wolfTmp: array<real>, randn: seq<real>)
      requires IsNumber(alpha) && IsNumber(r) && |randn| == wolfTmp.Length
      modifies wolfTmp
      ensures wolfTmp[..] == Perturb(old(wolfTmp[..]), randn, Num(alpha), Num(r))
    {
      var velocity, radius := Num(alpha), Num(r);
      ghost var before := wolfTmp[..];
      var i := 0;
      while i < wolfTmp.Length
        invariant 0 <= i <= wolfTmp.Length
        invariant forall k :: 0 <= k < i ==> wolfTmp[k] == before[k] + velocity * randn[k] * radius
        invariant forall k :: i <= k < wolfTmp.Length ==> wolfTmp[k] == before[k]
      {
        wolfTmp[i] := wolfTmp[i] + velocity * randn[i] * radius;
        i := i + 1;
      }
      ghost var moved := Perturb(before, randn, velocity, radius);
      assert forall k :: 0 <= k < wolfTmp.Length ==> wolfTmp[..][k] == moved[k];
      assert wolfTmp[..] == moved;
    }

    /** Lines 168-189 of one wolf's turn: with neighbours inside the visual
        radius, fold the gap to the best of them into the accumulator and
        propose the pack move; without, propose a second visual search. */
    method PackMove(task: Task, num: Numerics, wolves: array<seq<real>>, evaluations: array<real>,
                    acc: real, index: nat, d: Draws)
      returns (accNew: real)
      requires Numeric()
      requires index < wolves.Length == evaluations.Length
      requires Shaped(Pop(wolves[..], evaluations[..]), |task.bRange|) && DrawsFit(d, |task.bRange|)
      modifies wolves, evaluations
      ensures Round(Pop(wolves[..], evaluations[..]), accNew)
              == PackStep(task, num, Coefficients(), Round(old(Pop(wolves[..], evaluations[..])), acc), index, d)
    {
      var c := Coefficients();
      ghost var p := Pop(wolves[..], evaluations[..]);
      var wolf := wolves[index];
      var distances := Distances(num.norm, wolf, wolves[..]);
      var satisfiedIndex := Satisfied(distances, c.radius);
      assert satisfiedIndex == Neighbours(num.norm, c, p, index, |task.bRange|);
      if |satisfiedIndex| > 0 {
        var j := BestNeighbour(task.eval, wolves[..], satisfiedIndex);
        accNew := PullMove(task, num, wolves, evaluations, acc, index, j, d.pull);
      } else {
        var wolfTmp := CopyRow(wolf);
        SearchWithinVisual(wolfTmp, d.visualAgain);
        assert PackStep(task, num, c, Round(p, acc), index, d) == Round(Update(p, task.eval, wolfTmp[..], index), acc);
        UpdateIfBetter(task, wolves, evaluations, wolfTmp[..], index);
        accNew := acc;
      }
    }

    /** Lines 175-184: fold the gap between the wolf and its best neighbour
        (slot `j`) into the accumulator, and propose the pack move toward
        that neighbour with weight `exp(-r ** 2)`. */
    method PullMove(task: Task, num: Numerics, wolves: array<seq<real>>, evaluations: array<real>,
                    acc: real, index: nat, j: nat, g: real)
      returns (accNew: real)
      requires Numeric()
      requires index < wolves.Length == evaluations.Length && j < wolves.Length
      requires Shaped(Pop(wolves[..], evaluations[..]), |task.bRange|)
      modifies wolves, evaluations
      ensures Round(Pop(wolves[..], evaluations[..]), accNew)
              == PullStep(task, num, Coefficients(), Round(old(Pop(wolves[..], evaluations[..])), acc), index, j, g)
    {
      var wolf := wolves[index];
      var bestWolf := wolves[j];
      accNew := AccumulateGap(num.sqrt, acc, bestWolf, wolf);
      var beta1 := num.exp(-1.0 * Square(accNew));
      var newWolf := Pull(wolf, bestWolf, beta1, Num(alpha), g);
      UpdateIfBetter(task, wolves, evaluations, newWolf, index);
    }

    /** The turn of the wolf in slot `index` (lines 162-194): visual search,
        pack move or second visual search, and an escape when the uniform
        draw exceeds pa, each proposal going through `UpdateIfBetter`. The
        wolf is re-read from its slot at each use, as the row view `wolf`
        sees its own slot's updates. */
    method WolfTurn(task: Task, num: Numerics, wolves: array<seq<real>>, evaluations: array<real>,
                    acc: real, index: nat, d: Draws)
      returns (accNew: real)
      requires Numeric()
      requires index < wolves.Length == evaluations.Length
      requires Shaped(Pop(wolves[..], evaluations[..]), |task.bRange|) && DrawsFit(d, |task.bRange|)
      modifies wolves, evaluations
      ensures Round(Pop(wolves[..], evaluations[..]), accNew)
              == Step(task, num, Coefficients(), Round(old(Pop(wolves[..], evaluations[..])), acc), index, d)
    {
      var c := Coefficients();
      var dim := |task.bRange|;
      ghost var p0 := Pop(wolves[..], evaluations[..]);
      var wolfTmp := CopyRow(wolves[index]);
      SearchWithinVisual(wolfTmp, d.visual);
      UpdateIfBetter(task, wolves, evaluations, wolfTmp[..], index);
      ghost var p1 := Pop(wolves[..], evaluations[..]);
      assert p1 == VisualStep(task.eval, c, p0, index, d.visual);
      VisualStepOk(task.eval, c, p0, index, d.visual, dim);

      accNew := PackMove(task, num, wolves, evaluations, acc, index, d);
      ghost var st2 := Round(Pop(wolves[..], evaluations[..]), accNew);
      PackStepOk(task, num, c, Round(p1, acc), index, d);

      if d.u > c.pa {
        var newWolf := Escape(wolves[index], d.escape, task.bRange, accNew, c.alpha);
        UpdateIfBetter(task, wolves, evaluations, newWolf, index);
      }
      assert Round(Pop(wolves[..], evaluations[..]), accNew) == EscapeStep(task, c, st2, index, d);
    }

    /** The loop of lines 160-194: every wolf in index order takes its turn
        on the population in place, the accumulator set to 0 once before the
        first wolf and carried from each turn to the next. The ghost `t`
        records the rounds the sweep goes through. */
    method TurnAll(task: Task, num: Numerics, c: Coeffs, wolves: array<seq<real>>, evaluations: array<real>,
                   ghost t: seq<Round>, draws: seq<Draws>)
      requires Numeric() && c == Coefficients()
      requires wolves.Length == evaluations.Length
      requires IsTrace(task, num, c, t, draws) && |t| == wolves.Length + 1
      requires t[0] == Round(Pop(wolves[..], evaluations[..]), 0.0)
      modifies wolves, evaluations
      ensures Pop(wolves[..], evaluations[..]) == t[wolves.Length].pop
    {
      var acc := 0.0;
      var index := 0;
      while index < wolves.Length
        invariant 0 <= index <= wolves.Length
        invariant Round(Pop(wolves[..], evaluations[..]), acc) == t[index]
      {
        acc := NextTurn(task, num, c, wolves, evaluations, acc, index, t, draws);
        index := index + 1;
      }
    }

    /** One pass of the loop: the turn of the wolf in slot `index` takes the
        population from one recorded round to the next. */
    method NextTurn(task: Task, num: Numerics, c: Coeffs, wolves: array<seq<real>>, evaluations: array<real>,
                    acc: real, index: nat, ghost t: seq<Round>, draws: seq<Draws>)
      returns (accNew: real)
      requires Numeric() && c == Coefficients()
      requires wolves.Length == evaluations.Length
      requires IsTrace(task, num, c, t, draws) && index + 1 < |t| && index < wolves.Length == |t[0].pop.wolves|
      requires Round(Pop(wolves[..], evaluations[..]), acc) == t[index]
      modifies wolves, evaluations
      ensures Round(Pop(wolves[..], evaluations[..]), accNew) == t[index + 1]
    {
      assert Shaped(t[index].pop, |task.bRange|) && |t[index].pop.wolves| == wolves.Length;
      assert DrawsFit(draws[index], |task.bRange|);
      accNew := WolfTurn(task, num, wolves, evaluations, acc, index, draws[index]);
      assert Round(Pop(wolves[..], evaluations[..]), accNew) == Step(task, num, c, t[index], index, draws[index]);
    }

    /** `runIteration`: every wolf in index order takes its turn on the
        population in place, with the accumulator set to 0 once before the
        first wolf; then the global best is updated. The new population and
        global best are those of the iteration function, for which
        `IterationSpec` proves that no fitness rises and the global best
        fitness never increases. */
    method RunIteration(task: Task, num: Numerics, wolves: array<seq<real>>, evaluations: array<real>,
                        xb: seq<real>, fxb: real, draws: seq<Draws>)
      returns (xbNew: seq<real>, fxbNew: real)
      requires Numeric() && NP == PyInt(wolves.Length)
      requires 0 < wolves.Length == evaluations.Length <= |draws|
      requires Shaped(Pop(wolves[..], evaluations[..]), |task.bRange|)
      requires AllDrawsFit(draws, |task.bRange|)
      modifies wolves, evaluations
      ensures (Pop(wolves[..], evaluations[..]), xbNew, fxbNew)
              == Iteration(task, num, Coefficients(), old(Pop(wolves[..], evaluations[..])), xb, fxb, draws)
    {
      var c := Coefficients();
      ghost var p0 := Pop(wolves[..], evaluations[..]);
      ghost var t := Trace(task, num, c, Round(p0, 0.0), draws, wolves.Length);
      TraceEndsAtSweep(task, num, c, Round(p0, 0.0), draws, wolves.Length);
      TurnAll(task, num, c, wolves, evaluations, t, draws);
      xbNew, fxbNew := BestOf(wolves, evaluations, xb, fxb);
    }
  }

  /** Lines 196-198: the first slot of least fitness replaces the global
      best only when it is strictly better. */
  method BestOf(wolves: array<seq<real>>, evaluations: array<real>, xb: seq<real>, fxb: real)
    returns (xbNew: seq<real>, fxbNew: real)
    requires 0 < wolves.Length == evaluations.Length
    ensures (xbNew, fxbNew) == GlobalBest(Pop(wolves[..], evaluations[..]), xb, fxb)
  {
    var bestEvalIndex := ArgMin(evaluations[..]);
    if evaluations[bestEvalIndex] < fxb {
      xbNew, fxbNew := wolves[bestEvalIndex], evaluations[bestEvalIndex];
    } else {
      xbNew, fxbNew := xb, fxb;
    }
  }

  /** The loop of lines 178-179: each coordinate replaces the accumulator by
      the square root of the squared gap plus the accumulator. */
  method AccumulateGap(sqrt: real -> real, acc: real, bestWolf: seq<real>, wolf: seq<real>) returns (r: real)
    requires |bestWolf| == |wolf|
    ensures r == AccumulateUpTo(sqrt, acc, bestWolf, wolf, |bestWolf|)
  {
    r := acc;
    var i := 0;
    while i < |bestWolf|
      invariant 0 <= i <= |bestWolf|
      invariant r == AccumulateUpTo(sqrt, acc, bestWolf, wolf, i)
    {
      r := sqrt(Square(bestWolf[i] - wolf[i]) + r);
      i := i + 1;
    }
  }

  /** `ndarray.copy(wolf)`: a fresh array holding the wolf's coordinates. */
  method CopyRow(wolf: seq<real>) returns (a: array<real>)
    ensures fresh(a) && a[..] == wolf
  {
    a := new real[|wolf|](k requires 0 <= k < |wolf| => wolf[k]);
  }
}
