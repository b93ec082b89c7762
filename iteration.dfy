/** One iteration of the Wolf Search Algorithm as a function of the
    population before it: every wolf in index order makes its visual search,
    then a pack move or a second visual search, then possibly an escape,
    each proposal going through `updateIfBetter`; afterwards the global best
    is updated. Later wolves see the updates of earlier ones, and the pack
    accumulator carries over from wolf to wolf.
 */
module WsaIteration {
  import opened WsaPopulation
  import opened WsaSelection
  import opened WsaMoves

  /** The optimisation task: the objective and the width of the search
      space in each coordinate (`task.bRange`), whose length is the
      dimension. */
  datatype Task = Task(eval: seq<real> -> real, bRange: seq<real>)

  /** The numeric primitives of numpy the iteration calls. */
  datatype Numerics = Numerics(norm: seq<real> -> real, sqrt: real -> real, exp: real -> real)

  /** The visual radius, the velocity and the enemy threshold as numbers. */
  datatype Coeffs = Coeffs(radius: real, alpha: real, pa: real)

  /** The random draws one wolf may use: a Gaussian per coordinate for the
      first visual search, one Gaussian for the pack move, a Gaussian per
      coordinate for the second visual search, the uniform draw compared
      with pa, and a Gaussian per coordinate for the escape. */
  datatype Draws = Draws(visual: seq<real>, pull: real, visualAgain: seq<real>, u: real, escape: seq<real>)

  predicate DrawsFit(d: Draws, dim: nat) {
    |d.visual| == dim && |d.visualAgain| == dim && |d.escape| == dim
  }

  predicate AllDrawsFit(draws: seq<Draws>, dim: nat) {
    forall i :: 0 <= i < |draws| ==> DrawsFit(draws[i], dim)
  }

  /** The population together with the pack accumulator `r`. */
  datatype Round = Round(pop: Pop, acc: real)

  /** Lines 162-165: a visual search from the wolf in slot `index`,
      proposed to that slot. */
  function VisualStep(eval: seq<real> -> real, c: Coeffs, p: Pop, index: nat, g: seq<real>): (q: Pop)
    requires index < |p.wolves| == |p.evals| && |g| == |p.wolves[index]|
    ensures |q.wolves| == |p.wolves| && |q.evals| == |p.evals|
  {
    Update(p, eval, Perturb(p.wolves[index], g, c.alpha, c.radius), index)
  }

  /** The neighbours of the wolf in slot `index`. */
  function Neighbours(norm: seq<real> -> real, c: Coeffs, p: Pop, index: nat, dim: nat): (sat: seq<nat>)
    requires Shaped(p, dim) && index < |p.wolves|
    ensures forall a :: 0 <= a < |sat| ==> sat[a] < |p.wolves|
  {
    Satisfied(Distances(norm, p.wolves[index], p.wolves), c.radius)
  }

  /** Lines 175-184: the accumulator absorbs the gap to the neighbour in
      slot `j`, and the wolf proposes the pack move toward it with weight
      `exp(-acc ** 2)`. */
  function PullStep(task: Task, num: Numerics, c: Coeffs, st: Round, index: nat, j: nat, g: real): (next: Round)
    requires Shaped(st.pop, |task.bRange|) && index < |st.pop.wolves| && j < |st.pop.wolves|
    ensures |next.pop.wolves| == |st.pop.wolves| && |next.pop.evals| == |st.pop.evals|
  {
    var wolf := st.pop.wolves[index];
    var best := st.pop.wolves[j];
    var acc := AccumulateUpTo(num.sqrt, st.acc, best, wolf, |task.bRange|);
    var beta := num.exp(-1.0 * Square(acc));
    Round(Update(st.pop, task.eval, Pull(wolf, best, beta, c.alpha, g), index), acc)
  }

  /** Lines 168-189: with neighbours, the pack move toward the best of them;
      without, a second visual search, and the accumulator stays. */
  function PackStep(task: Task, num: Numerics, c: Coeffs, st: Round, index: nat, d: Draws): (next: Round)
    requires Shaped(st.pop, |task.bRange|) && index < |st.pop.wolves| && DrawsFit(d, |task.bRange|)
    ensures |next.pop.wolves| == |st.pop.wolves| && |next.pop.evals| == |st.pop.evals|
  {
    var sat := Neighbours(num.norm, c, st.pop, index, |task.bRange|);
    if |sat| > 0 then
      PullStep(task, num, c, st, index, BestNeighbour(task.eval, st.pop.wolves, sat), d.pull)
    else
      Round(VisualStep(task.eval, c, st.pop, index, d.visualAgain), st.acc)
  }

  /** Lines 191-194: when the uniform draw exceeds pa, the wolf proposes an
      escape scaled by half the range less the accumulator. */
  function EscapeStep(task: Task, c: Coeffs, st: Round, index: nat, d: Draws): (next: Round)
    requires Shaped(st.pop, |task.bRange|) && index < |st.pop.wolves| && DrawsFit(d, |task.bRange|)
    ensures |next.pop.wolves| == |st.pop.wolves| && |next.pop.evals| == |st.pop.evals|
  {
    if d.u > c.pa then
      var wolf := st.pop.wolves[index];
      Round(Update(st.pop, task.eval, Escape(wolf, d.escape, task.bRange, st.acc, c.alpha), index), st.acc)
    else
      st
  }

  /** Every proposal of a step has the wolves' dimension, so each part of a
      step keeps the population's shape, changes no slot but its own, never
      worsens its own slot, and keeps stored fitness values consistent. */
  predicate StepPartOk(q: Pop, p: Pop, eval: seq<real> -> real, index: nat, dim: nat)
    requires |p.wolves| == |p.evals|
  {
    && Shaped(q, dim) && NoWorse(q, p)
    && (Consistent(p, eval) ==> Consistent(q, eval))
    && |q.wolves| == |p.wolves|
    && forall k :: 0 <= k < |p.wolves| && k != index ==> q.wolves[k] == p.wolves[k] && q.evals[k] == p.evals[k]
  }

  lemma UpdatePartOk(p: Pop, eval: seq<real> -> real, candidate: seq<real>, index: nat, dim: nat)
    requires Shaped(p, dim) && index < |p.wolves| && |candidate| == dim
    ensures StepPartOk(Update(p, eval, candidate, index), p, eval, index, dim)
  {
    UpdateKeepsShape(p, eval, candidate, index, dim);
    if Consistent(p, eval) {
      UpdateKeepsConsistency(p, eval, candidate, index);
    }
  }

  lemma VisualStepOk(eval: seq<real> -> real, c: Coeffs, p: Pop, index: nat, g: seq<real>, dim: nat)
    requires Shaped(p, dim) && index < |p.wolves| && |g| == dim
    ensures StepPartOk(VisualStep(eval, c, p, index, g), p, eval, index, dim)
  {
    UpdatePartOk(p, eval, Perturb(p.wolves[index], g, c.alpha, c.radius), index, dim);
  }

  lemma PullStepOk(task: Task, num: Numerics, c: Coeffs, st: Round, index: nat, j: nat, g: real)
    requires Shaped(st.pop, |task.bRange|) && index < |st.pop.wolves| && j < |st.pop.wolves|
    ensures StepPartOk(PullStep(task, num, c, st, index, j, g).pop, st.pop, task.eval, index, |task.bRange|)
  {
    var wolf := st.pop.wolves[index];
    var best := st.pop.wolves[j];
    var acc := AccumulateUpTo(num.sqrt, st.acc, best, wolf, |task.bRange|);
    var beta := num.exp(-1.0 * Square(acc));
    UpdatePartOk(st.pop, task.eval, Pull(wolf, best, beta, c.alpha, g), index, |task.bRange|);
  }

  lemma PackStepOk(task: Task, num: Numerics, c: Coeffs, st: Round, index: nat, d: Draws)
    requires Shaped(st.pop, |task.bRange|) && index < |st.pop.wolves| && DrawsFit(d, |task.bRange|)
    ensures StepPartOk(PackStep(task, num, c, st, index, d).pop, st.pop, task.eval, index, |task.bRange|)
  {
    var sat := Neighbours(num.norm, c, st.pop, index, |task.bRange|);
    if |sat| > 0 {
      PullStepOk(task, num, c, st, index, BestNeighbour(task.eval, st.pop.wolves, sat), d.pull);
    } else {
      VisualStepOk(task.eval, c, st.pop, index, d.visualAgain, |task.bRange|);
    }
  }

  lemma EscapeStepOk(task: Task, c: Coeffs, st: Round, index: nat, d: Draws)
    requires Shaped(st.pop, |task.bRange|) && index < |st.pop.wolves| && DrawsFit(d, |task.bRange|)
    ensures StepPartOk(EscapeStep(task, c, st, index, d).pop, st.pop, task.eval, index, |task.bRange|)
  {
    if d.u > c.pa {
      var wolf := st.pop.wolves[index];
      UpdatePartOk(st.pop, task.eval, Escape(wolf, d.escape, task.bRange, st.acc, c.alpha), index, |task.bRange|);
    }
  }

  lemma StepPartOkTransitive(r: Pop, q: Pop, p: Pop, eval: seq<real> -> real, index: nat, dim: nat)
    requires |p.wolves| == |p.evals| && |q.wolves| == |q.evals|
    requires StepPartOk(r, q, eval, index, dim) && StepPartOk(q, p, eval, index, dim)
    ensures StepPartOk(r, p, eval, index, dim)
  {
  }

  /** The whole turn of the wolf in slot `index`. */
  function Step(task: Task, num: Numerics, c: Coeffs, st: Round, index: nat, d: Draws): (next: Round)
    requires Shaped(st.pop, |task.bRange|) && index < |st.pop.wolves| && DrawsFit(d, |task.bRange|)
    ensures StepPartOk(next.pop, st.pop, task.eval, index, |task.bRange|)
  {
    var dim := |task.bRange|;
    var p1 := VisualStep(task.eval, c, st.pop, index, d.visual);
    VisualStepOk(task.eval, c, st.pop, index, d.visual, dim);
    var st2 := PackStep(task, num, c, Round(p1, st.acc), index, d);
    PackStepOk(task, num, c, Round(p1, st.acc), index, d);
    var st3 := EscapeStep(task, c, st2, index, d);
    EscapeStepOk(task, c, st2, index, d);
    StepPartOkTransitive(st2.pop, p1, st.pop, task.eval, index, dim);
    StepPartOkTransitive(st3.pop, st2.pop, st.pop, task.eval, index, dim);
    st3
  }

  /** The state after the wolves in slots 0 .. n-1 have had their turn, in
      order, starting from `start`. Across the sweep no fitness ends above
      where it started (per-slot improvement), the slots whose wolves have
      not had their turn yet are as they were, and stored fitness values stay
      the objective's values at the stored wolves. */
  function Sweep(task: Task, num: Numerics, c: Coeffs, start: Round, draws: seq<Draws>, n: nat): (st: Round)
    requires Shaped(start.pop, |task.bRange|) && n <= |start.pop.wolves| && n <= |draws|
    requires AllDrawsFit(draws, |task.bRange|)
    ensures Shaped(st.pop, |task.bRange|) && |st.pop.wolves| == |start.pop.wolves|
    ensures NoWorse(st.pop, start.pop)
    ensures forall k :: n <= k < |start.pop.wolves| ==>
              st.pop.wolves[k] == start.pop.wolves[k] && st.pop.evals[k] == start.pop.evals[k]
    ensures Consistent(start.pop, task.eval) ==> Consistent(st.pop, task.eval)
  {
    if n == 0 then start
    else Step(task, num, c, Sweep(task, num, c, start, draws, n - 1), n - 1, draws[n - 1])
  }

  /** A record of the rounds of a sweep: `t[0]` is where it starts, and
      `t[i + 1]` is what the turn of the wolf in slot `i` makes of `t[i]`. */
  predicate IsTrace(task: Task, num: Numerics, c: Coeffs, t: seq<Round>, draws: seq<Draws>) {
    && 0 < |t| <= |draws| + 1
    && AllDrawsFit(draws, |task.bRange|)
    && (forall i :: 0 <= i < |t| ==> Shaped(t[i].pop, |task.bRange|) && |t[i].pop.wolves| == |t[0].pop.wolves|)
    && forall i {:trigger Step(task, num, c, t[i], i, draws[i])} ::
         0 <= i < |t| - 1 && i < |t[i].pop.wolves| ==> t[i + 1] == Step(task, num, c, t[i], i, draws[i])
  }

  /** The rounds of the sweep over the first `n` wolves: the start, then
      what each wolf's turn in index order makes of the round before. */
  function Trace(task: Task, num: Numerics, c: Coeffs, start: Round, draws: seq<Draws>, n: nat): (t: seq<Round>)
    requires Shaped(start.pop, |task.bRange|) && n <= |start.pop.wolves| && n <= |draws|
    requires AllDrawsFit(draws, |task.bRange|)
    ensures |t| == n + 1 && t[0] == start && IsTrace(task, num, c, t, draws)
  {
    if n == 0 then [start]
    else
      var prev := Trace(task, num, c, start, draws, n - 1);
      var next := Step(task, num, c, prev[n - 1], n - 1, draws[n - 1]);
      TraceExtend(task, num, c, prev, next, draws);
      prev + [next]
  }

  /** A record of a sweep extended by the next wolf's turn is one too. */
  lemma TraceExtend(task: Task, num: Numerics, c: Coeffs, t: seq<Round>, next: Round, draws: seq<Draws>)
    requires IsTrace(task, num, c, t, draws) && |t| <= |draws| && |t| - 1 < |t[0].pop.wolves|
    requires Shaped(next.pop, |task.bRange|) && |next.pop.wolves| == |t[0].pop.wolves|
    requires next == Step(task, num, c, t[|t| - 1], |t| - 1, draws[|t| - 1])
    ensures IsTrace(task, num, c, t + [next], draws)
  {
    var u := t + [next];
    forall i | 0 <= i < |u| - 1 && i < |u[i].pop.wolves|
      ensures u[i + 1] == Step(task, num, c, u[i], i, draws[i])
    {
      assert u[i] == t[i];
      if i < |t| - 1 {
        assert u[i + 1] == t[i + 1];
      }
    }
  }

  /** The last recorded round is the sweep itself. */
  lemma {:induction false} TraceEndsAtSweep(task: Task, num: Numerics, c: Coeffs, start: Round, draws: seq<Draws>, n: nat)
    requires Shaped(start.pop, |task.bRange|) && n <= |start.pop.wolves| && n <= |draws|
    requires AllDrawsFit(draws, |task.bRange|)
    ensures Trace(task, num, c, start, draws, n)[n] == Sweep(task, num, c, start, draws, n)
  {
    if n > 0 {
      TraceEndsAtSweep(task, num, c, start, draws, n - 1);
      TraceLast(task, num, c, start, draws, n);
      SweepLast(task, num, c, start, draws, n);
    }
  }

  lemma TraceLast(task: Task, num: Numerics, c: Coeffs, start: Round, draws: seq<Draws>, n: nat)
    requires Shaped(start.pop, |task.bRange|) && 0 < n <= |start.pop.wolves| && n <= |draws|
    requires AllDrawsFit(draws, |task.bRange|)
    ensures Trace(task, num, c, start, draws, n)[n]
            == Step(task, num, c, Trace(task, num, c, start, draws, n - 1)[n - 1], n - 1, draws[n - 1])
  {
  }

  lemma SweepLast(task: Task, num: Numerics, c: Coeffs, start: Round, draws: seq<Draws>, n: nat)
    requires Shaped(start.pop, |task.bRange|) && 0 < n <= |start.pop.wolves| && n <= |draws|
    requires AllDrawsFit(draws, |task.bRange|)
    ensures Sweep(task, num, c, start, draws, n)
            == Step(task, num, c, Sweep(task, num, c, start, draws, n - 1), n - 1, draws[n - 1])
  {
  }

  /** `runIteration` as a function: the sweep over every wolf from an
      accumulator of 0, then the global-best update. */
  function Iteration(task: Task, num: Numerics, c: Coeffs, p: Pop, xb: seq<real>, fxb: real, draws: seq<Draws>)
    : (res: (Pop, seq<real>, real))
    requires Shaped(p, |task.bRange|) && 0 < |p.wolves| <= |draws|
    requires AllDrawsFit(draws, |task.bRange|)
  {
    var fin := Sweep(task, num, c, Round(p, 0.0), draws, |p.wolves|).pop;
    var (xb', fxb') := GlobalBest(fin, xb, fxb);
    (fin, xb', fxb')
  }

  /** After an iteration every fitness is at most its value before, the
      global best fitness is at most its value before and at most every
      fitness of the new population. It is replaced exactly when some new
      fitness is strictly below it, and then it is the least new fitness and
      its vector the wolf of the first slot holding it. */
  lemma IterationSpec(task: Task, num: Numerics, c: Coeffs, p: Pop, xb: seq<real>, fxb: real, draws: seq<Draws>)
    requires Shaped(p, |task.bRange|) && 0 < |p.wolves| <= |draws|
    requires AllDrawsFit(draws, |task.bRange|)
    ensures var (q, xb', fxb') := Iteration(task, num, c, p, xb, fxb, draws);
      && Shaped(q, |task.bRange|) && |q.wolves| == |p.wolves|
      && (forall k :: 0 <= k < |p.evals| ==> q.evals[k] <= p.evals[k])
      && fxb' <= fxb
      && (forall k :: 0 <= k < |q.evals| ==> fxb' <= q.evals[k])
      && ((exists k :: 0 <= k < |q.evals| && q.evals[k] < fxb) <==> fxb' < fxb)
      && (fxb' < fxb ==>
            exists k :: 0 <= k < |q.evals| && q.evals[k] == fxb' && q.wolves[k] == xb'
                        && forall i :: 0 <= i < k ==> fxb' < q.evals[i])
      && (fxb' == fxb ==> xb' == xb)
  {
    var q := Sweep(task, num, c, Round(p, 0.0), draws, |p.wolves|).pop;
    GlobalBestSpec(q, xb, fxb);
  }
}
