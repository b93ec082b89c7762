/** The population of wolves as a value: the two parallel collections
    `Wolves` (one vector per slot) and `Evaluations` (one fitness per slot),
    and the single way an iteration changes them, `updateIfBetter`.
 */
module WsaPopulation {

  /** A snapshot of the population: wolf `k` is `wolves[k]`, its fitness
      `evals[k]`. */
  datatype Pop = Pop(wolves: seq<seq<real>>, evals: seq<real>)

  /** The shape a 2-D population array has: parallel collections of the same
      length, every wolf a vector of dimension `dim`. */
  predicate Shaped(p: Pop, dim: nat) {
    && |p.wolves| == |p.evals|
    && forall k :: 0 <= k < |p.wolves| ==> |p.wolves[k]| == dim
  }

  /** Every stored fitness is the objective's value at its stored wolf. */
  predicate Consistent(p: Pop, eval: seq<real> -> real) {
    && |p.wolves| == |p.evals|
    && forall k :: 0 <= k < |p.wolves| ==> p.evals[k] == eval(p.wolves[k])
  }

  /** Slot-wise improvement: no fitness of `q` is above the one of `p` in the
      same slot. */
  predicate NoWorse(q: Pop, p: Pop) {
    && |q.evals| == |p.evals|
    && forall k :: 0 <= k < |p.evals| ==> q.evals[k] <= p.evals[k]
  }

  /** `updateIfBetter`: evaluate the candidate and store it, with its
      fitness, in slot `index` only when it is strictly better than what the
      slot holds. */
  function Update(p: Pop, eval: seq<real> -> real, candidate: seq<real>, index: nat): (q: Pop)
    requires index < |p.wolves| == |p.evals|
    ensures |q.wolves| == |p.wolves| && |q.evals| == |p.evals|
    ensures eval(candidate) < p.evals[index] ==>
              q.wolves[index] == candidate && q.evals[index] == eval(candidate)
    ensures !(eval(candidate) < p.evals[index]) ==> q == p
    ensures q.evals[index] <= p.evals[index]
    ensures forall k :: 0 <= k < |p.wolves| && k != index ==>
              q.wolves[k] == p.wolves[k] && q.evals[k] == p.evals[k]
  {
    var fitness := eval(candidate);
    if fitness < p.evals[index] then
      Pop(p.wolves[index := candidate], p.evals[index := fitness])
    else
      p
  }

  /** An update never worsens a slot and keeps the population's shape when
      the candidate has the wolves' dimension. */
  lemma UpdateKeepsShape(p: Pop, eval: seq<real> -> real, candidate: seq<real>, index: nat, dim: nat)
    requires Shaped(p, dim) && index < |p.wolves| && |candidate| == dim
    ensures Shaped(Update(p, eval, candidate, index), dim)
    ensures NoWorse(Update(p, eval, candidate, index), p)
  {
    var q := Update(p, eval, candidate, index);
    forall k | 0 <= k < |q.wolves| ensures |q.wolves[k]| == dim {
      if k != index {
        assert q.wolves[k] == p.wolves[k];
      }
    }
  }

  /** An update stores the candidate together with its own fitness, so a
      consistent population stays consistent. */
  lemma UpdateKeepsConsistency(p: Pop, eval: seq<real> -> real, candidate: seq<real>, index: nat)
    requires Consistent(p, eval) && index < |p.wolves|
    ensures Consistent(Update(p, eval, candidate, index), eval)
  {
    var q := Update(p, eval, candidate, index);
    forall k | 0 <= k < |q.wolves| ensures q.evals[k] == eval(q.wolves[k]) {
      if k != index {
        assert q.wolves[k] == p.wolves[k] && q.evals[k] == p.evals[k];
      }
    }
  }
}
