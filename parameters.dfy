/** Parameter values and the validators of the Wolf Search Algorithm.

    The algorithm's parameters arrive as Python values, and the validators
    test both the Python type (`isinstance(x, float)`) and the range. A
    Python value is modelled by a tag: an int, a float (a finite real) or
    anything else.
 */
module WsaParameters {

  /** A Python value as the validators see it. `PyInt` also covers `bool`,
      which Python treats as an int. */
  datatype PyValue = PyInt(i: int) | PyFloat(x: real) | PyOther

  /** A value Python arithmetic accepts: an int or a float. */
  predicate IsNumber(v: PyValue) {
    v.PyInt? || v.PyFloat?
  }

  /** The real a number stands for; an int 1 and a float 1.0 stand for the same. */
  function Num(v: PyValue): (x: real)
    requires IsNumber(v)
    ensures v.PyInt? ==> x == v.i as real
    ensures v.PyFloat? ==> x == v.x
  {
    match v
    case PyInt(i) => i as real
    case PyFloat(f) => f
  }

  /** `isinstance(x, float) and x > 0`: the test applied to r, s and alpha. */
  predicate IsPositiveFloat(v: PyValue) {
    v.PyFloat? && v.x > 0.0
  }

  /** `isinstance(x, float) and 0 <= x <= 1`: the test applied to pa. */
  predicate IsProbability(v: PyValue) {
    v.PyFloat? && 0.0 <= v.x <= 1.0
  }

  /** The population-size test the base class contributes under "NP", as the
      tests pin it down: a positive Python int, nothing else. */
  predicate IsPositiveInt(v: PyValue) {
    v.PyInt? && v.i > 0
  }

  type Validators = map<string, PyValue -> bool>

  /** `typeParameters`: the base class's dictionary of validators, updated
      with the four entries of this algorithm. Entries of the base dictionary
      under other names are kept as they are. */
  function TypeParameters(base: Validators): (d: Validators)
    ensures d.Keys == base.Keys + {"r", "s", "alpha", "pa"}
    ensures forall k :: k in base && k !in {"r", "s", "alpha", "pa"} ==> d[k] == base[k]
    ensures forall v: PyValue :: d["r"](v) == d["s"](v) == d["alpha"](v) == (v.PyFloat? && v.x > 0.0)
    ensures forall v: PyValue :: d["pa"](v) == (v.PyFloat? && 0.0 <= v.x && v.x <= 1.0)
  {
    base["r" := IsPositiveFloat]["s" := IsPositiveFloat]["alpha" := IsPositiveFloat]["pa" := IsProbability]
  }

  /** The outcomes the test suite expects of the validators: the float 1.0
      passes where the int 1 fails, 0.0 and -1.0 fail the strict tests,
      and pa admits both ends of [0, 1] but not 1.1. The "NP" entry comes
      from the base class; given the population-size test above it accepts
      1 and rejects 0, -1 and 1.0. */
  lemma TypeParametersAgreeWithTests(base: Validators)
    requires "NP" in base && base["NP"] == IsPositiveInt
    ensures var tp := TypeParameters(base);
      && tp["NP"](PyInt(1)) && !tp["NP"](PyInt(0)) && !tp["NP"](PyInt(-1)) && !tp["NP"](PyFloat(1.0))
      && (forall name :: name in {"r", "s", "alpha"} ==>
            tp[name](PyFloat(1.0)) && !tp[name](PyFloat(0.0)) && !tp[name](PyFloat(-1.0)) && !tp[name](PyInt(1)))
      && tp["pa"](PyFloat(1.0)) && tp["pa"](PyFloat(0.5)) && tp["pa"](PyFloat(0.0))
      && !tp["pa"](PyFloat(-1.0)) && !tp["pa"](PyFloat(1.1)) && !tp["pa"](PyInt(1))
  {
    var tp := TypeParameters(base);
    assert tp["NP"] == IsPositiveInt;
    forall name | name in {"r", "s", "alpha"}
      ensures tp[name](PyFloat(1.0)) && !tp[name](PyFloat(0.0)) && !tp[name](PyFloat(-1.0)) && !tp[name](PyInt(1))
    {
      assert name == "r" || name == "s" || name == "alpha";
    }
  }

  /** The keyword defaults of `setParameters`: NP=10, r=1, s=0.2, alpha=1,
      pa=0.2, with r and alpha written as Python ints. */
  const DefaultNP: PyValue := PyInt(10)
  const DefaultR: PyValue := PyInt(1)
  const DefaultS: PyValue := PyFloat(0.2)
  const DefaultAlpha: PyValue := PyInt(1)
  const DefaultPa: PyValue := PyFloat(0.2)

  /** The defaults for r and alpha are ints, so the algorithm's own validators
      reject them, while the defaults for NP, s and pa pass. The arithmetic of
      an iteration treats the int 1 as the real 1 all the same. */
  lemma DefaultsAgainstValidators(base: Validators)
    requires "NP" in base && base["NP"] == IsPositiveInt
    ensures var tp := TypeParameters(base);
      && tp["NP"](DefaultNP) && tp["s"](DefaultS) && tp["pa"](DefaultPa)
      && !tp["r"](DefaultR) && !tp["alpha"](DefaultAlpha)
      && Num(DefaultR) == Num(PyFloat(1.0)) && Num(DefaultAlpha) == Num(PyFloat(1.0))
  {
    var tp := TypeParameters(base);
    assert tp["NP"] == IsPositiveInt;
  }
}
