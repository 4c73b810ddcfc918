/** The fault-isolated sampling loop shared by both pipelines: each grid point
    is evaluated in its own `try`, and a point that raises an Exception becomes
    NaN. app.py also turns a complex result into NaN; Calculus_plotter.py keeps
    it. A BaseException outside Exception is not caught by either loop and
    aborts the whole sweep. */
module Sampler {
  import opened Wrappers
  import opened Evaluation

  /** What a loop does with a complex result. */
  datatype ComplexPolicy = ComplexToNaN | KeepComplex

  /** The outcomes that a loop records as NaN. */
  predicate Undefined(policy: ComplexPolicy, o: Outcome) {
    || (o.Raises? && o.e.IsException())
    || (o.Returns? && o.v.Complex? && policy == ComplexToNaN)
  }

  /** The body of one loop iteration: the entry appended to `y_values`, or
      the exception that escapes the loop. */
  function Absorb(policy: ComplexPolicy, o: Outcome): (r: Result<Sample, Exc>)
    ensures r.Failure? <==> Escapes(o)
    ensures r.Failure? ==> r.error == o.e
    ensures r.Success? ==> (r.value.NaN? <==> Undefined(policy, o))
    ensures r.Success? && !r.value.NaN? ==> r.value.v == o.v
  {
    match o
    case Raises(e) => if e.IsException() then Success(NaN) else Failure(e)
    case Returns(v) =>
      if v.Complex? && policy == ComplexToNaN then Success(NaN) else Success(Num(v))
  }

  /** The loop `for x_val in x_values: ...` over the whole grid. */
  function Sweep(policy: ComplexPolicy, f: real -> Outcome, xs: seq<real>): (r: Result<seq<Sample>, Exc>)
    ensures r.Success? <==> forall i :: 0 <= i < |xs| ==> !Escapes(f(xs[i]))
    ensures r.Success? ==> |r.value| == |xs|
    ensures r.Success? ==> forall i :: 0 <= i < |xs| ==>
      && (r.value[i].NaN? <==> Undefined(policy, f(xs[i])))
      && (!r.value[i].NaN? ==> r.value[i].v == f(xs[i]).v)
    ensures r.Failure? ==> exists k :: 0 <= k < |xs| && FirstEscape(f, xs, k) && r.error == f(xs[k]).e
    decreases |xs|
  {
    if xs == [] then Success([])
    else
      match Absorb(policy, f(xs[0]))
      case Failure(e) =>
        assert FirstEscape(f, xs, 0);
        Failure(e)
      case Success(y) =>
        match Sweep(policy, f, xs[1..])
        case Failure(e) =>
          var k :| 0 <= k < |xs| - 1 && FirstEscape(f, xs[1..], k) && e == f(xs[1..][k]).e;
          assert FirstEscape(f, xs, k + 1);
          Failure(e)
        case Success(ys) =>
          assert forall i :: 1 <= i < |xs| ==> xs[i] == xs[1..][i - 1];
          Success([y] + ys)
  }

  /** Index `k` is the first grid point whose evaluation escapes. */
  predicate FirstEscape(f: real -> Outcome, xs: seq<real>, k: int)
    requires 0 <= k < |xs|
  {
    Escapes(f(xs[k])) && forall j :: 0 <= j < k ==> !Escapes(f(xs[j]))
  }

  /** A point's failure touches only its own entry: two evaluators that agree
      everywhere on the grid except at index k give sweeps that agree
      everywhere except at k. */
  lemma FailureIsIsolated(policy: ComplexPolicy, f: real -> Outcome, g: real -> Outcome, xs: seq<real>, k: nat)
    requires k < |xs|
    requires forall j :: 0 <= j < |xs| && j != k ==> f(xs[j]) == g(xs[j])
    requires Sweep(policy, f, xs).Success? && Sweep(policy, g, xs).Success?
    ensures forall j :: 0 <= j < |xs| && j != k ==> Sweep(policy, f, xs).value[j] == Sweep(policy, g, xs).value[j]
  {
  }

  /** A sweep where every point raises an Exception is a valid, all-NaN
      series of full length rather than an error. */
  lemma AllFailingIsAllNaN(policy: ComplexPolicy, f: real -> Outcome, xs: seq<real>)
    requires forall i :: 0 <= i < |xs| ==> f(xs[i]).Raises? && f(xs[i]).e.IsException()
    ensures Sweep(policy, f, xs).Success?
    ensures Sweep(policy, f, xs).value == seq(|xs|, _ => NaN)
  {
  }
}
