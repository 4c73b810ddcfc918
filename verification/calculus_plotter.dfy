/** `plot_function` of Calculus_plotter.py: a callable check, `float()` on
    both bounds, the range check, a 100-point fault-isolated sweep that keeps
    complex results, and label defaults. Matplotlib and the per-point warning
    print are outside the model: a call ends in a raised exception or in the
    data handed to the plot. */
module CalculusPlotter {
  import opened Wrappers
  import opened Evaluation
  import Grid
  import Sampler
  import WebApp

  /** The `func` argument: anything that is not callable, or a callable
      whose behaviour on one float is given by the evaluator. */
  datatype Callee = NotCallable | Callable(call: real -> Outcome)

  /** How a call ends: an exception raised out of `plot_function`, or the
      plotted data. */
  datatype PlotResult = Raised(e: Exc) | Drawn(xs: seq<real>, ys: seq<Sample>, labels: WebApp.Labels)

  const SampleCount: nat := 100
  const NotCallableMessage := "The provided 'func' argument is not a callable function."
  const NotNumericMessage := "Both 'x_min' and 'x_max' must be convertible to numbers."
  const BadRangeMessage := "'x_max' must be greater than 'x_min'."

  /** `float(value)` under `except ValueError`: a ValueError is replaced by
      the function's own, any other exception passes through unchanged. */
  function ToBound(converted: Result<real, Exc>): (r: Result<real, Exc>)
    // A conversion fails exactly when float() raised, and a converted value is kept.
    ensures r.Failure? <==> converted.Failure?
    ensures r.Success? ==> r.value == converted.value
    // The exception family is preserved, so the same outer except clause catches it.
    ensures r.Failure? ==> r.error.kind == converted.error.kind
    // Only a ValueError's message is replaced; any other exception is passed on as raised.
    ensures r.Failure? ==> (r.error.message == NotNumericMessage <== r.error.kind.ValueError?)
    ensures r.Failure? && !r.error.kind.ValueError? ==> r.error == converted.error
  {
    match converted
    case Success(x) => Success(x)
    case Failure(e) => if e.kind.ValueError? then Failure(Exc(ValueError, NotNumericMessage)) else Failure(e)
  }

  /** `xlabel if xlabel else "x"` and its siblings: the same label as app.py's
      `form.get(key, default)` followed by `value if value else default`. */
  function Label(given: Option<string>, default: string): (shown: string)
    requires default != ""
    ensures shown == WebApp.Label(given, default)
  {
    if WebApp.Truthy(given) then given.value else default
  }

  /** The whole function. `toFloat` stands for Python's `float()` on a bound. */
  function PlotFunction<B>(func: Callee, xMin: B, xMax: B,
                           title: Option<string>, xlabel: Option<string>, ylabel: Option<string>,
                           toFloat: B -> Result<real, Exc>): (r: PlotResult)
    // Not callable: TypeError, before either bound is converted.
    ensures func.NotCallable? ==> r == Raised(Exc(TypeError, NotCallableMessage))
    // Conversion failures, x_min first, before the range check.
    ensures func.Callable? && toFloat(xMin).Failure? ==> r == Raised(ToBound(toFloat(xMin)).error)
    ensures func.Callable? && toFloat(xMin).Success? && toFloat(xMax).Failure? ==>
      r == Raised(ToBound(toFloat(xMax)).error)
    // Range check, before any sampling.
    ensures func.Callable? && toFloat(xMin).Success? && toFloat(xMax).Success? ==>
      (toFloat(xMax).value <= toFloat(xMin).value ==> r == Raised(Exc(ValueError, BadRangeMessage)))
    // Past the checks, only an exception outside Exception prevents the plot.
    ensures func.Callable? && toFloat(xMin).Success? && toFloat(xMax).Success? ==>
      var lo, hi := toFloat(xMin).value, toFloat(xMax).value;
      lo < hi ==> (r.Drawn? <==> forall i :: 0 <= i < SampleCount ==> !Escapes(func.call(Grid.Linspace(lo, hi, SampleCount)[i])))
    // An exception that escapes the sweep is the first grid point's.
    ensures func.Callable? && toFloat(xMin).Success? && toFloat(xMax).Success? ==>
      var lo, hi := toFloat(xMin).value, toFloat(xMax).value;
      lo < hi && r.Raised? ==> exists k :: (
        && 0 <= k < SampleCount
        && Sampler.FirstEscape(func.call, Grid.Linspace(lo, hi, SampleCount), k)
        && r.e == func.call(Grid.Linspace(lo, hi, SampleCount)[k]).e)
    ensures r.Drawn? ==>
      var lo, hi := toFloat(xMin).value, toFloat(xMax).value;
      && func.Callable? && lo < hi
      && |r.xs| == SampleCount && r.xs[0] == lo && r.xs[SampleCount - 1] == hi
      && (forall i, j :: 0 <= i < j < SampleCount ==> r.xs[i] < r.xs[j])
      && (forall i :: 0 <= i < SampleCount - 1 ==> r.xs[i + 1] - r.xs[i] == Grid.Step(lo, hi, SampleCount))
      && |r.ys| == |r.xs|
      && (forall i :: 0 <= i < SampleCount ==>
            && !Escapes(func.call(r.xs[i]))
            && (r.ys[i].NaN? <==> func.call(r.xs[i]).Raises?)
            && (!r.ys[i].NaN? ==> r.ys[i].v == func.call(r.xs[i]).v))
      && r.labels == WebApp.Labels(Label(title, WebApp.DefaultTitle), Label(xlabel, WebApp.DefaultXLabel), Label(ylabel, WebApp.DefaultYLabel))
  {
    if func.NotCallable? then Raised(Exc(TypeError, NotCallableMessage))
    else match (ToBound(toFloat(xMin)), ToBound(toFloat(xMax)))
      case (Failure(e), _) => Raised(e)
      case (_, Failure(e)) => Raised(e)
      case (Success(lo), Success(hi)) =>
        if hi <= lo then Raised(Exc(ValueError, BadRangeMessage))
        else
          var xs := Grid.Linspace(lo, hi, SampleCount);
          Grid.Ascending(lo, hi, SampleCount);
          match Sampler.Sweep(Sampler.KeepComplex, func.call, xs)
          case Failure(e) => Raised(e)
          case Success(ys) =>
            Drawn(xs, ys, WebApp.Labels(Label(title, WebApp.DefaultTitle), Label(xlabel, WebApp.DefaultXLabel), Label(ylabel, WebApp.DefaultYLabel)))
  }

  /** The module's second demo samples [-2, 2] with 100 points; the grid
      step is 4/99, so x = 0 is not a grid point. */
  lemma DemoGridMissesZero()
    ensures forall i :: 0 <= i < SampleCount ==> Grid.Linspace(-2.0, 2.0, SampleCount)[i] != 0.0
  {
  }

  /** `float()` on a bound that is already a float: the value itself. */
  function FloatOfFloat(b: real): Result<real, Exc> {
    Success(b)
  }

  /** Consequently a function that raises only at x == 0, as the demo's
      `problematic_func` does, raises nowhere on that grid: no point is NaN
      and no warning is printed. */
  lemma DemoHasNoFailingPoint(call: real -> Outcome, title: Option<string>, xlabel: Option<string>, ylabel: Option<string>)
    requires forall x :: x != 0.0 ==> call(x).Returns?
    ensures var r := PlotFunction(Callable(call), -2.0, 2.0, title, xlabel, ylabel, FloatOfFloat);
      && r.Drawn?
      && forall i :: 0 <= i < SampleCount ==> r.ys[i] == Num(call(r.xs[i]).v)
  {
    var xs := Grid.Linspace(-2.0, 2.0, SampleCount);
    DemoGridMissesZero();
    assert forall i :: 0 <= i < SampleCount ==> !Escapes(call(xs[i]));
    var r := PlotFunction(Callable(call), -2.0, 2.0, title, xlabel, ylabel, FloatOfFloat);
    assert r.Drawn?;
    assert forall i :: 0 <= i < SampleCount ==> call(r.xs[i]).Returns?;
  }
}
