/** The `/plot` request handler of app.py (`plot_view`): ordered validation of
    the form, a smoke evaluation at `x = 1` that sorts failures into three
    error kinds, a 200-point fault-isolated sweep that also turns complex
    results into NaN, and label defaults. Flask, the template and Matplotlib
    are outside the model: a request ends in an error kind or in the data
    handed to the plot. */
module WebApp {
  import opened Wrappers
  import opened Evaluation
  import Text
  import Grid
  import Sampler

  /** The submitted form; a field absent from the POST body is None. */
  datatype Form = Form(
    functionString: Option<string>,
    xMin: Option<string>,
    xMax: Option<string>,
    title: Option<string>,
    xlabel: Option<string>,
    ylabel: Option<string>)

  /** The error messages the handler can render, by kind. */
  datatype ErrorKind =
    | EmptyFunction             // the function string is missing or empty
    | MissingBounds             // x_min or x_max is missing or empty
    | BadNumber                 // a bound is not accepted by float()
    | BadRange                  // x_max <= x_min
    | SyntaxRejected            // SyntaxError at the smoke test
    | NameRejected(name: string) // NameError at the smoke test, with the offending name
    | ParseFailed(message: string) // any other Exception at the smoke test, with str(e)

  /** The labels the figure is drawn with. */
  datatype Labels = Labels(title: string, xlabel: string, ylabel: string)

  /** How a request ends: an error page, a plot, or an exception that no
      handler catches (a BaseException outside Exception raised by `eval`). */
  datatype Response =
    | Error(failure: ErrorKind)
    | Plot(xs: seq<real>, ys: seq<Sample>, labels: Labels, pageTitle: string)
    | Uncaught(e: Exc)

  const SampleCount: nat := 200
  const DefaultTitle := "Plot of the function"
  const DefaultXLabel := "x"
  const DefaultYLabel := "y"
  const UnknownName := "an unknown function or variable"

  /** Python truthiness of an optional string. */
  predicate Truthy(field: Option<string>) {
    field.Some? && field.value != ""
  }

  /** `form.get(key, default)` followed by `value if value else default`. */
  function Label(field: Option<string>, default: string): (shown: string)
    requires default != ""
    ensures shown != ""
    ensures Truthy(field) ==> shown == field.value
    ensures !Truthy(field) ==> shown == default
  {
    var given := field.GetOr(default);
    if given != "" then given else default
  }

  /** The name reported for a NameError: the second field of `str(e)` split
      on single quotes, or a fixed phrase when the message has no quote. */
  function UndefinedName(message: string): (name: string)
    ensures '\'' !in name
    ensures '\'' !in message ==> name == UnknownName
  {
    if '\'' in message then
      Text.OccursIffCounted(message, '\'');
      Text.Split(message, '\'')[1]
    else UnknownName
  }

  /** When the first quote of the message is at index `k`, the reported
      name is the text after it up to the next quote, or to the end. */
  lemma UndefinedNameIsFirstQuoted(message: string, k: nat)
    requires k < |message| && message[k] == '\'' && '\'' !in message[..k]
    ensures var name := UndefinedName(message);
      && k + 1 + |name| <= |message|
      && message[k + 1 .. k + 1 + |name|] == name
      && (k + 1 + |name| == |message| || message[k + 1 + |name|] == '\'')
  {
    assert '\'' in message;
    var parts := Text.Split(message, '\'');
    Text.OccursIffCounted(message, '\'');
    Text.FirstField(message, '\'');
    var before := parts[0];
    assert '\'' !in before;
    assert |before| == k by {
      assert forall i :: 0 <= i < |before| ==> message[i] == before[i];
      assert forall i :: 0 <= i < k ==> message[..k][i] == message[i];
    }
    var after := message[k + 1..];
    assert parts[1] == Text.Split(after, '\'')[0];
    Text.FirstField(after, '\'');
    var name := parts[1];
    assert after[..|name|] == name;
    assert message[k + 1 .. k + 1 + |name|] == after[..|name|];
  }

  /** A request that passed the form checks: the function string and the
      parsed bounds. */
  datatype Request = Request(functionString: string, lo: real, hi: real)

  /** The form checks of `plot_view`, in the order the handler makes them:
      the function string, the presence of both bounds, `float()` on both
      bounds, and the range. `parse` stands for `float()` on a string. */
  function Validate(form: Form, parse: string -> Option<real>): (r: Result<Request, ErrorKind>)
    ensures !Truthy(form.functionString) ==> r == Failure(EmptyFunction)
    ensures Truthy(form.functionString) && !(Truthy(form.xMin) && Truthy(form.xMax)) ==>
      r == Failure(MissingBounds)
    ensures Truthy(form.functionString) && Truthy(form.xMin) && Truthy(form.xMax) ==>
      && (parse(form.xMin.value).None? || parse(form.xMax.value).None? <==> r == Failure(BadNumber))
      && (r == Failure(BadRange) <==>
            parse(form.xMin.value).Some? && parse(form.xMax.value).Some?
            && parse(form.xMax.value).value <= parse(form.xMin.value).value)
    // A form that passes all four checks is accepted with its parsed bounds.
    ensures (&& Truthy(form.functionString) && Truthy(form.xMin) && Truthy(form.xMax)
             && parse(form.xMin.value).Some? && parse(form.xMax.value).Some?
             && parse(form.xMin.value).value < parse(form.xMax.value).value) ==>
      r == Success(Request(form.functionString.value, parse(form.xMin.value).value, parse(form.xMax.value).value))
    ensures r.Success? ==>
      && form.functionString == Some(r.value.functionString) && r.value.functionString != ""
      && Truthy(form.xMin) && parse(form.xMin.value) == Some(r.value.lo)
      && Truthy(form.xMax) && parse(form.xMax.value) == Some(r.value.hi)
      && r.value.lo < r.value.hi
  {
    if !Truthy(form.functionString) then Failure(EmptyFunction)
    else if !Truthy(form.xMin) || !Truthy(form.xMax) then Failure(MissingBounds)
    else match (parse(form.xMin.value), parse(form.xMax.value))
      case (Some(lo), Some(hi)) =>
        if hi <= lo then Failure(BadRange)
        else Success(Request(form.functionString.value, lo, hi))
      case _ => Failure(BadNumber)
  }

  /** How the `except` clauses around the smoke test treat an exception. */
  function SmokeFailure(e: Exc): (r: Response)
    ensures r.Uncaught? <==> !e.IsException()
    ensures r.Uncaught? ==> r.e == e
    ensures r == Error(SyntaxRejected) <==> e.kind.SyntaxError?
    ensures r.Error? && r.failure.NameRejected? <==> e.kind.NameError?
    ensures e.kind.NameError? ==> r.failure.name == UndefinedName(e.message)
    ensures r.Error? && r.failure.ParseFailed? <==>
      e.IsException() && !e.kind.SyntaxError? && !e.kind.NameError?
    ensures r.Error? && r.failure.ParseFailed? ==> r.failure.message == e.message
  {
    match e.kind
    case SyntaxError => Error(SyntaxRejected)
    case NameError => Error(NameRejected(UndefinedName(e.message)))
    case BaseOnly => Uncaught(e)
    case _ => Error(ParseFailed(e.message))
  }

  /** The user's expression as a function of the sampled x (a numpy float). */
  function AtFloat(eval: (string, Arg) -> Outcome, functionString: string): real -> Outcome {
    x => eval(functionString, Float(x))
  }

  /** The sampling grid of a validated request: `np.linspace(x_min, x_max, 200)`. */
  function GridOf(req: Request): (xs: seq<real>)
    requires req.lo < req.hi
    ensures |xs| == SampleCount && xs[0] == req.lo && xs[SampleCount - 1] == req.hi
    ensures forall i :: 0 <= i < SampleCount - 1 ==> xs[i + 1] - xs[i] == Grid.Step(req.lo, req.hi, SampleCount)
    ensures forall i, j :: 0 <= i < j < SampleCount ==> xs[i] < xs[j]
  {
    Grid.Ascending(req.lo, req.hi, SampleCount);
    Grid.Linspace(req.lo, req.hi, SampleCount)
  }

  /** What follows a passed smoke test: the 200-point sweep and the labels. */
  function Draw(form: Form, req: Request, eval: (string, Arg) -> Outcome): (r: Response)
    requires req.lo < req.hi
    ensures !r.Error?
    ensures r.Plot? <==> forall i :: 0 <= i < SampleCount ==> !Escapes(eval(req.functionString, Float(GridOf(req)[i])))
    ensures r.Uncaught? ==> exists k :: (
      && 0 <= k < SampleCount
      && Sampler.FirstEscape(AtFloat(eval, req.functionString), GridOf(req), k)
      && r.e == eval(req.functionString, Float(GridOf(req)[k])).e)
    ensures r.Plot? ==>
      && r.xs == GridOf(req) && |r.ys| == SampleCount
      && (forall i :: 0 <= i < SampleCount ==>
            && (r.ys[i].NaN? <==> Sampler.Undefined(Sampler.ComplexToNaN, eval(req.functionString, Float(r.xs[i]))))
            && (!r.ys[i].NaN? ==> r.ys[i].v == eval(req.functionString, Float(r.xs[i])).v))
      && r.labels == Labels(Label(form.title, DefaultTitle), Label(form.xlabel, DefaultXLabel), Label(form.ylabel, DefaultYLabel))
      && r.pageTitle == form.title.GetOr(DefaultTitle)
  {
    var xs := GridOf(req);
    var f := AtFloat(eval, req.functionString);
    assert forall i :: 0 <= i < |xs| ==> f(xs[i]) == eval(req.functionString, Float(xs[i]));
    match Sampler.Sweep(Sampler.ComplexToNaN, f, xs)
    case Failure(e) => Uncaught(e)
    case Success(ys) =>
      var labels := Labels(Label(form.title, DefaultTitle), Label(form.xlabel, DefaultXLabel), Label(form.ylabel, DefaultYLabel));
      Plot(xs, ys, labels, form.title.GetOr(DefaultTitle))
  }

  /** The whole handler. `eval` stands for Python's `eval` of the function
      string with `x` bound to the given value. */
  function PlotView(form: Form, parse: string -> Option<real>, eval: (string, Arg) -> Outcome): (r: Response)
    // Form errors are decided before the expression is evaluated at all.
    ensures Validate(form, parse).Failure? ==> r == Error(Validate(form, parse).error)
    // The smoke test at the integer 1 sorts its exception; no plot follows.
    ensures Validate(form, parse).Success? && eval(form.functionString.value, Int(1)).Raises? ==>
      r == SmokeFailure(eval(form.functionString.value, Int(1)).e)
    // Past the smoke test, only an escaping exception prevents the plot.
    ensures Validate(form, parse).Success? && eval(form.functionString.value, Int(1)).Returns? ==>
      && !r.Error?
      && (r.Plot? <==> forall i :: 0 <= i < SampleCount ==>
            !Escapes(eval(form.functionString.value, Float(GridOf(Validate(form, parse).value)[i]))))
    // An exception that escapes the sweep is the first grid point's.
    ensures Validate(form, parse).Success? && eval(form.functionString.value, Int(1)).Returns? && r.Uncaught? ==>
      var req := Validate(form, parse).value;
      exists k :: (
        && 0 <= k < SampleCount
        && Sampler.FirstEscape(AtFloat(eval, req.functionString), GridOf(req), k)
        && r.e == eval(req.functionString, Float(GridOf(req)[k])).e)
    ensures r.Plot? ==>
      var req := Validate(form, parse).value;
      && r.xs == GridOf(req)
      && |r.xs| == SampleCount && r.xs[0] == req.lo && r.xs[SampleCount - 1] == req.hi
      && (forall i :: 0 <= i < SampleCount - 1 ==> r.xs[i + 1] - r.xs[i] == Grid.Step(req.lo, req.hi, SampleCount))
      && (forall i, j :: 0 <= i < j < SampleCount ==> r.xs[i] < r.xs[j])
      && (forall i :: 0 <= i < SampleCount ==> !Escapes(eval(req.functionString, Float(r.xs[i]))))
      && |r.ys| == SampleCount
      && (forall i :: 0 <= i < SampleCount ==>
            && (r.ys[i].NaN? <==> Sampler.Undefined(Sampler.ComplexToNaN, eval(req.functionString, Float(r.xs[i]))))
            && (!r.ys[i].NaN? ==> r.ys[i].v == eval(req.functionString, Float(r.xs[i])).v))
    ensures r.Plot? ==>
      && r.labels == Labels(Label(form.title, DefaultTitle), Label(form.xlabel, DefaultXLabel), Label(form.ylabel, DefaultYLabel))
      && r.pageTitle == form.title.GetOr(DefaultTitle)
  {
    match Validate(form, parse)
    case Failure(f) => Error(f)
    case Success(req) =>
      match eval(req.functionString, Int(1))
      case Raises(e) => SmokeFailure(e)
      case Returns(_) => Draw(form, req, eval)
  }

  /** The smoke test binds the integer 1 while the sweep binds floats, so an
      expression that works on the integer and raises on every float (as
      `x^2` does: `^` is defined on ints only) passes the smoke test and
      yields a plot whose every y is NaN. */
  lemma SmokeDoesNotGuardSamples(form: Form, parse: string -> Option<real>, eval: (string, Arg) -> Outcome)
    requires Validate(form, parse).Success?
    requires eval(form.functionString.value, Int(1)).Returns?
    requires forall x: real {:trigger Float(x)} ::
      eval(form.functionString.value, Float(x)).Raises? && eval(form.functionString.value, Float(x)).e.IsException()
    ensures PlotView(form, parse, eval).Plot?
    ensures forall i :: 0 <= i < SampleCount ==> PlotView(form, parse, eval).ys[i] == NaN
  {
  }

  /** The title shown above the page is the raw field (defaulted only when
      absent); it differs from the figure title exactly when the field was
      submitted empty. */
  lemma PageTitleDiffersOnlyWhenEmpty(form: Form, parse: string -> Option<real>, eval: (string, Arg) -> Outcome)
    requires PlotView(form, parse, eval).Plot?
    ensures var r := PlotView(form, parse, eval);
      r.pageTitle != r.labels.title <==> form.title == Some("")
  {
  }
}
