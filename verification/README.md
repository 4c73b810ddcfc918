# Calculus plotter: a Dafny model of the plotting pipeline

The repository plots a user-supplied function of one variable. Two entry
points share one pipeline shape:

- `plot_view` in `app.py`, the `/plot` handler of the Flask application. It
  checks the form in a fixed order (function string, presence of both bounds,
  `float()` on both bounds, `x_max > x_min`), evaluates the expression once
  with `x = 1` and sorts a failure into a syntax error, a disallowed name (the
  name being cut out of the exception message) or a generic parse error, then
  samples 200 evenly spaced points, recording NaN wherever evaluation raises
  or returns a complex number, and finally defaults the title and axis labels.
- `plot_function` in `Calculus_plotter.py`, a library function: a callable
  check, `float()` on both bounds, the range check, 100 fault-isolated samples
  (complex results are kept), and label defaults.

The model treats the parts it cannot see as parameters: Python's `eval` of the
function string (with `x` bound to a value) is a total function returning
`Returns(value)` or `Raises(exception)`; `float()` on a string is a partial
function `string -> Option<real>`; `float()` on an arbitrary bound of
`plot_function` returns a value or raises; the caller's `func` is a function
`real -> Outcome`. `np.linspace` is computed over the reals. A request ends in
an error kind, an uncaught exception, or the data handed to Matplotlib.

Modules:

- `Wrappers` (`wrappers.dfy`): `Option` (a Python value that may be None) and `Result`.
- `Evaluation` (`evaluation.dfy`): exception families, evaluator outcomes,
  the value bound to `x` (the Python int 1 of the smoke test versus the numpy
  floats of the sweep), and the `Sample` entry (value or NaN).
- `Grid` (`grid.dfy`): `np.linspace` as numpy computes it (`start + i*step`,
  last element overwritten by `stop`).
- `Sampler` (`sampler.dfy`): the per-point `try`/`except Exception` loop,
  parameterised by what it does with complex results.
- `Text` (`text.dfy`): `str.split` on one character and its inverse `join`.
- `WebApp` (`web_app.dfy`): `plot_view`.
- `CalculusPlotter` (`calculus_plotter.dfy`): `plot_function`.

The source calls `ALLOWED_GLOBALS` a restriction (`app.py:22-24`), but `eval`
runs with the whole `math` and `numpy` modules and all builtins in scope, and
its own comments (`app.py:75-80`, `app.py:112-114`) only recommend replacing
`eval` with a whitelisting AST parser. No such parser exists, so the model
keeps `eval` abstract. The message at
`app.py:126` suggests `x^2` is rejected as a syntax error; in the code `x^2`
is integer XOR, which succeeds at the smoke test's integer 1 and raises
TypeError at every float sample, so the request yields a plot whose every y
is NaN (`WebApp.SmokeDoesNotGuardSamples`). The comment at
`Calculus_plotter.py:103` says a warning is printed for `x = 0`, but 0 is not
on the 100-point grid over [-2, 2] (`CalculusPlotter.DemoGridMissesZero`).

Neither `except Exception` clause catches a BaseException outside Exception
(SystemExit raised by `exit()`, for instance). The model keeps that
exception family: such an exception at the smoke test or at any grid point
leaves the handler uncaught, and for `plot_function` it propagates to the
caller. Every other failing point only turns its own entry into NaN.

## Model

| member | source | states |
|---|---|---|
| Grid.Linspace | app.py:136 | The grid has exactly n points, starts at x_min, ends at x_max, and consecutive points differ by the constant step (x_max - x_min)/(n - 1). |
| Grid.GridPoint | app.py:136 | Every grid point, including the overwritten last one, equals x_min + k * step. |
| Grid.Ascending | app.py:136 | Over a non-empty range the grid is strictly ascending. |
| Grid.WithinRange | Calculus_plotter.py:53 | Every grid point lies within [x_min, x_max]. |
| Sampler.Absorb | app.py:141-152 | One loop iteration: an escaping BaseException aborts with that exception; otherwise the entry is NaN exactly when evaluation raised an Exception or (under the complex-to-NaN policy) returned a complex value, and is the evaluator's value unchanged otherwise. |
| Sampler.Sweep | app.py:139-152 | The sweep succeeds exactly when no grid point raises a non-Exception; then it has one entry per grid point, entry i is NaN exactly when point i is undefined, and otherwise carries point i's value unchanged; on failure the raised exception is that of the first escaping point. |
| Sampler.FailureIsIsolated | app.py:140-152 | Changing the evaluator at one grid point changes no other entry of the series. |
| Sampler.AllFailingIsAllNaN | Calculus_plotter.py:57-63 | When every point raises an Exception, the sweep still completes, with an all-NaN series of full length. |
| Text.Split | app.py:129 | `str.split` on one character yields one more field than there are separators, and no field contains the separator. |
| Text.JoinSplit | app.py:129 | Joining the fields of a split with the separator gives back the original string. |
| Text.SplitJoin | app.py:129 | Splitting a join of separator-free fields gives back the fields. |
| Text.FirstField | app.py:129 | The first field of a split is the prefix up to the first separator (or the whole string), and the remaining fields are the split of what follows that separator. |
| WebApp.Label | app.py:94-96 | A label field that is present and non-empty is used unchanged; a missing or empty one becomes the default; the result is never empty. |
| WebApp.UndefinedName | app.py:129 | The reported name never contains a single quote; a message without a quote gives the fixed phrase "an unknown function or variable". |
| WebApp.UndefinedNameIsFirstQuoted | app.py:129 | When the message quotes something, the reported name is exactly the text after the first quote up to the next quote or the end of the message. |
| WebApp.Validate | app.py:98-110 | An empty or missing function string is rejected first; then a missing or empty bound; then a bound `float()` rejects; then x_max <= x_min; a form that passes all four checks is accepted, carrying the function string and both parsed bounds, and only such a form is accepted. |
| WebApp.GridOf | app.py:136 | The grid of a validated request has 200 points from x_min to x_max with a constant step and is strictly ascending. |
| WebApp.SmokeFailure | app.py:124-133 | A SyntaxError at the smoke test gives the syntax error, a NameError gives the name error with the name cut from its message, any other Exception gives the generic parse error with its message, and a non-Exception is not caught. |
| WebApp.Draw | app.py:136-163 | After a passed smoke test the request never ends in an error page: it plots exactly when no grid point raises a non-Exception, otherwise the first such exception escapes; the plot carries the 200-point linspace grid, entry-wise NaN exactly at raising or complex points, the defaulted labels and the raw page title. |
| WebApp.PlotView | app.py:90-163 | Form errors are returned before the expression is evaluated; a smoke-test exception ends the request with its classified error; past the smoke test the request plots exactly when no grid point raises a non-Exception, and otherwise the first such exception escapes; a plot's x values are the linspace grid (200 evenly spaced, strictly ascending values from x_min to x_max), with one y per x that is NaN exactly when evaluation there raises or returns a complex value and otherwise the evaluator's value, and the defaulted labels. |
| WebApp.SmokeDoesNotGuardSamples | app.py:122-142 | An expression that evaluates at the integer 1 but raises some Exception at every float passes the smoke test and yields a plot whose every y is NaN. |
| WebApp.PageTitleDiffersOnlyWhenEmpty | app.py:160-183 | The page title differs from the figure title exactly when the title field was submitted empty. |
| CalculusPlotter.ToBound | Calculus_plotter.py:42-46 | Conversion fails exactly when `float()` raised, a converted value is kept, the exception family is preserved, a ValueError gets the function's own message, and any other exception passes through unchanged. |
| CalculusPlotter.Label | Calculus_plotter.py:69-82 | The label chosen by truthiness is the same one app.py chooses with `form.get` and truthiness: a truthy label verbatim, a falsy one replaced by the default. |
| CalculusPlotter.PlotFunction | Calculus_plotter.py:38-82 | A non-callable raises TypeError before any conversion; a conversion failure (x_min first) raises before the range check; x_max <= x_min raises ValueError before sampling; past the checks the call draws exactly when no grid point raises a non-Exception, and otherwise the first such exception propagates; a drawing has 100 evenly spaced, strictly ascending x values including both endpoints, one y per x that is NaN exactly when the function raises there and otherwise its value unchanged (complex values included), and the defaulted labels. |
| CalculusPlotter.DemoGridMissesZero | Calculus_plotter.py:103-104 | No point of the 100-point grid over [-2, 2] is 0. |
| CalculusPlotter.DemoHasNoFailingPoint | Calculus_plotter.py:97-104 | A function that fails only at 0 has no NaN entry on the demo's grid. |

## Left out

- Flask routing, `request.form`, `render_template`, the index page and the port and debug setup (`app.py:47-53`, `app.py:187-192`): web glue. The model returns the error kind or the plot data instead of a rendered page.
- The exact wording of the error messages of `plot_view`: the model returns the error kind with its structured detail (the offending name, the exception message). The three messages `plot_function` raises are kept verbatim.
- Matplotlib figure creation, PNG saving, base64 encoding, `plt.show()`, and the plot-generation error path (`app.py:154-177`, `Calculus_plotter.py:66-87`): foreign rendering and I/O.
- Python `eval` semantics and the contents of `ALLOWED_GLOBALS` (`app.py:25-45`): a foreign call, modelled as an evaluator parameter. Side effects `eval` may have are not modelled.
- Python `float()` parsing of strings and objects: foreign, modelled as oracles. Strings that `float()` turns into NaN or an infinity are outside the real-number model; with them the range check `x_max <= x_min` behaves differently (a NaN bound passes it).
- Grid.Linspace: computes over exact reals, not IEEE doubles, so rounding in `np.linspace` is not modelled.
- Sampler.Sweep: an evaluator result is a real or a complex number; other Python values (a string, None, a NaN or infinite float) that the loops would append unchanged are not modelled.
- The per-point warning `print` of `plot_function` (`Calculus_plotter.py:62`): I/O.
- CalculusPlotter.PlotFunction: labels are modelled as optional strings; other truthy or falsy Python objects passed as labels are not.
- The AST parser with a whitelist of allowed nodes that `app.py:75-80` and `app.py:112-114` recommend: no such code exists in the repository.
