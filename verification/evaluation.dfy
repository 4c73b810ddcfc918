/** The evaluator is the one piece of the plotting pipeline that the model
    cannot see: in app.py it is Python's `eval` over the user's string, in
    Calculus_plotter.py it is the caller's `func`. It is modelled as a total
    function parameter returning a tagged outcome. */
module Evaluation {

  /** Exception families the pipeline distinguishes by its `except` clauses. */
  datatype Kind =
    | SyntaxError
    | NameError
    | ValueError
    | TypeError
    | OtherException   // any other subclass of Exception (ZeroDivisionError, OverflowError, ...)
    | BaseOnly         // a BaseException outside Exception (SystemExit raised by `exit()`, ...)

  /** A raised exception: its family and `str(e)`. */
  datatype Exc = Exc(kind: Kind, message: string) {

    /** True when `except Exception` catches it. */
    predicate IsException() {
      !kind.BaseOnly?
    }
  }

  /** A value the evaluator returns: a real number, or a Python complex. */
  datatype Value = Real(r: real) | Complex(re: real, im: real)

  /** What one evaluation does: it returns a value or raises. */
  datatype Outcome = Returns(v: Value) | Raises(e: Exc)

  /** The value bound to `x`: app.py's smoke test binds the Python int 1,
      the sampling loop binds numpy floats. */
  datatype Arg = Int(i: int) | Float(f: real)

  /** One entry of `y_values`: the evaluator's value, or the NaN sentinel. */
  datatype Sample = Num(v: Value) | NaN

  /** An outcome that no `except Exception` absorbs: it aborts the whole call. */
  predicate Escapes(o: Outcome) {
    o.Raises? && !o.e.IsException()
  }
}
