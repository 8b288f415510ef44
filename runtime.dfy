/**
 * The Python values a unit cell is configured with, the exceptions it raises,
 * and the foreign machinery it relies on: `eval` of lambda texts, number
 * formatting, and sympy's `integrate` / `lambdify`. That machinery is not
 * modelled; it is an `Evaluator` value whose fields are arbitrary functions,
 * so every property proved here holds for every evaluator.
 */
module Runtime {

  datatype Option<+T> = None | Some(value: T) {
    function GetOr(default: T): T {
      if Some? then value else default
    }
  }

  /** A value or the exception that was raised instead; usable with `:-`. */
  datatype Result<+T> = Ok(value: T) | Err(error: Error) {
    predicate IsFailure() {
      Err?
    }

    function PropagateFailure<U>(): Result<U>
      requires Err?
    {
      Err(error)
    }

    function Extract(): T
      requires Ok?
    {
      value
    }
  }

  /** The outcome of an operation that returns nothing in Python. */
  datatype Outcome = Pass | Fail(error: Error)

  /** The exceptions of the unit cell, by cause. */
  datatype Error =
    | FunctionValueGiven      // ValueError: a function value instead of its text
    | UnsupportedInput        // ValueError: a property element of another type
    | UnsupportedPosition     // ValueError: an atom position of another type
    | LiteralEvalFailed       // eval of a generated numeric lambda text raised
    | SubsystemCountMismatch  // ValueError: the four subsystem lists differ in length
    | ZeroDivision            // ZeroDivisionError
    | NotCallable             // TypeError: a stored position is still a string
    | UnknownType             // KeyError: getPropertyStruct without a known type

  /** The Python values a property or position specification can be. */
  datatype PyValue =
    | PyBool(b: bool)
    | PyInt(i: int)
    | PyFloat(f: real)
    | PyStr(s: string)
    | PyFunction               // a Python function object (`isfunction` holds)
    | PyList(items: seq<PyValue>)
    | PyOther                  // anything else: tuples, arrays, None, builtins, ...

  /** `isinstance(x, (int, float))`; a bool is an int in Python. */
  predicate IsNumeric(x: PyValue) {
    x.PyBool? || x.PyInt? || x.PyFloat?
  }

  function NumericValue(x: PyValue): real
    requires IsNumeric(x)
  {
    match x
    case PyBool(b) => if b then 1.0 else 0.0
    case PyInt(i) => i as real
    case PyFloat(f) => f
  }

  /** A callable of one real variable (temperature or strain). */
  type Fn = real -> real

  /**
   * The foreign functions the unit cell calls.
   *  - eval: Python `eval` of a lambda text; None when it raises.
   *  - formatF / formatE: `'{:f}'.format` and `'{:e}'.format` of a number.
   *  - roundF / roundE: the number those two texts denote when read back.
   *  - integrate: sympy's antiderivative in T of an expression text, as
   *    `str(integral)`; None when sympy raises.
   *  - lambdify: sympy's `lambdify(T, integral)` of that antiderivative.
   */
  datatype Evaluator = Evaluator(
    eval: string -> Option<Fn>,
    formatF: real -> string,
    formatE: real -> string,
    roundF: real -> real,
    roundE: real -> real,
    integrate: string -> Option<string>,
    lambdify: string -> Fn)

  /** `'lambda T: {:f}'.format(v)`, the text kept for a numeric property. */
  function ConstText(ev: Evaluator, v: real): string {
    "lambda T: " + ev.formatF(v)
  }

  /** `'lambda strain: {:e}*(strain+1)'.format(p)`, the text kept for a numeric position. */
  function PositionText(ev: Evaluator, p: real): string {
    "lambda strain: " + ev.formatE(p) + "*(strain+1)"
  }

  /**
   * The evaluator reads the numeric lambda texts the unit cell generates as
   * Python does: the constant function of the rounded number, and the
   * position scaled linearly with strain.
   */
  ghost predicate ReadsLiterals(ev: Evaluator) {
    (forall v: real :: ev.eval(ConstText(ev, v)).Some?) &&
    (forall v: real, t: real :: ev.eval(ConstText(ev, v)).Some? ==>
        ev.eval(ConstText(ev, v)).value(t) == ev.roundF(v)) &&
    (forall p: real :: ev.eval(PositionText(ev, p)).Some?) &&
    (forall p: real, s: real :: ev.eval(PositionText(ev, p)).Some? ==>
        ev.eval(PositionText(ev, p)).value(s) == ev.roundE(p) * (s + 1.0))
  }
}
