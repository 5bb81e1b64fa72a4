/** The values shared by the parser and the evaluator: the expression tree, the
    64-bit integers it carries, and the outcomes that replace the interpreter's
    crashes (forced casts, forced unwraps, out-of-range reads, arithmetic traps). */
module Values {

  const MinInt: int := -0x8000_0000_0000_0000
  const MaxInt: int := 0x7FFF_FFFF_FFFF_FFFF

  /** The platform integer (`Int` on a 64-bit target). */
  newtype Int64 = x: int | -0x8000_0000_0000_0000 <= x <= 0x7FFF_FFFF_FFFF_FFFF

  predicate InRange(x: int) {
    MinInt <= x <= MaxInt
  }

  /** One expression: both the parsed program and the values it computes.
      A procedure keeps its parameter list and its body as the elements of the
      two lists it was built from; the scope it was created in is never read
      by the interpreter and is not kept. */
  datatype Expr =
    | Number(n: Int64)
    | Boolean(b: bool)
    | Symbol(name: string)
    | List(es: seq<Expr>)
    | Procedure(params: seq<Expr>, body: seq<Expr>)
    | Nil

  /** Why the interpreter would abort. */
  datatype Fault =
    | CastFailure      // a forced downcast to the wrong variant
    | IndexOutOfRange  // an element read past the end, or an inverted range
    | NilUnwrap        // a forced unwrap of an absent optional
    | Overflow         // an arithmetic result outside Int64
    | DivisionByZero   // `/` or `%` by zero

  datatype Option<T> = None | Some(value: T)

  /** What the tokenizer and the parser produce: a value, or the fault that
      would abort them. */
  datatype Result<T> = Ok(value: T) | Fatal(fault: Fault)

  /** What evaluation produces: a value, the fault that would abort it, or the
      verdict that the evaluation needs more nested calls than its fuel allows. */
  datatype Outcome<T> = Returned(value: T) | Crashed(fault: Fault) | OutOfFuel

  /** Passes an unsuccessful outcome on at another value type. */
  function Abort<T, U>(o: Outcome<T>): (r: Outcome<U>)
    requires !o.Returned?
    ensures r.Crashed? == o.Crashed? && (o.Crashed? ==> r.fault == o.fault)
    ensures r.OutOfFuel? == o.OutOfFuel?
  {
    if o.Crashed? then Crashed(o.fault) else OutOfFuel
  }
}
