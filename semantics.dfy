/** The meaning of `evalr` as functions. Evaluation is given the innermost
    frame (the scope it may change) and the frames around it, and returns its
    outcome with the innermost frame as evaluation left it: the only scope an
    evaluation ever writes to is the one it was handed (by `defun`, or by the
    value evaluations of `let`), while `let` bodies, procedure arguments and
    procedure bodies run in fresh inner scopes that are dropped afterwards.

    `fuel` bounds the nesting depth of evaluation: every nested evaluation gets
    one unit less, and evaluation with no fuel left is OutOfFuel. */
module Semantics {
  import opened Values
  import opened Scopes
  import opened Arithmetic

  /** The head symbols that select a built-in form; they are matched before
      any binding of the same name is consulted. */
  const Builtins: set<string> := {
    "+", "-", "*", "/", "%", "<", ">", "=",
    "let", "map", "defun", "if", "\\", "quote", "cons", "list", "first", "rest" }

  function ArithOpOf(name: string): ArithOp
    requires name in {"+", "-", "*", "/", "%"}
  {
    if name == "+" then Add
    else if name == "-" then Sub
    else if name == "*" then Mul
    else if name == "/" then Div
    else Rem
  }

  function CmpOpOf(name: string): CmpOp
    requires name in {"<", ">", "="}
  {
    if name == "<" then Less else if name == ">" then Greater else Equal
  }

  /** `evalr`: a procedure evaluates its body in the scope it is given (not in
      the scope it was made in); a symbol evaluates to its binding, or to
      itself when unbound; a list is a form selected by its head; anything
      else evaluates to itself. */
  function Eval(e: Expr, top: Frame, outer: seq<Frame>, fuel: nat): (Outcome<Expr>, Frame)
    decreases fuel, 0, 0
  {
    if fuel == 0 then (OutOfFuel, top)
    else
      match e
      case Procedure(_, body) => Eval(List(body), top, outer, fuel - 1)
      case Symbol(name) =>
        (Returned(match ScopeLookup([top] + outer, name) case Some(v) => v case None => e), top)
      case List(es) => Dispatch(es, top, outer, fuel - 1)
      case _ => (Returned(e), top)
  }

  /** The list case of `evalr`: the head must be a symbol; its name selects a
      built-in form, else a bound name is applied as a procedure, else the
      result is Nil. */
  function Dispatch(es: seq<Expr>, top: Frame, outer: seq<Frame>, fuel: nat): (Outcome<Expr>, Frame)
    decreases fuel, 5, 0
  {
    if |es| == 0 then (Crashed(IndexOutOfRange), top)
    else if !es[0].Symbol? then (Crashed(CastFailure), top)
    else
      var name := es[0].name;
      if name in {"+", "-", "*", "/", "%"} then ArithForm(ArithOpOf(name), es, top, outer, fuel)
      else if name in {"<", ">", "="} then CompareForm(CmpOpOf(name), es, top, outer, fuel)
      else if name == "let" then LetForm(es, top, outer, fuel)
      else if name == "map" then MapForm(es, top, outer, fuel)
      else if name == "defun" then DefunForm(es, top)
      else if name == "if" then IfForm(es, top, outer, fuel)
      else if name == "\\" then (LambdaForm(es), top)
      else if name == "quote" then (QuoteForm(es), top)
      else if name == "cons" then ConsForm(es, top, outer, fuel)
      else if name == "list" then (ListForm(es), top)
      else if name == "first" then (FirstForm(es), top)
      else if name == "rest" then (RestForm(es), top)
      else
        match ScopeLookup([top] + outer, name)
        case Some(v) => (Apply(v, es, top, outer, fuel), top)
        case None => (Returned(Nil), top)
  }

  /** `numberValues`: evaluate the operands from index `i` on, in order and in
      the current scope, each of which must yield a number. */
  function Operands(es: seq<Expr>, i: nat, top: Frame, outer: seq<Frame>, fuel: nat, acc: seq<Int64>)
    : (Outcome<seq<Int64>>, Frame)
    requires i <= |es|
    decreases fuel, 1, |es| - i
  {
    if i == |es| then (Returned(acc), top)
    else
      var (o, t) := Eval(es[i], top, outer, fuel);
      match o
      case Returned(v) =>
        if v.Number? then Operands(es, i + 1, t, outer, fuel, acc + [v.n]) else (Crashed(CastFailure), t)
      case _ => (Abort(o), t)
  }

  /** `+ - * / %`. */
  function ArithForm(op: ArithOp, es: seq<Expr>, top: Frame, outer: seq<Frame>, fuel: nat)
    : (Outcome<Expr>, Frame)
    requires |es| > 0
    decreases fuel, 4, 0
  {
    var (o, t) := Operands(es, 1, top, outer, fuel, []);
    match o
    case Returned(ns) =>
      (match Narithmetic(op, ns) case Ok(v) => Returned(Number(v)) case Fatal(f) => Crashed(f), t)
    case _ => (Abort(o), t)
  }

  /** `< > =`. */
  function CompareForm(op: CmpOp, es: seq<Expr>, top: Frame, outer: seq<Frame>, fuel: nat)
    : (Outcome<Expr>, Frame)
    requires |es| > 0
    decreases fuel, 4, 0
  {
    var (o, t) := Operands(es, 1, top, outer, fuel, []);
    match o
    case Returned(ns) =>
      (match NCompare(op, ns) case Ok(b) => Returned(Boolean(b)) case Fatal(f) => Crashed(f), t)
    case _ => (Abort(o), t)
  }

  /** The binding loop of `let` from element `k` of the binding list: even
      elements must be names, odd ones are evaluated in the caller's scope
      and bound in `local` to the name before them; a last name without a
      value is checked and otherwise ignored. Returns the new local frame. */
  function LetBindings(bs: seq<Expr>, k: nat, top: Frame, outer: seq<Frame>, fuel: nat, local: Frame)
    : (Outcome<Frame>, Frame)
    requires k <= |bs| && (k % 2 == 1 ==> bs[k - 1].Symbol?)
    decreases fuel, 1, |bs| - k
  {
    if k == |bs| then (Returned(local), top)
    else if k % 2 == 0 then
      if bs[k].Symbol? then LetBindings(bs, k + 1, top, outer, fuel, local) else (Crashed(CastFailure), top)
    else
      var (o, t) := Eval(bs[k], top, outer, fuel);
      match o
      case Returned(v) => LetBindings(bs, k + 1, t, outer, fuel, local[bs[k - 1].name := v])
      case _ => (Abort(o), t)
  }

  /** `let`: the values are evaluated in the caller's scope, bound in one new
      inner scope, and the body (element 2) is evaluated there; whatever the
      body binds is dropped with the inner scope. */
  function LetForm(es: seq<Expr>, top: Frame, outer: seq<Frame>, fuel: nat): (Outcome<Expr>, Frame)
    decreases fuel, 4, 0
  {
    if |es| < 2 then (Crashed(IndexOutOfRange), top)
    else if !es[1].List? then (Crashed(CastFailure), top)
    else
      var (o, t) := LetBindings(es[1].es, 0, top, outer, fuel, map[]);
      match o
      case Returned(local) =>
        if |es| < 3 then (Crashed(IndexOutOfRange), t)
        else (Eval(es[2], local, [t] + outer, fuel).0, t)
      case _ => (Abort(o), t)
  }

  /** `bindParam` from parameter `idx` on: in the new scope `child` (inside
      `scope`), each parameter must be a symbol, must have an argument, and is
      bound to that argument evaluated in the new scope itself, so it sees the
      parameters bound before it. Returns the filled frame. */
  function BindParams(params: seq<Expr>, args: seq<Expr>, idx: nat, child: Frame, scope: seq<Frame>, fuel: nat)
    : Outcome<Frame>
    requires idx <= |params|
    decreases fuel, 1, |params| - idx
  {
    if idx == |params| then Returned(child)
    else if !params[idx].Symbol? then Crashed(CastFailure)
    else if idx >= |args| then Crashed(IndexOutOfRange)
    else
      var (o, c) := Eval(args[idx], child, scope, fuel);
      match o
      case Returned(v) => BindParams(params, args, idx + 1, c[params[idx].name := v], scope, fuel)
      case _ => Abort(o)
  }

  /** `evalr(proc, env: bindParam(proc.params, args, outer: env))`: bind the
      arguments in a new scope inside the caller's, then evaluate the
      procedure there. The caller's scope is left as it was. */
  function Invoke(proc: Expr, args: seq<Expr>, top: Frame, outer: seq<Frame>, fuel: nat): Outcome<Expr>
    requires proc.Procedure?
    decreases fuel, 2, 0
  {
    match BindParams(proc.params, args, 0, map[], [top] + outer, fuel)
    case Returned(child) => Eval(proc, child, [top] + outer, fuel).0
    case Crashed(f) => Crashed(f)
    case OutOfFuel => OutOfFuel
  }

  /** A call of a bound name: the binding must be a procedure, and the list's
      remaining elements are its arguments. */
  function Apply(v: Expr, es: seq<Expr>, top: Frame, outer: seq<Frame>, fuel: nat): Outcome<Expr>
    requires |es| > 0
    decreases fuel, 3, 0
  {
    if !v.Procedure? then Crashed(CastFailure) else Invoke(v, es[1..], top, outer, fuel)
  }

  /** The elements of `map` from target `k` on: each target is the single
      argument of one invocation, and the results are gathered in order. */
  function MapOver(proc: Expr, ts: seq<Expr>, k: nat, top: Frame, outer: seq<Frame>, fuel: nat, acc: seq<Expr>)
    : Outcome<Expr>
    requires proc.Procedure? && k <= |ts|
    decreases fuel, 3, |ts| - k
  {
    if k == |ts| then Returned(List(acc))
    else
      match Invoke(proc, [ts[k]], top, outer, fuel)
      case Returned(x) => MapOver(proc, ts, k + 1, top, outer, fuel, acc + [x])
      case Crashed(f) => Crashed(f)
      case OutOfFuel => OutOfFuel
  }

  /** `map`: element 2 is evaluated first and must give a procedure; element 1
      must be written as a list, is evaluated, and must give a list. */
  function MapForm(es: seq<Expr>, top: Frame, outer: seq<Frame>, fuel: nat): (Outcome<Expr>, Frame)
    decreases fuel, 4, 0
  {
    if |es| < 3 then (Crashed(IndexOutOfRange), top)
    else
      var (p, t1) := Eval(es[2], top, outer, fuel);
      if !p.Returned? then (Abort(p), t1)
      else if !p.value.Procedure? || !es[1].List? then (Crashed(CastFailure), t1)
      else
        var (q, t2) := Eval(es[1], t1, outer, fuel);
        if !q.Returned? then (Abort(q), t2)
        else if !q.value.List? then (Crashed(CastFailure), t2)
        else (MapOver(p.value, q.value.es, 0, t2, outer, fuel, []), t2)
  }

  /** `defun`: bind the name (element 1) in the current scope to a procedure
      made of the parameter list (element 2) and the body list (element 3). */
  function DefunForm(es: seq<Expr>, top: Frame): (Outcome<Expr>, Frame) {
    if |es| < 2 then (Crashed(IndexOutOfRange), top)
    else if !es[1].Symbol? then (Crashed(CastFailure), top)
    else if |es| < 3 then (Crashed(IndexOutOfRange), top)
    else if !es[2].List? then (Crashed(CastFailure), top)
    else if |es| < 4 then (Crashed(IndexOutOfRange), top)
    else if !es[3].List? then (Crashed(CastFailure), top)
    else (Returned(Nil), top[es[1].name := Procedure(es[2].es, es[3].es)])
  }

  /** `if`: the condition must give a boolean; only the chosen branch
      (element 2 or 3) is evaluated. */
  function IfForm(es: seq<Expr>, top: Frame, outer: seq<Frame>, fuel: nat): (Outcome<Expr>, Frame)
    decreases fuel, 4, 0
  {
    if |es| < 2 then (Crashed(IndexOutOfRange), top)
    else
      var (c, t) := Eval(es[1], top, outer, fuel);
      if !c.Returned? then (Abort(c), t)
      else if !c.value.Boolean? then (Crashed(CastFailure), t)
      else
        var k := if c.value.b then 2 else 3;
        if k >= |es| then (Crashed(IndexOutOfRange), t) else Eval(es[k], t, outer, fuel)
  }

  /** `\`: a procedure from a parameter list and a body list, unevaluated. */
  function LambdaForm(es: seq<Expr>): Outcome<Expr> {
    if |es| < 2 then Crashed(IndexOutOfRange)
    else if !es[1].List? then Crashed(CastFailure)
    else if |es| < 3 then Crashed(IndexOutOfRange)
    else if !es[2].List? then Crashed(CastFailure)
    else Returned(Procedure(es[1].es, es[2].es))
  }

  /** `quote`: element 1, which must be a list, unevaluated. */
  function QuoteForm(es: seq<Expr>): Outcome<Expr> {
    if |es| < 2 then Crashed(IndexOutOfRange)
    else if !es[1].List? then Crashed(CastFailure)
    else Returned(List(es[1].es))
  }

  /** `cons`: evaluate the head (element 1), then the tail (element 2), which
      must give a list, and put the head in front of it. */
  function ConsForm(es: seq<Expr>, top: Frame, outer: seq<Frame>, fuel: nat): (Outcome<Expr>, Frame)
    decreases fuel, 4, 0
  {
    if |es| < 2 then (Crashed(IndexOutOfRange), top)
    else
      var (a, t1) := Eval(es[1], top, outer, fuel);
      if !a.Returned? then (Abort(a), t1)
      else if |es| < 3 then (Crashed(IndexOutOfRange), t1)
      else
        var (d, t2) := Eval(es[2], t1, outer, fuel);
        if !d.Returned? then (Abort(d), t2)
        else if !d.value.List? then (Crashed(CastFailure), t2)
        else (Returned(List([a.value] + d.value.es)), t2)
  }

  /** `list`: the remaining elements, unevaluated. */
  function ListForm(es: seq<Expr>): Outcome<Expr>
    requires |es| > 0
  {
    Returned(List(es[1..]))
  }

  /** `first`: the head of element 1, which must be a non-empty list, read
      without evaluating it. */
  function FirstForm(es: seq<Expr>): Outcome<Expr> {
    if |es| < 2 then Crashed(IndexOutOfRange)
    else if !es[1].List? then Crashed(CastFailure)
    else if |es[1].es| == 0 then Crashed(IndexOutOfRange)
    else Returned(es[1].es[0])
  }

  /** `rest`: all but the head of element 1, which must be a non-empty list,
      read without evaluating it. */
  function RestForm(es: seq<Expr>): Outcome<Expr> {
    if |es| < 2 then Crashed(IndexOutOfRange)
    else if !es[1].List? then Crashed(CastFailure)
    else if |es[1].es| == 0 then Crashed(IndexOutOfRange)
    else Returned(List(es[1].es[1..]))
  }
}
