/** The evaluator over mutable scope objects. Each method does what the
    corresponding part of `evalr` does, on `Environment` objects, and is
    proved to compute exactly what the functions of `Semantics` say, on the
    frames of the chain it is handed. */
module Interpreter {
  import opened Values
  import opened Scopes
  import opened Arithmetic
  import opened Semantics

  class Evaluator {
    /** The root scope: it lives as long as the evaluator, so definitions
        made by one `Eval` are seen by the next. */
    const rootEnv: Environment

    ghost predicate Valid() {
      rootEnv.Valid() && rootEnv.outer == null
    }

    constructor ()
      ensures Valid() && fresh(rootEnv) && rootEnv.vars == map[]
    {
      rootEnv := new Environment(null);
    }

    /** `eval`: evaluate in the root scope. */
    method Eval(e: Expr, fuel: nat) returns (r: Outcome<Expr>)
      requires Valid()
      modifies rootEnv
      ensures (r, rootEnv.vars) == Semantics.Eval(e, old(rootEnv.vars), [], fuel)
    {
      r := Evalr(e, rootEnv, fuel);
    }

    /** `evalr`. */
    method Evalr(e: Expr, env: Environment, fuel: nat) returns (r: Outcome<Expr>)
      requires env.Valid()
      modifies env
      ensures (r, env.vars) == Semantics.Eval(e, old(env.vars), env.OuterFrames(), fuel)
      decreases fuel, 0, 0
    {
      if fuel == 0 {
        return OutOfFuel;
      }
      match e
      case Procedure(_, body) =>
        r := Evalr(List(body), env, fuel - 1);
      case Symbol(name) =>
        var v := env.Lookup(name);
        r := Returned(if v.Some? then v.value else e);
      case List(es) =>
        r := DispatchList(es, env, fuel - 1);
      case _ =>
        r := Returned(e);
    }

    /** The list case of `evalr`: dispatch on the head symbol. */
    method DispatchList(es: seq<Expr>, env: Environment, fuel: nat) returns (r: Outcome<Expr>)
      requires env.Valid()
      modifies env
      ensures (r, env.vars) == Dispatch(es, old(env.vars), env.OuterFrames(), fuel)
      decreases fuel, 5, 0
    {
      if |es| == 0 {
        return Crashed(IndexOutOfRange);
      }
      if !es[0].Symbol? {
        return Crashed(CastFailure);
      }
      var name := es[0].name;
      if name in {"+", "-", "*", "/", "%"} {
        var ns := NumberValues(es, env, fuel);
        if !ns.Returned? {
          return Abort(ns);
        }
        var v := Narithmetic(ArithOpOf(name), ns.value);
        r := if v.Ok? then Returned(Number(v.value)) else Crashed(v.fault);
      } else if name in {"<", ">", "="} {
        var ns := NumberValues(es, env, fuel);
        if !ns.Returned? {
          return Abort(ns);
        }
        var b := NCompare(CmpOpOf(name), ns.value);
        r := if b.Ok? then Returned(Boolean(b.value)) else Crashed(b.fault);
      } else if name == "let" {
        r := EvalLet(es, env, fuel);
      } else if name == "map" {
        r := EvalMap(es, env, fuel);
      } else if name == "defun" {
        r := EvalDefun(es, env);
      } else if name == "if" {
        r := EvalIf(es, env, fuel);
      } else if name == "\\" {
        r := LambdaForm(es);
      } else if name == "quote" {
        r := QuoteForm(es);
      } else if name == "cons" {
        r := EvalCons(es, env, fuel);
      } else if name == "list" {
        r := ListForm(es);
      } else if name == "first" {
        r := FirstForm(es);
      } else if name == "rest" {
        r := RestForm(es);
      } else {
        var v := env.Lookup(name);
        if v.None? {
          r := Returned(Nil);
        } else if !v.value.Procedure? {
          r := Crashed(CastFailure);
        } else {
          r := Invoke(v.value, es[1..], env, fuel);
        }
      }
    }

    /** `numberValues`: evaluate elements 1.. in order, each to a number. */
    method NumberValues(es: seq<Expr>, env: Environment, fuel: nat) returns (r: Outcome<seq<Int64>>)
      requires env.Valid() && |es| > 0
      modifies env
      ensures (r, env.vars) == Operands(es, 1, old(env.vars), env.OuterFrames(), fuel, [])
      decreases fuel, 1, 0
    {
      ghost var outs := env.OuterFrames();
      var ns: seq<Int64> := [];
      var i := 1;
      while i < |es|
        invariant 1 <= i <= |es|
        invariant env.OuterFrames() == outs
        invariant Operands(es, i, env.vars, outs, fuel, ns) == Operands(es, 1, old(env.vars), outs, fuel, [])
      {
        var v := Evalr(es[i], env, fuel);
        if !v.Returned? {
          return Abort(v);
        }
        if !v.value.Number? {
          return Crashed(CastFailure);
        }
        ns := ns + [v.value.n];
        i := i + 1;
      }
      return Returned(ns);
    }

    /** The `let` case: values in the caller's scope, bindings and body in a
        new scope inside it. */
    method EvalLet(es: seq<Expr>, env: Environment, fuel: nat) returns (r: Outcome<Expr>)
      requires env.Valid()
      modifies env
      ensures (r, env.vars) == LetForm(es, old(env.vars), env.OuterFrames(), fuel)
      decreases fuel, 4, 0
    {
      var localEnv := new Environment(env);
      if |es| < 2 {
        return Crashed(IndexOutOfRange);
      }
      if !es[1].List? {
        return Crashed(CastFailure);
      }
      ghost var outs := env.OuterFrames();
      var bs := es[1].es;
      var isName := true;
      var name := "";
      var k := 0;
      while k < |bs|
        invariant 0 <= k <= |bs|
        invariant isName <==> k % 2 == 0
        invariant !isName ==> bs[k - 1].Symbol? && name == bs[k - 1].name
        invariant env.OuterFrames() == outs
        invariant fresh(localEnv) && localEnv.Valid() && localEnv.outer == env
        invariant LetBindings(bs, k, env.vars, outs, fuel, localEnv.vars)
               == LetBindings(bs, 0, old(env.vars), outs, fuel, map[])
      {
        var nameOrValue := bs[k];
        if isName {
          if !nameOrValue.Symbol? {
            return Crashed(CastFailure);
          }
          name := nameOrValue.name;
        } else {
          var v := Evalr(nameOrValue, env, fuel);
          if !v.Returned? {
            return Abort(v);
          }
          localEnv.Add(name, v.value);
        }
        isName := !isName;
        k := k + 1;
      }
      if |es| < 3 {
        return Crashed(IndexOutOfRange);
      }
      r := Evalr(es[2], localEnv, fuel);
    }

    /** `bindParam`: a new scope inside `outer` with each parameter bound to
        its argument, evaluated in that new scope. */
    method BindParam(params: seq<Expr>, args: seq<Expr>, outer: Environment, fuel: nat)
      returns (r: Outcome<Environment>)
      requires outer.Valid()
      ensures var spec := BindParams(params, args, 0, map[], outer.Frames(), fuel);
        && (r.Returned? <==> spec.Returned?)
        && (r.Returned? ==>
              fresh(r.value) && r.value.Valid() && r.value.outer == outer && r.value.vars == spec.value)
        && (!spec.Returned? ==> r == Abort(spec))
      decreases fuel, 1, 0
    {
      var env := new Environment(outer);
      ghost var scope := outer.Frames();
      var idx := 0;
      while idx < |params|
        invariant idx <= |params|
        invariant fresh(env) && env.Valid() && env.outer == outer
        invariant outer.Frames() == scope
        invariant BindParams(params, args, idx, env.vars, scope, fuel)
               == BindParams(params, args, 0, map[], scope, fuel)
      {
        if !params[idx].Symbol? {
          return Crashed(CastFailure);
        }
        if idx >= |args| {
          return Crashed(IndexOutOfRange);
        }
        var v := Evalr(args[idx], env, fuel);
        if !v.Returned? {
          return Abort(v);
        }
        env.Add(params[idx].name, v.value);
        idx := idx + 1;
      }
      return Returned(env);
    }

    /** `evalr(proc, env: bindParam(proc.params, args, outer: env))`. */
    method Invoke(proc: Expr, args: seq<Expr>, env: Environment, fuel: nat) returns (r: Outcome<Expr>)
      requires env.Valid() && proc.Procedure?
      ensures r == Semantics.Invoke(proc, args, env.vars, env.OuterFrames(), fuel)
      decreases fuel, 2, 0
    {
      var child := BindParam(proc.params, args, env, fuel);
      if !child.Returned? {
        return Abort(child);
      }
      r := Evalr(proc, child.value, fuel);
    }

    /** The `map` case. */
    method EvalMap(es: seq<Expr>, env: Environment, fuel: nat) returns (r: Outcome<Expr>)
      requires env.Valid()
      modifies env
      ensures (r, env.vars) == MapForm(es, old(env.vars), env.OuterFrames(), fuel)
      decreases fuel, 4, 0
    {
      if |es| < 3 {
        return Crashed(IndexOutOfRange);
      }
      var p := Evalr(es[2], env, fuel);
      if !p.Returned? {
        return Abort(p);
      }
      if !p.value.Procedure? || !es[1].List? {
        return Crashed(CastFailure);
      }
      var q := Evalr(es[1], env, fuel);
      if !q.Returned? {
        return Abort(q);
      }
      if !q.value.List? {
        return Crashed(CastFailure);
      }
      var proc, targets := p.value, q.value.es;
      ghost var t2 := env.vars;
      ghost var spec := MapOver(proc, targets, 0, env.vars, env.OuterFrames(), fuel, []);
      assert MapForm(es, old(env.vars), env.OuterFrames(), fuel) == (spec, env.vars);
      var results: seq<Expr> := [];
      var k := 0;
      while k < |targets|
        invariant k <= |targets|
        invariant env.vars == t2
        invariant MapOver(proc, targets, k, env.vars, env.OuterFrames(), fuel, results) == spec
      {
        var x := Invoke(proc, [targets[k]], env, fuel);
        if !x.Returned? {
          return Abort(x);
        }
        results := results + [x.value];
        k := k + 1;
      }
      return Returned(List(results));
    }

    /** The `defun` case. */
    method EvalDefun(es: seq<Expr>, env: Environment) returns (r: Outcome<Expr>)
      modifies env
      ensures (r, env.vars) == DefunForm(es, old(env.vars))
    {
      if |es| < 2 {
        return Crashed(IndexOutOfRange);
      }
      if !es[1].Symbol? {
        return Crashed(CastFailure);
      }
      if |es| < 3 {
        return Crashed(IndexOutOfRange);
      }
      if !es[2].List? {
        return Crashed(CastFailure);
      }
      if |es| < 4 {
        return Crashed(IndexOutOfRange);
      }
      if !es[3].List? {
        return Crashed(CastFailure);
      }
      env.Add(es[1].name, Procedure(es[2].es, es[3].es));
      return Returned(Nil);
    }

    /** The `if` case. */
    method EvalIf(es: seq<Expr>, env: Environment, fuel: nat) returns (r: Outcome<Expr>)
      requires env.Valid()
      modifies env
      ensures (r, env.vars) == IfForm(es, old(env.vars), env.OuterFrames(), fuel)
      decreases fuel, 4, 0
    {
      if |es| < 2 {
        return Crashed(IndexOutOfRange);
      }
      var c := Evalr(es[1], env, fuel);
      if !c.Returned? {
        return Abort(c);
      }
      if !c.value.Boolean? {
        return Crashed(CastFailure);
      }
      var k := if c.value.b then 2 else 3;
      if k >= |es| {
        return Crashed(IndexOutOfRange);
      }
      r := Evalr(es[k], env, fuel);
    }

    /** The `cons` case. */
    method EvalCons(es: seq<Expr>, env: Environment, fuel: nat) returns (r: Outcome<Expr>)
      requires env.Valid()
      modifies env
      ensures (r, env.vars) == ConsForm(es, old(env.vars), env.OuterFrames(), fuel)
      decreases fuel, 4, 0
    {
      if |es| < 2 {
        return Crashed(IndexOutOfRange);
      }
      var car := Evalr(es[1], env, fuel);
      if !car.Returned? {
        return Abort(car);
      }
      if |es| < 3 {
        return Crashed(IndexOutOfRange);
      }
      var cdr := Evalr(es[2], env, fuel);
      if !cdr.Returned? {
        return Abort(cdr);
      }
      if !cdr.value.List? {
        return Crashed(CastFailure);
      }
      return Returned(List([car.value] + cdr.value.es));
    }
  }
}
