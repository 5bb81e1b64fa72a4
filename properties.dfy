/** What the evaluation rules promise, stated over the functions of
    `Semantics` for any scope. */
module Properties {
  import opened Values
  import opened Scopes
  import opened Arithmetic
  import opened Semantics

  // Atoms and symbols.

  /** Numbers, booleans and Nil evaluate to themselves and change no scope. */
  lemma AtomsEvaluateToThemselves(e: Expr, top: Frame, outer: seq<Frame>, fuel: nat)
    requires fuel > 0 && (e.Number? || e.Boolean? || e.Nil?)
    ensures Eval(e, top, outer, fuel) == (Returned(e), top)
  {}

  /** A symbol evaluates to its innermost binding (in the current scope
      first, then in the outer scopes in order), and to itself when no scope
      of the chain binds it. */
  lemma SymbolEvaluation(name: string, top: Frame, outer: seq<Frame>, fuel: nat, k: nat)
    requires fuel > 0
    ensures name in top ==> Eval(Symbol(name), top, outer, fuel) == (Returned(top[name]), top)
    ensures (forall j :: 0 <= j < |outer| ==> name !in outer[j]) && name !in top ==>
      Eval(Symbol(name), top, outer, fuel) == (Returned(Symbol(name)), top)
    ensures k < |outer| && name !in top && name in outer[k] && (forall j :: 0 <= j < k ==> name !in outer[j]) ==>
      Eval(Symbol(name), top, outer, fuel) == (Returned(outer[k][name]), top)
  {
    var frames := [top] + outer;
    assert forall j :: 1 <= j < |frames| ==> frames[j] == outer[j - 1];
    if name in top {
      LookupFindsInnermost(frames, name, 0);
    }
    if (forall j :: 0 <= j < |outer| ==> name !in outer[j]) && name !in top {
      LookupAbsent(frames, name);
    }
    if k < |outer| && name !in top && name in outer[k] && (forall j :: 0 <= j < k ==> name !in outer[j]) {
      LookupFindsInnermost(frames, name, k + 1);
    }
  }

  // Arithmetic and comparison.

  predicate AllNumbers(es: seq<Expr>) {
    forall j :: 0 <= j < |es| ==> es[j].Number?
  }

  /** The values of number literals. */
  function NumbersOf(es: seq<Expr>): (ns: seq<Int64>)
    requires AllNumbers(es)
    ensures |ns| == |es| && forall j :: 0 <= j < |es| ==> ns[j] == es[j].n
    decreases |es|
  {
    if |es| == 0 then [] else [es[0].n] + NumbersOf(es[1..])
  }

  /** Operands that are number literals evaluate to their values, in order,
      and leave the scope unchanged. */
  lemma {:induction false} OperandsOfLiterals(es: seq<Expr>, i: nat, top: Frame, outer: seq<Frame>, fuel: nat, acc: seq<Int64>)
    requires fuel > 0 && i <= |es| && AllNumbers(es[i..])
    ensures Operands(es, i, top, outer, fuel, acc) == (Returned(acc + NumbersOf(es[i..])), top)
    decreases |es| - i
  {
    if i < |es| {
      assert es[i] == es[i..][0];
      assert es[i + 1..] == es[i..][1..];
      OperandsOfLiterals(es, i + 1, top, outer, fuel, acc + [es[i].n]);
      assert acc + [es[i].n] + NumbersOf(es[i + 1..]) == acc + NumbersOf(es[i..]);
    } else {
      assert acc + NumbersOf(es[i..]) == acc;
    }
  }

  /** Operands each of which evaluates to a number and leaves the scope
      alone give those numbers, in order. */
  lemma {:induction false} OperandsOfValues(es: seq<Expr>, i: nat, top: Frame, outer: seq<Frame>, fuel: nat, acc: seq<Int64>, ns: seq<Int64>)
    requires i <= |es| && |ns| == |es| - i
    requires forall j :: i <= j < |es| ==> Eval(es[j], top, outer, fuel) == (Returned(Number(ns[j - i])), top)
    ensures Operands(es, i, top, outer, fuel, acc) == (Returned(acc + ns), top)
    decreases |es| - i
  {
    if i < |es| {
      OperandsOfValues(es, i + 1, top, outer, fuel, acc + [ns[0]], ns[1..]);
      assert acc + [ns[0]] + ns[1..] == acc + ns;
    } else {
      assert acc + ns == acc;
    }
  }

  /** An operand whose value is not a number aborts the form, in the scope
      its evaluation left, whatever numbers the operands before it gave and
      even when those are all the operation needs. */
  lemma {:induction false} OperandNotNumber(es: seq<Expr>, i: nat, j: nat, top: Frame, outer: seq<Frame>, fuel: nat,
                                            acc: seq<Int64>, ns: seq<Int64>, v: Expr, t: Frame)
    requires i <= j < |es| && |ns| == j - i
    requires forall m :: i <= m < j ==> Eval(es[m], top, outer, fuel) == (Returned(Number(ns[m - i])), top)
    requires Eval(es[j], top, outer, fuel) == (Returned(v), t) && !v.Number?
    ensures Operands(es, i, top, outer, fuel, acc) == (Crashed(CastFailure), t)
    decreases j - i
  {
    if i < j {
      OperandNotNumber(es, i + 1, j, top, outer, fuel, acc + [ns[0]], ns[1..], v, t);
    }
  }

  /** `+ - * / %` on number literals: the left fold of their values (with the
      faults of `Narithmetic`), whatever the scope binds, and with the scope
      unchanged. */
  lemma ArithmeticOfLiterals(name: string, args: seq<Expr>, top: Frame, outer: seq<Frame>, fuel: nat)
    requires fuel > 1 && name in {"+", "-", "*", "/", "%"} && AllNumbers(args)
    ensures var r := Narithmetic(ArithOpOf(name), NumbersOf(args));
      Eval(List([Symbol(name)] + args), top, outer, fuel)
        == (if r.Ok? then Returned(Number(r.value)) else Crashed(r.fault), top)
  {
    var es := [Symbol(name)] + args;
    assert es[1..] == args;
    OperandsOfLiterals(es, 1, top, outer, fuel - 1, []);
    assert [] + NumbersOf(args) == NumbersOf(args);
    assert Eval(List(es), top, outer, fuel) == ArithForm(ArithOpOf(name), es, top, outer, fuel - 1);
  }

  /** `< > =` on number literals: operands 1 and 2 are compared; fewer than
      two operands is fatal. */
  lemma CompareOfLiterals(name: string, args: seq<Expr>, top: Frame, outer: seq<Frame>, fuel: nat)
    requires fuel > 1 && name in {"<", ">", "="} && AllNumbers(args)
    ensures |args| < 2 ==> Eval(List([Symbol(name)] + args), top, outer, fuel) == (Crashed(IndexOutOfRange), top)
    ensures |args| >= 2 ==>
      var a, b := args[0].n, args[1].n;
      Eval(List([Symbol(name)] + args), top, outer, fuel)
        == (Returned(Boolean(if name == "<" then a < b else if name == ">" then a > b else a == b)), top)
  {
    var es := [Symbol(name)] + args;
    assert es[1..] == args;
    OperandsOfLiterals(es, 1, top, outer, fuel - 1, []);
    assert Eval(List(es), top, outer, fuel) == CompareForm(CmpOpOf(name), es, top, outer, fuel - 1);
  }

  /** Every operand of a comparison is evaluated: a non-number after the two
      compared ones still aborts it. */
  lemma CompareChecksEveryOperand(name: string, args: seq<Expr>, x: Expr, top: Frame, outer: seq<Frame>, fuel: nat)
    requires fuel > 1 && name in {"<", ">", "="} && AllNumbers(args) && (x.Boolean? || x.Nil?)
    ensures Eval(List([Symbol(name)] + args + [x]), top, outer, fuel) == (Crashed(CastFailure), top)
  {
    var es := [Symbol(name)] + args + [x];
    assert forall m :: 1 <= m < |es| - 1 ==> es[m] == args[m - 1];
    OperandNotNumber(es, 1, |es| - 1, top, outer, fuel - 1, [], NumbersOf(args), x, top);
    assert Eval(List(es), top, outer, fuel) == CompareForm(CmpOpOf(name), es, top, outer, fuel - 1);
  }

  // Evaluation leaves the caller's scope alone unless it defines a name.

  /** No `defun` anywhere in the expression, procedure bodies included. */
  predicate DefunFree(e: Expr)
    decreases e
  {
    match e
    case Symbol(name) => name != "defun"
    case List(es) => forall x :: x in es ==> DefunFree(x)
    case Procedure(_, body) => forall x :: x in body ==> DefunFree(x)
    case _ => true
  }

  /** Only `defun` writes to the scope evaluation is handed: any other form
      either reads it, or writes to inner scopes that it then drops (the
      bindings and body of `let`, the arguments and body of a call). */
  lemma {:induction false} EvalKeepsScope(e: Expr, top: Frame, outer: seq<Frame>, fuel: nat)
    requires DefunFree(e)
    ensures Eval(e, top, outer, fuel).1 == top
    decreases fuel, 0, 0
  {
    if fuel > 0 {
      match e
      case Procedure(_, body) => EvalKeepsScope(List(body), top, outer, fuel - 1);
      case List(es) => DispatchKeepsScope(es, top, outer, fuel - 1);
      case _ =>
    }
  }

  lemma {:induction false} DispatchKeepsScope(es: seq<Expr>, top: Frame, outer: seq<Frame>, fuel: nat)
    requires forall x :: x in es ==> DefunFree(x)
    ensures Dispatch(es, top, outer, fuel).1 == top
    decreases fuel, 5, 0
  {
    if |es| > 0 && es[0].Symbol? {
      var name := es[0].name;
      assert DefunFree(es[0]);
      if name in {"+", "-", "*", "/", "%", "<", ">", "="} {
        OperandsKeepScope(es, 1, top, outer, fuel, []);
      } else if name == "let" {
        if |es| >= 2 && es[1].List? {
          assert DefunFree(es[1]);
          LetBindingsKeepScope(es[1].es, 0, top, outer, fuel, map[]);
        }
      } else if name == "map" || name == "if" || name == "cons" {
        if |es| >= 2 {
          EvalKeepsScope(es[1], top, outer, fuel);
        }
        if |es| >= 3 {
          EvalKeepsScope(es[2], top, outer, fuel);
        }
        if name == "if" && |es| >= 4 {
          EvalKeepsScope(es[3], top, outer, fuel);
        }
      }
    }
  }

  lemma {:induction false} OperandsKeepScope(es: seq<Expr>, i: nat, top: Frame, outer: seq<Frame>, fuel: nat, acc: seq<Int64>)
    requires i <= |es| && forall x :: x in es ==> DefunFree(x)
    ensures Operands(es, i, top, outer, fuel, acc).1 == top
    decreases fuel, 1, |es| - i
  {
    if i < |es| {
      EvalKeepsScope(es[i], top, outer, fuel);
      var (o, t) := Eval(es[i], top, outer, fuel);
      if o.Returned? && o.value.Number? {
        OperandsKeepScope(es, i + 1, t, outer, fuel, acc + [o.value.n]);
      }
    }
  }

  lemma {:induction false} LetBindingsKeepScope(bs: seq<Expr>, k: nat, top: Frame, outer: seq<Frame>, fuel: nat, local: Frame)
    requires k <= |bs| && (k % 2 == 1 ==> bs[k - 1].Symbol?)
    requires forall x :: x in bs ==> DefunFree(x)
    ensures LetBindings(bs, k, top, outer, fuel, local).1 == top
    decreases fuel, 1, |bs| - k
  {
    if k < |bs| {
      if k % 2 == 0 {
        if bs[k].Symbol? {
          LetBindingsKeepScope(bs, k + 1, top, outer, fuel, local);
        }
      } else {
        EvalKeepsScope(bs[k], top, outer, fuel);
        var (o, t) := Eval(bs[k], top, outer, fuel);
        if o.Returned? {
          LetBindingsKeepScope(bs, k + 1, t, outer, fuel, local[bs[k - 1].name := o.value]);
        }
      }
    }
  }

  /** `let` adds nothing to the caller's scope when its values define
      nothing, whatever its body does: the body's definitions go to the
      inner scope. */
  lemma LetConfinesBody(es: seq<Expr>, top: Frame, outer: seq<Frame>, fuel: nat)
    requires |es| >= 2 && es[0] == Symbol("let") && es[1].List?
    requires forall x :: x in es[1].es ==> DefunFree(x)
    ensures Eval(List(es), top, outer, fuel).1 == top
  {
    if fuel > 0 {
      LetBindingsKeepScope(es[1].es, 0, top, outer, fuel - 1, map[]);
      assert Eval(List(es), top, outer, fuel) == LetForm(es, top, outer, fuel - 1);
    }
  }

  /** A name left without a value at the end of the binding list is checked
      to be a symbol and otherwise ignored. */
  lemma {:induction false} TrailingNameIgnored(bs: seq<Expr>, k: nat, n: string, top: Frame, outer: seq<Frame>, fuel: nat, local: Frame)
    requires k <= |bs| && |bs| % 2 == 0 && (k % 2 == 1 ==> bs[k - 1].Symbol?)
    ensures LetBindings(bs + [Symbol(n)], k, top, outer, fuel, local) == LetBindings(bs, k, top, outer, fuel, local)
    decreases |bs| - k
  {
    var bs' := bs + [Symbol(n)];
    if k < |bs| {
      assert bs'[k] == bs[k];
      if k % 2 == 0 {
        if bs[k].Symbol? {
          TrailingNameIgnored(bs, k + 1, n, top, outer, fuel, local);
        }
      } else {
        assert bs'[k - 1] == bs[k - 1];
        var (o, t) := Eval(bs[k], top, outer, fuel);
        if o.Returned? {
          TrailingNameIgnored(bs, k + 1, n, t, outer, fuel, local[bs[k - 1].name := o.value]);
        }
      }
    } else {
      assert bs'[k] == Symbol(n);
    }
  }

  /** The values of `let` are evaluated in the caller's scope `top`, never in
      the frame being built, so a value does not see the names bound before
      it in the same `let`: when each value, evaluated in `top`, gives the
      value at its position in `vs` and leaves `top` alone, the new frame
      binds each name to the value after it (a later binding of a name
      replacing an earlier one), and the caller's scope is left as it was. */
  lemma {:induction false} LetValuesSeeCallerScope(bs: seq<Expr>, k: nat, top: Frame, outer: seq<Frame>, fuel: nat,
                                                   local: Frame, vs: seq<Expr>)
    requires k <= |bs| && |vs| == |bs| && k % 2 == 0 && |bs| % 2 == 0
    requires forall j :: k <= j < |bs| && j % 2 == 0 ==> bs[j].Symbol?
    requires forall j :: k <= j < |bs| && j % 2 == 1 ==> Eval(bs[j], top, outer, fuel) == (Returned(vs[j]), top)
    ensures LetBindings(bs, k, top, outer, fuel, local) == (Returned(BindingsOf(bs, vs, k, local)), top)
    decreases |bs| - k
  {
    if k < |bs| {
      var local' := local[bs[k].name := vs[k + 1]];
      assert LetBindings(bs, k, top, outer, fuel, local) == LetBindings(bs, k + 1, top, outer, fuel, local);
      assert LetBindings(bs, k + 1, top, outer, fuel, local) == LetBindings(bs, k + 2, top, outer, fuel, local');
      LetValuesSeeCallerScope(bs, k + 2, top, outer, fuel, local', vs);
    }
  }

  /** The frame built from the names in `bs` and the values at the positions
      after them in `vs`, from pair `k` on: exactly the names of `local` and
      those named in the pairs. */
  function BindingsOf(bs: seq<Expr>, vs: seq<Expr>, k: nat, local: Frame): (f: Frame)
    requires k <= |bs| && |vs| == |bs| && k % 2 == 0 && |bs| % 2 == 0
    requires forall j :: k <= j < |bs| && j % 2 == 0 ==> bs[j].Symbol?
    ensures forall x :: x in f <==> x in local || exists j :: k <= j < |bs| && j % 2 == 0 && bs[j].name == x
    decreases |bs| - k
  {
    if k == |bs| then local else BindingsOf(bs, vs, k + 2, local[bs[k].name := vs[k + 1]])
  }

  // defun

  /** `defun` adds exactly one binding to the scope it is evaluated in, the
      name to a procedure made of the parameter and body lists, and returns
      Nil; when a part is missing or of the wrong kind it aborts and the scope
      is left as it was. */
  lemma DefunBindsOneName(es: seq<Expr>, top: Frame, outer: seq<Frame>, fuel: nat)
    requires fuel > 0 && |es| > 0 && es[0] == Symbol("defun")
    ensures var (r, t) := Eval(List(es), top, outer, fuel);
      && (r.Returned? <==> |es| >= 4 && es[1].Symbol? && es[2].List? && es[3].List?)
      && (r.Returned? ==>
            && r.value == Nil
            && t.Keys == top.Keys + {es[1].name}
            && t[es[1].name] == Procedure(es[2].es, es[3].es)
            && forall n :: n in top && n != es[1].name ==> t[n] == top[n])
      && (!r.Returned? ==> r.Crashed? && t == top)
  {
    assert Eval(List(es), top, outer, fuel) == DefunForm(es, top);
  }

  // Calls.

  /** Binding the parameters: every parameter must be a symbol and must have
      an argument (extra arguments are never evaluated), and every parameter
      ends up bound in the new scope. */
  lemma {:induction false} BindParamsShape(params: seq<Expr>, args: seq<Expr>, idx: nat, child: Frame, scope: seq<Frame>, fuel: nat)
    requires idx <= |params| && BindParams(params, args, idx, child, scope, fuel).Returned?
    ensures idx < |params| ==> |params| <= |args|
    ensures forall j :: idx <= j < |params| ==>
      params[j].Symbol? && params[j].name in BindParams(params, args, idx, child, scope, fuel).value
    ensures child.Keys <= BindParams(params, args, idx, child, scope, fuel).value.Keys
    decreases |params| - idx
  {
    if idx < |params| {
      var (o, c) := Eval(args[idx], child, scope, fuel);
      var next := c[params[idx].name := o.value];
      BindParamsShape(params, args, idx + 1, next, scope, fuel);
      EvalKeepsKeys(args[idx], child, scope, fuel);
    }
  }

  /** Arguments are evaluated in the new scope itself, one parameter at a
      time: an argument naming an earlier parameter sees that parameter's
      value, whatever the caller's scopes bind to the same name. */
  lemma ArgumentsSeeEarlierParameters(p: string, q: string, n: Int64, scope: seq<Frame>, fuel: nat)
    requires fuel > 0 && p != q
    ensures BindParams([Symbol(p), Symbol(q)], [Number(n), Symbol(p)], 0, map[], scope, fuel)
         == Returned(map[p := Number(n), q := Number(n)])
  {
    var params, args := [Symbol(p), Symbol(q)], [Number(n), Symbol(p)];
    var first := map[p := Number(n)];
    assert BindParams(params, args, 0, map[], scope, fuel) == BindParams(params, args, 1, map[][p := Number(n)], scope, fuel);
    assert map[][p := Number(n)] == first;
    assert ScopeLookup([first] + scope, p) == Some(Number(n));
    assert BindParams(params, args, 1, first, scope, fuel) == BindParams(params, args, 2, first[q := Number(n)], scope, fuel);
  }

  /** Evaluation never removes a binding from the scope it is handed. */
  lemma {:induction false} EvalKeepsKeys(e: Expr, top: Frame, outer: seq<Frame>, fuel: nat)
    ensures top.Keys <= Eval(e, top, outer, fuel).1.Keys
    decreases fuel, 0, 0
  {
    if fuel > 0 {
      match e
      case Procedure(_, body) => EvalKeepsKeys(List(body), top, outer, fuel - 1);
      case List(es) => DispatchKeepsKeys(es, top, outer, fuel - 1);
      case _ =>
    }
  }

  lemma {:induction false} DispatchKeepsKeys(es: seq<Expr>, top: Frame, outer: seq<Frame>, fuel: nat)
    ensures top.Keys <= Dispatch(es, top, outer, fuel).1.Keys
    decreases fuel, 5, 0
  {
    if |es| > 0 && es[0].Symbol? {
      var name := es[0].name;
      if name in {"+", "-", "*", "/", "%", "<", ">", "="} {
        OperandsKeepKeys(es, 1, top, outer, fuel, []);
      } else if name == "let" {
        if |es| >= 2 && es[1].List? {
          LetBindingsKeepKeys(es[1].es, 0, top, outer, fuel, map[]);
        }
      } else if name == "map" || name == "if" || name == "cons" {
        if |es| >= 3 {
          var i, j := if name == "map" then 2 else 1, if name == "map" then 1 else 2;
          EvalKeepsKeys(es[i], top, outer, fuel);
          var t1 := Eval(es[i], top, outer, fuel).1;
          EvalKeepsKeys(es[j], t1, outer, fuel);
          if name == "if" && |es| >= 4 {
            EvalKeepsKeys(es[3], t1, outer, fuel);
          }
        } else if |es| == 2 {
          EvalKeepsKeys(es[1], top, outer, fuel);
        }
      }
    }
  }

  lemma {:induction false} OperandsKeepKeys(es: seq<Expr>, i: nat, top: Frame, outer: seq<Frame>, fuel: nat, acc: seq<Int64>)
    requires i <= |es|
    ensures top.Keys <= Operands(es, i, top, outer, fuel, acc).1.Keys
    decreases fuel, 1, |es| - i
  {
    if i < |es| {
      EvalKeepsKeys(es[i], top, outer, fuel);
      var (o, t) := Eval(es[i], top, outer, fuel);
      if o.Returned? && o.value.Number? {
        OperandsKeepKeys(es, i + 1, t, outer, fuel, acc + [o.value.n]);
      }
    }
  }

  lemma {:induction false} LetBindingsKeepKeys(bs: seq<Expr>, k: nat, top: Frame, outer: seq<Frame>, fuel: nat, local: Frame)
    requires k <= |bs| && (k % 2 == 1 ==> bs[k - 1].Symbol?)
    ensures top.Keys <= LetBindings(bs, k, top, outer, fuel, local).1.Keys
    decreases fuel, 1, |bs| - k
  {
    if k < |bs| {
      if k % 2 == 0 {
        if bs[k].Symbol? {
          LetBindingsKeepKeys(bs, k + 1, top, outer, fuel, local);
        }
      } else {
        EvalKeepsKeys(bs[k], top, outer, fuel);
        var (o, t) := Eval(bs[k], top, outer, fuel);
        if o.Returned? {
          LetBindingsKeepKeys(bs, k + 1, t, outer, fuel, local[bs[k - 1].name := o.value]);
        }
      }
    }
  }

  /** A call with fewer arguments than parameters aborts (or runs out of
      fuel while evaluating an argument); it never returns a value. */
  lemma TooFewArguments(proc: Expr, args: seq<Expr>, top: Frame, outer: seq<Frame>, fuel: nat)
    requires proc.Procedure? && |args| < |proc.params|
    ensures !Invoke(proc, args, top, outer, fuel).Returned?
  {
    if BindParams(proc.params, args, 0, map[], [top] + outer, fuel).Returned? {
      BindParamsShape(proc.params, args, 0, map[], [top] + outer, fuel);
    }
  }

  /** A list headed by a name that selects no built-in form: when the name is
      bound, the binding is called with the remaining elements as arguments
      and the caller's scope is unchanged; when it is not, the result is Nil. */
  lemma CallOfBoundName(es: seq<Expr>, top: Frame, outer: seq<Frame>, fuel: nat)
    requires fuel > 0 && |es| > 0 && es[0].Symbol? && es[0].name !in Builtins
    ensures var b := ScopeLookup([top] + outer, es[0].name);
      && (b.None? ==> Eval(List(es), top, outer, fuel) == (Returned(Nil), top))
      && (b.Some? && !b.value.Procedure? ==> Eval(List(es), top, outer, fuel) == (Crashed(CastFailure), top))
      && (b.Some? && b.value.Procedure? ==>
            Eval(List(es), top, outer, fuel) == (Invoke(b.value, es[1..], top, outer, fuel - 1), top))
  {
    var name := es[0].name;
    assert !(name in {"+", "-", "*", "/", "%"}) && !(name in {"<", ">", "="});
    assert name != "let" && name != "map" && name != "defun" && name != "if" && name != "\\";
    assert name != "quote" && name != "cons" && name != "list" && name != "first" && name != "rest";
    assert Eval(List(es), top, outer, fuel) == Dispatch(es, top, outer, fuel - 1);
  }

  // Forms that do not evaluate their operands.

  /** `\`, `quote`, `list`, `first` and `rest` evaluate nothing: what they
      return does not depend on any scope, even one binding their own name,
      and the scope is left as it was. */
  lemma DataFormsDoNotEvaluate(es: seq<Expr>, top: Frame, outer: seq<Frame>, top': Frame, outer': seq<Frame>, fuel: nat)
    requires fuel > 0 && |es| > 0 && es[0].Symbol? && es[0].name in {"\\", "quote", "list", "first", "rest"}
    ensures Eval(List(es), top, outer, fuel).1 == top
    ensures Eval(List(es), top, outer, fuel).0 == Eval(List(es), top', outer', fuel).0
  {
    assert Eval(List(es), top, outer, fuel) == Dispatch(es, top, outer, fuel - 1);
    assert Eval(List(es), top', outer', fuel) == Dispatch(es, top', outer', fuel - 1);
  }

  /** The sizes of what the list forms build: `list` gives the remaining
      elements as written, `rest` one element fewer than its list, `cons` one
      more than its tail; `first` and `rest` of the empty list abort. */
  lemma ListFormSizes(es: seq<Expr>, top: Frame, outer: seq<Frame>, fuel: nat)
    requires fuel > 0 && |es| > 0 && es[0].Symbol?
    ensures var (r, _) := Eval(List(es), top, outer, fuel);
      && (es[0].name == "list" ==> r.Returned? && r.value == List(es[1..]) && |r.value.es| == |es| - 1)
      && (es[0].name == "rest" && r.Returned? ==>
            |es| >= 2 && es[1].List? && r.value.List? && |r.value.es| == |es[1].es| - 1
            && forall j :: 0 <= j < |r.value.es| ==> r.value.es[j] == es[1].es[j + 1])
      && (es[0].name == "first" && r.Returned? ==> |es| >= 2 && es[1].List? && |es[1].es| > 0 && r.value == es[1].es[0])
      && (es[0].name in {"first", "rest"} && |es| >= 2 && es[1] == List([]) ==> r == Crashed(IndexOutOfRange))
  {
    assert Eval(List(es), top, outer, fuel) == Dispatch(es, top, outer, fuel - 1);
  }

  /** `cons` returns its evaluated head in front of the elements of its
      evaluated tail. */
  lemma ConsSize(es: seq<Expr>, top: Frame, outer: seq<Frame>, fuel: nat)
    requires fuel > 0 && |es| >= 3 && es[0] == Symbol("cons")
    ensures var (a, t1) := Eval(es[1], top, outer, fuel - 1);
      var (d, t2) := Eval(es[2], t1, outer, fuel - 1);
      var (r, _) := Eval(List(es), top, outer, fuel);
      r.Returned? ==>
        && a.Returned? && d.Returned? && d.value.List?
        && r.value.List? && |r.value.es| == 1 + |d.value.es|
        && r.value.es[0] == a.value && r.value.es[1..] == d.value.es
  {
    assert Eval(List(es), top, outer, fuel) == ConsForm(es, top, outer, fuel - 1);
  }

  // map and if.

  /** The results of `map` from target `k` on: one per target, in order, each
      the result of calling the procedure on that target alone. */
  lemma {:induction false} MapOverPointwise(proc: Expr, ts: seq<Expr>, k: nat, top: Frame, outer: seq<Frame>, fuel: nat, acc: seq<Expr>)
    requires proc.Procedure? && k <= |ts| && MapOver(proc, ts, k, top, outer, fuel, acc).Returned?
    ensures var r := MapOver(proc, ts, k, top, outer, fuel, acc).value;
      && r.List? && |r.es| == |acc| + |ts| - k && r.es[..|acc|] == acc
      && forall j :: k <= j < |ts| ==> Invoke(proc, [ts[j]], top, outer, fuel) == Returned(r.es[|acc| + j - k])
    decreases |ts| - k
  {
    if k < |ts| {
      var x := Invoke(proc, [ts[k]], top, outer, fuel);
      MapOverPointwise(proc, ts, k + 1, top, outer, fuel, acc + [x.value]);
      var r := MapOver(proc, ts, k, top, outer, fuel, acc).value;
      assert r.es[..|acc| + 1] == acc + [x.value];
      assert r.es[..|acc|] == (acc + [x.value])[..|acc|];
    }
  }

  /** Conversely, when every call succeeds, `map` gathers their results. */
  lemma {:induction false} MapOverComplete(proc: Expr, ts: seq<Expr>, k: nat, top: Frame, outer: seq<Frame>, fuel: nat,
                                           acc: seq<Expr>, rs: seq<Expr>)
    requires proc.Procedure? && k <= |ts| && |rs| == |ts|
    requires forall j :: k <= j < |ts| ==> Invoke(proc, [ts[j]], top, outer, fuel) == Returned(rs[j])
    ensures MapOver(proc, ts, k, top, outer, fuel, acc) == Returned(List(acc + rs[k..]))
    decreases |ts| - k
  {
    if k < |ts| {
      MapOverComplete(proc, ts, k + 1, top, outer, fuel, acc + [rs[k]], rs);
      assert acc + [rs[k]] + rs[k + 1..] == acc + rs[k..];
    } else {
      assert acc + rs[k..] == acc;
    }
  }

  lemma MapUnfolds(es: seq<Expr>, top: Frame, outer: seq<Frame>, fuel: nat,
                   proc: Expr, t1: Frame, targets: seq<Expr>, t2: Frame)
    requires fuel > 0 && |es| >= 3 && es[0] == Symbol("map") && es[1].List?
    requires Eval(es[2], top, outer, fuel - 1) == (Returned(proc), t1) && proc.Procedure?
    requires Eval(es[1], t1, outer, fuel - 1) == (Returned(List(targets)), t2)
    ensures Eval(List(es), top, outer, fuel) == (MapOver(proc, targets, 0, t2, outer, fuel - 1, []), t2)
  {
    assert Eval(List(es), top, outer, fuel) == Dispatch(es, top, outer, fuel - 1);
    assert Dispatch(es, top, outer, fuel - 1) == MapForm(es, top, outer, fuel - 1);
  }

  /** `map` returns a list as long as its evaluated target list, whose
      element `j` is the procedure called on target `j` alone, in the scope
      as the two evaluations before left it. */
  lemma MapPointwise(es: seq<Expr>, top: Frame, outer: seq<Frame>, fuel: nat,
                     proc: Expr, t1: Frame, targets: seq<Expr>, t2: Frame)
    requires fuel > 0 && |es| >= 3 && es[0] == Symbol("map") && es[1].List?
    requires Eval(es[2], top, outer, fuel - 1) == (Returned(proc), t1) && proc.Procedure?
    requires Eval(es[1], t1, outer, fuel - 1) == (Returned(List(targets)), t2)
    ensures Eval(List(es), top, outer, fuel).1 == t2
    ensures var r := Eval(List(es), top, outer, fuel).0;
      r.Returned? ==>
        && r.value.List? && |r.value.es| == |targets|
        && forall j :: 0 <= j < |targets| ==> Invoke(proc, [targets[j]], t2, outer, fuel - 1) == Returned(r.value.es[j])
  {
    MapUnfolds(es, top, outer, fuel, proc, t1, targets, t2);
    if MapOver(proc, targets, 0, t2, outer, fuel - 1, []).Returned? {
      MapOverPointwise(proc, targets, 0, t2, outer, fuel - 1, []);
    }
  }

  /** `if` evaluates the condition, then only the branch it selects: the
      other branch can be anything at all. */
  lemma IfTakesOneBranch(es: seq<Expr>, x: Expr, top: Frame, outer: seq<Frame>, fuel: nat)
    requires fuel > 0 && |es| >= 2 && es[0] == Symbol("if")
    ensures var (c, t) := Eval(es[1], top, outer, fuel - 1);
      c.Returned? && c.value.Boolean? ==>
        var k := if c.value.b then 2 else 3;
        && (k < |es| ==> Eval(List(es), top, outer, fuel) == Eval(es[k], t, outer, fuel - 1))
        && (k >= |es| ==> Eval(List(es), top, outer, fuel) == (Crashed(IndexOutOfRange), t))
        && (5 - k < |es| ==> Eval(List(es[5 - k := x]), top, outer, fuel) == Eval(List(es), top, outer, fuel))
  {
    assert Eval(List(es), top, outer, fuel) == IfForm(es, top, outer, fuel - 1);
    var (c, t) := Eval(es[1], top, outer, fuel - 1);
    if c.Returned? && c.value.Boolean? {
      var k := if c.value.b then 2 else 3;
      if 5 - k < |es| {
        var es' := es[5 - k := x];
        assert es'[0] == es[0] && es'[1] == es[1];
        assert k < |es| ==> es'[k] == es[k];
        assert Eval(List(es'), top, outer, fuel) == IfForm(es', top, outer, fuel - 1);
      }
    }
  }
}
