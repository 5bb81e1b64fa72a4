/** The programs of the interpreter's test suite, as the parser reads them,
    evaluated with the rules of `Semantics`: each gives the value the suite
    expects. */
module Examples {
  import opened Values
  import opened Scopes
  import opened Arithmetic
  import opened Semantics
  import opened Properties

  function Num(n: Int64): Expr {
    Number(n)
  }

  function Sym(name: string): Expr {
    Symbol(name)
  }

  /** `(* 11 22)` gives 242. */
  lemma Product242(top: Frame, outer: seq<Frame>, fuel: nat)
    requires fuel >= 2
    ensures Eval(List([Sym("*"), Num(11), Num(22)]), top, outer, fuel) == (Returned(Num(242)), top)
  {
    ArithmeticOfLiterals("*", [Num(11), Num(22)], top, outer, fuel);
    assert [Sym("*")] + [Num(11), Num(22)] == [Sym("*"), Num(11), Num(22)];
    assert NumbersOf([Num(11), Num(22)]) == [11, 22];
    assert Narithmetic(Mul, [11, 22]) == Ok(242);
  }

  /** `(- 333 30 3)` gives 300. */
  lemma Difference300(top: Frame, outer: seq<Frame>, fuel: nat)
    requires fuel >= 2
    ensures Eval(List([Sym("-"), Num(333), Num(30), Num(3)]), top, outer, fuel) == (Returned(Num(300)), top)
  {
    ArithmeticOfLiterals("-", [Num(333), Num(30), Num(3)], top, outer, fuel);
    assert [Sym("-")] + [Num(333), Num(30), Num(3)] == [Sym("-"), Num(333), Num(30), Num(3)];
    assert NumbersOf([Num(333), Num(30), Num(3)]) == [333, 30, 3];
    assert Narithmetic(Sub, [333, 30, 3]) == Ok(300);
  }

  /** `(+ 0 (* 11 22) (- 333 30 3))` gives 542. */
  lemma Arithmetic542(top: Frame, outer: seq<Frame>, fuel: nat)
    requires fuel >= 3
    ensures Eval(List([Sym("+"), Num(0), List([Sym("*"), Num(11), Num(22)]), List([Sym("-"), Num(333), Num(30), Num(3)])]),
                 top, outer, fuel)
         == (Returned(Num(542)), top)
  {
    Product242(top, outer, fuel - 1);
    Difference300(top, outer, fuel - 1);
    var es := [Sym("+"), Num(0), List([Sym("*"), Num(11), Num(22)]), List([Sym("-"), Num(333), Num(30), Num(3)])];
    OperandsOfValues(es, 1, top, outer, fuel - 1, [], [0, 242, 300]);
    assert [] + [0 as Int64, 242, 300] == [0, 242, 300];
    assert Narithmetic(Add, [0, 242, 300]) == Ok(542);
    assert Eval(List(es), top, outer, fuel) == ArithForm(Add, es, top, outer, fuel - 1);
  }

  /** `(first (1 2 3))` gives 1 and `(rest (1 2 3))` gives `(2 3)`: the list
      is read as written. */
  lemma FirstAndRest(top: Frame, outer: seq<Frame>, fuel: nat)
    requires fuel >= 1
    ensures Eval(List([Sym("first"), List([Num(1), Num(2), Num(3)])]), top, outer, fuel) == (Returned(Num(1)), top)
    ensures Eval(List([Sym("rest"), List([Num(1), Num(2), Num(3)])]), top, outer, fuel)
         == (Returned(List([Num(2), Num(3)])), top)
  {
    assert [Num(1), Num(2), Num(3)][1..] == [Num(2), Num(3)];
  }

  /** `(+ a b c)` gives 9 in a frame binding `a`, `b` and `c` to 2, 3 and 4. */
  lemma SumOfBindings(scope: seq<Frame>, fuel: nat)
    requires fuel >= 2
    ensures var local := map["a" := Num(2), "b" := Num(3), "c" := Num(4)];
            Eval(List([Sym("+"), Sym("a"), Sym("b"), Sym("c")]), local, scope, fuel) == (Returned(Num(9)), local)
  {
    var local := map["a" := Num(2), "b" := Num(3), "c" := Num(4)];
    var body := [Sym("+"), Sym("a"), Sym("b"), Sym("c")];
    assert Eval(Sym("a"), local, scope, fuel - 1) == (Returned(Num(2)), local);
    assert Eval(Sym("b"), local, scope, fuel - 1) == (Returned(Num(3)), local);
    assert Eval(Sym("c"), local, scope, fuel - 1) == (Returned(Num(4)), local);
    OperandsOfValues(body, 1, local, scope, fuel - 1, [], [2, 3, 4]);
    assert [] + [2 as Int64, 3, 4] == [2, 3, 4];
    assert Narithmetic(Add, [2, 3, 4]) == Ok(9);
    assert Eval(List(body), local, scope, fuel) == ArithForm(Add, body, local, scope, fuel - 1);
  }

  /** `(let (a 2 b 3 c 4) (+ a b c))` gives 9. */
  lemma LetSum(top: Frame, outer: seq<Frame>, fuel: nat)
    requires fuel >= 3
    ensures Eval(List([Sym("let"), List([Sym("a"), Num(2), Sym("b"), Num(3), Sym("c"), Num(4)]),
                       List([Sym("+"), Sym("a"), Sym("b"), Sym("c")])]), top, outer, fuel)
         == (Returned(Num(9)), top)
  {
    var bs := [Sym("a"), Num(2), Sym("b"), Num(3), Sym("c"), Num(4)];
    var es := [Sym("let"), List(bs), List([Sym("+"), Sym("a"), Sym("b"), Sym("c")])];
    assert forall j :: 0 <= j < |bs| && j % 2 == 1 ==> Eval(bs[j], top, outer, fuel - 1) == (Returned(bs[j]), top);
    LetValuesSeeCallerScope(bs, 0, top, outer, fuel - 1, map[], bs);
    assert BindingsOf(bs, bs, 0, map[]) == map["a" := Num(2), "b" := Num(3), "c" := Num(4)] by {
      assert BindingsOf(bs, bs, 0, map[]) == BindingsOf(bs, bs, 2, map["a" := Num(2)]);
      assert BindingsOf(bs, bs, 2, map["a" := Num(2)]) == BindingsOf(bs, bs, 4, map["a" := Num(2), "b" := Num(3)]);
    }
    SumOfBindings([top] + outer, fuel - 1);
    assert Eval(List(es), top, outer, fuel) == LetForm(es, top, outer, fuel - 1);
  }

  /** `(let (a 1 b a) b)` gives the symbol `a` where nothing binds `a`: the
      value of `b` is evaluated in the caller's scope, which does not see the
      binding of `a` made just before it. */
  lemma LetValuesDoNotSeeEachOther(fuel: nat)
    requires fuel >= 2
    ensures Eval(List([Sym("let"), List([Sym("a"), Num(1), Sym("b"), Sym("a")]), Sym("b")]), map[], [], fuel)
         == (Returned(Sym("a")), map[])
  {
    var bs := [Sym("a"), Num(1), Sym("b"), Sym("a")];
    var es := [Sym("let"), List(bs), Sym("b")];
    var vs := [Nil, Num(1), Nil, Sym("a")];
    SymbolEvaluation("a", map[], [], fuel - 1, 0);
    assert forall j :: 0 <= j < |bs| && j % 2 == 1 ==> Eval(bs[j], map[], [], fuel - 1) == (Returned(vs[j]), map[]);
    LetValuesSeeCallerScope(bs, 0, map[], [], fuel - 1, map[], vs);
    var local := map["a" := Num(1), "b" := Sym("a")];
    assert BindingsOf(bs, vs, 0, map[]) == local by {
      assert BindingsOf(bs, vs, 0, map[]) == BindingsOf(bs, vs, 2, map["a" := Num(1)]);
    }
    assert LetBindings(bs, 0, map[], [], fuel - 1, map[]) == (Returned(local), map[]);
    var empty: Frame := map[];
    assert [empty] + [] == [empty];
    SymbolEvaluation("b", local, [map[]], fuel - 1, 0);
    assert LetForm(es, map[], [], fuel - 1) == (Eval(Sym("b"), local, [map[]], fuel - 1).0, map[]);
    assert Eval(List(es), map[], [], fuel) == LetForm(es, map[], [], fuel - 1);
  }

  /** `(if (< 1 3) 2 3)` gives 2. */
  lemma IfLess(top: Frame, outer: seq<Frame>, fuel: nat)
    requires fuel >= 3
    ensures Eval(List([Sym("if"), List([Sym("<"), Num(1), Num(3)]), Num(2), Num(3)]), top, outer, fuel)
         == (Returned(Num(2)), top)
  {
    CompareOfLiterals("<", [Num(1), Num(3)], top, outer, fuel - 1);
    assert [Sym("<")] + [Num(1), Num(3)] == [Sym("<"), Num(1), Num(3)];
    var es := [Sym("if"), List([Sym("<"), Num(1), Num(3)]), Num(2), Num(3)];
    assert Eval(List(es), top, outer, fuel) == IfForm(es, top, outer, fuel - 1);
  }

  /** `(\ (x) (* 2 x))`. */
  const Double: Expr := Procedure([Sym("x")], [Sym("*"), Num(2), Sym("x")])

  /** Calling `Double` on a number literal doubles it, whenever the double
      fits the platform integer. */
  lemma DoubleCall(n: Int64, top: Frame, outer: seq<Frame>, fuel: nat)
    requires fuel >= 3 && InRange(2 * n as int)
    ensures Invoke(Double, [Num(n)], top, outer, fuel) == Returned(Num(2 * n))
  {
    var scope := [top] + outer;
    var child := map["x" := Num(n)];
    assert BindParams(Double.params, [Num(n)], 0, map[], scope, fuel) == Returned(child) by {
      assert BindParams(Double.params, [Num(n)], 0, map[], scope, fuel)
          == BindParams(Double.params, [Num(n)], 1, map[][ "x" := Num(n)], scope, fuel);
      assert map[][ "x" := Num(n)] == child;
    }
    var body := Double.body;
    assert Eval(Sym("x"), child, scope, fuel - 2) == (Returned(Num(n)), child);
    OperandsOfValues(body, 1, child, scope, fuel - 2, [], [2, n]);
    assert [] + [2, n] == [2, n];
    assert Narithmetic(Mul, [2, n]) == Ok(2 * n) by {
      assert [2, n][1..] == [n] && [n][1..] == [];
      assert Arithmetic.Step(Mul, 2, n) == Ok(2 * n);
      assert FoldFrom(Mul, 2, [n]) == FoldFrom(Mul, 2 * n, []);
    }
    assert Eval(List(body), child, scope, fuel - 1) == ArithForm(Mul, body, child, scope, fuel - 2);
  }

  /** `(map (list 1 2) (\ (x) (* 2 x)))` gives `(2 4)`. */
  lemma MapDouble(top: Frame, outer: seq<Frame>, fuel: nat)
    requires fuel >= 4
    ensures Eval(List([Sym("map"), List([Sym("list"), Num(1), Num(2)]),
                       List([Sym("\\"), List([Sym("x")]), List([Sym("*"), Num(2), Sym("x")])])]), top, outer, fuel)
         == (Returned(List([Num(2), Num(4)])), top)
  {
    var es := [Sym("map"), List([Sym("list"), Num(1), Num(2)]),
               List([Sym("\\"), List([Sym("x")]), List([Sym("*"), Num(2), Sym("x")])])];
    assert Eval(es[2], top, outer, fuel - 1) == (Returned(Double), top);
    assert Eval(es[1], top, outer, fuel - 1) == (Returned(List([Num(1), Num(2)])), top);
    DoubleCall(1, top, outer, fuel - 1);
    DoubleCall(2, top, outer, fuel - 1);
    var ts := [Num(1), Num(2)];
    assert MapOver(Double, ts, 0, top, outer, fuel - 1, []) == Returned(List([Num(2), Num(4)])) by {
      assert [] + [Num(2)] == [Num(2)] && [Num(2)] + [Num(4)] == [Num(2), Num(4)];
      assert MapOver(Double, ts, 0, top, outer, fuel - 1, []) == MapOver(Double, ts, 1, top, outer, fuel - 1, [Num(2)]);
      assert MapOver(Double, ts, 1, top, outer, fuel - 1, [Num(2)]) == MapOver(Double, ts, 2, top, outer, fuel - 1, [Num(2), Num(4)]);
    }
    assert Eval(List(es), top, outer, fuel) == MapForm(es, top, outer, fuel - 1);
  }

  /** `(defun calc (a b) (+ a b))`. */
  const CalcDefinition: Expr :=
    List([Sym("defun"), Sym("calc"), List([Sym("a"), Sym("b")]), List([Sym("+"), Sym("a"), Sym("b")])])

  const Calc: Expr := Procedure([Sym("a"), Sym("b")], [Sym("+"), Sym("a"), Sym("b")])

  /** `(defun calc (a b) (+ a b))` gives Nil and binds `calc`. */
  lemma DefineCalc(top: Frame, outer: seq<Frame>, fuel: nat)
    requires fuel >= 1
    ensures Eval(CalcDefinition, top, outer, fuel) == (Returned(Nil), top["calc" := Calc])
  {
    DefunBindsOneName(CalcDefinition.es, top, outer, fuel);
    assert top.Keys + {"calc"} == top["calc" := Calc].Keys;
  }

  /** `calc` called on 4 and 8. */
  lemma InvokeCalc(top: Frame, outer: seq<Frame>, fuel: nat)
    requires fuel >= 3
    ensures Invoke(Calc, [Num(4), Num(8)], top, outer, fuel) == Returned(Num(12))
  {
    var scope := [top] + outer;
    var child := map["a" := Num(4), "b" := Num(8)];
    assert BindParams(Calc.params, [Num(4), Num(8)], 0, map[], scope, fuel) == Returned(child) by {
      assert BindParams(Calc.params, [Num(4), Num(8)], 0, map[], scope, fuel)
          == BindParams(Calc.params, [Num(4), Num(8)], 1, map["a" := Num(4)], scope, fuel);
      assert BindParams(Calc.params, [Num(4), Num(8)], 1, map["a" := Num(4)], scope, fuel)
          == BindParams(Calc.params, [Num(4), Num(8)], 2, child, scope, fuel);
    }
    var body := Calc.body;
    assert Eval(Sym("a"), child, scope, fuel - 2) == (Returned(Num(4)), child);
    assert Eval(Sym("b"), child, scope, fuel - 2) == (Returned(Num(8)), child);
    OperandsOfValues(body, 1, child, scope, fuel - 2, [], [4, 8]);
    assert [] + [4 as Int64, 8] == [4, 8];
    assert Narithmetic(Add, [4, 8]) == Ok(12);
    assert Eval(List(body), child, scope, fuel - 1) == ArithForm(Add, body, child, scope, fuel - 2);
  }

  /** Where `calc` is bound to that procedure, `(calc 4 8)` gives 12. */
  lemma CallCalc(top: Frame, outer: seq<Frame>, fuel: nat)
    requires fuel >= 4 && ScopeLookup([top] + outer, "calc") == Some(Calc)
    ensures Eval(List([Sym("calc"), Num(4), Num(8)]), top, outer, fuel) == (Returned(Num(12)), top)
  {
    var es := [Sym("calc"), Num(4), Num(8)];
    CallOfBoundName(es, top, outer, fuel);
    assert es[1..] == [Num(4), Num(8)];
    InvokeCalc(top, outer, fuel - 1);
  }

  // The Fibonacci procedure of the test suite.

  function Fib(n: nat): nat {
    if n < 2 then 1 else Fib(n - 1) + Fib(n - 2)
  }

  /** `(if (= x 0) 1 (if (= x 1) 1 (+ (f (- x 1)) (f (- x 2)))))`. */
  const FibBody: seq<Expr> :=
    [Sym("if"), List([Sym("="), Sym("x"), Num(0)]), Num(1),
     List([Sym("if"), List([Sym("="), Sym("x"), Num(1)]), Num(1),
           List([Sym("+"), List([Sym("f"), List([Sym("-"), Sym("x"), Num(1)])]),
                           List([Sym("f"), List([Sym("-"), Sym("x"), Num(2)])])])])]

  /** `(defun f (x) ...)` with that body. */
  const FibDefinition: Expr := List([Sym("defun"), Sym("f"), List([Sym("x")]), List(FibBody)])

  const FibProc: Expr := Procedure([Sym("x")], FibBody)

  /** `(= x c)` where the innermost scope binds `x` to a number. */
  lemma CompareX(c: Int64, n: Int64, child: Frame, scope: seq<Frame>, fuel: nat)
    requires fuel >= 2 && "x" in child && child["x"] == Num(n)
    ensures Eval(List([Sym("="), Sym("x"), Num(c)]), child, scope, fuel) == (Returned(Boolean(n == c)), child)
  {
    var es := [Sym("="), Sym("x"), Num(c)];
    OperandsOfValues(es, 1, child, scope, fuel - 1, [], [n, c]);
    assert [] + [n, c] == [n, c];
    assert Eval(List(es), child, scope, fuel) == CompareForm(Equal, es, child, scope, fuel - 1);
  }

  /** `(- x k)` evaluated in a new empty scope just inside one that binds `x`,
      as an argument is. */
  lemma SubtractFromX(k: Int64, n: Int64, child: Frame, scope: seq<Frame>, fuel: nat)
    requires fuel >= 2 && "x" in child && child["x"] == Num(n) && InRange(n as int - k as int)
    ensures Eval(List([Sym("-"), Sym("x"), Num(k)]), map[], [child] + scope, fuel)
         == (Returned(Num(n - k)), map[])
  {
    var es := [Sym("-"), Sym("x"), Num(k)];
    var frames: seq<Frame> := [map[]] + ([child] + scope);
    assert frames[1..] == [child] + scope;
    assert ScopeLookup(frames, "x") == Some(Num(n));
    OperandsOfValues(es, 1, map[], [child] + scope, fuel - 1, [], [n, k]);
    assert [] + [n, k] == [n, k];
    assert Narithmetic(Sub, [n, k]) == Ok(n - k) by {
      assert [n, k][1..] == [k] && [k][1..] == [];
      assert Arithmetic.Step(Sub, n, k) == Ok(n - k);
      assert FoldFrom(Sub, n, [k]) == FoldFrom(Sub, n - k, []);
    }
    assert Eval(List(es), map[], [child] + scope, fuel) == ArithForm(Sub, es, map[], [child] + scope, fuel - 1);
  }

  /** `(+ a b)` of two evaluations that each give a number and leave the
      scope alone. */
  lemma SumOfTwo(es: seq<Expr>, a: Int64, b: Int64, top: Frame, outer: seq<Frame>, fuel: nat)
    requires fuel >= 1 && |es| == 3 && es[0] == Sym("+") && InRange(a as int + b as int)
    requires Eval(es[1], top, outer, fuel - 1) == (Returned(Num(a)), top)
    requires Eval(es[2], top, outer, fuel - 1) == (Returned(Num(b)), top)
    ensures Eval(List(es), top, outer, fuel) == (Returned(Num(a + b)), top)
  {
    OperandsOfValues(es, 1, top, outer, fuel - 1, [], [a, b]);
    assert [] + [a, b] == [a, b];
    assert Narithmetic(Add, [a, b]) == Ok(a + b) by {
      assert [a, b][1..] == [b] && [b][1..] == [];
      assert Arithmetic.Step(Add, a, b) == Ok(a + b);
      assert FoldFrom(Add, a, [b]) == FoldFrom(Add, a + b, []);
    }
    assert Eval(List(es), top, outer, fuel) == ArithForm(Add, es, top, outer, fuel - 1);
  }

  /** Calling the procedure on an argument that gives `n` binds `x` to `n`
      in a fresh frame. */
  lemma FibArgument(a: Expr, n: nat, scope: seq<Frame>, fuel: nat)
    requires n <= 100
    requires Eval(a, map[], scope, fuel) == (Returned(Num(n as Int64)), map[])
    ensures BindParams(FibProc.params, [a], 0, map[], scope, fuel) == Returned(map["x" := Num(n as Int64)])
  {
    assert BindParams(FibProc.params, [a], 0, map[], scope, fuel)
        == BindParams(FibProc.params, [a], 1, map[]["x" := Num(n as Int64)], scope, fuel);
    assert map[]["x" := Num(n as Int64)] == map["x" := Num(n as Int64)];
  }

  /** The procedure bound to `f` computes Fibonacci numbers: called on an
      argument that gives `n`, it returns `Fib(n)` as long as that fits, with
      fuel linear in `n`. Each recursive call finds `f` by looking outward
      from the caller's scope, where it is not bound, to the scope that
      binds it. */
  lemma {:induction false} FibCall(a: Expr, n: nat, top: Frame, outer: seq<Frame>, fuel: nat)
    requires n <= 100 && Fib(n) <= MaxInt && fuel >= 5 * n + 7
    requires ScopeLookup([top] + outer, "f") == Some(FibProc)
    requires Eval(a, map[], [top] + outer, fuel) == (Returned(Num(n as Int64)), map[])
    ensures Invoke(FibProc, [a], top, outer, fuel) == Returned(Num(Fib(n) as Int64))
    decreases n
  {
    var scope := [top] + outer;
    var child := map["x" := Num(n as Int64)];
    FibArgument(a, n, scope, fuel);
    assert Invoke(FibProc, [a], top, outer, fuel) == Eval(FibProc, child, scope, fuel).0;
    assert Eval(FibProc, child, scope, fuel) == Eval(List(FibBody), child, scope, fuel - 1);
    assert Eval(List(FibBody), child, scope, fuel - 1) == IfForm(FibBody, child, scope, fuel - 2);
    CompareX(0, n as Int64, child, scope, fuel - 2);
    if n == 0 {
      assert IfForm(FibBody, child, scope, fuel - 2) == Eval(Num(1), child, scope, fuel - 2);
    } else {
      FibInner(n, child, scope, fuel);
      assert IfForm(FibBody, child, scope, fuel - 2) == Eval(FibBody[3], child, scope, fuel - 2);
    }
  }

  /** The `(if (= x 1) 1 ...)` branch, for `n` of at least 1. */
  lemma {:induction false} FibInner(n: nat, child: Frame, scope: seq<Frame>, fuel: nat)
    requires 1 <= n <= 100 && Fib(n) <= MaxInt && fuel >= 5 * n + 7
    requires child == map["x" := Num(n as Int64)] && ScopeLookup(scope, "f") == Some(FibProc)
    ensures Eval(FibBody[3], child, scope, fuel - 2) == (Returned(Num(Fib(n) as Int64)), child)
    decreases n, 1
  {
    var inner := FibBody[3];
    assert Eval(inner, child, scope, fuel - 2) == IfForm(inner.es, child, scope, fuel - 3);
    CompareX(1, n as Int64, child, scope, fuel - 3);
    if n == 1 {
      assert IfForm(inner.es, child, scope, fuel - 3) == Eval(Num(1), child, scope, fuel - 3);
    } else {
      FibRecursion(n, child, scope, fuel);
      assert IfForm(inner.es, child, scope, fuel - 3) == Eval(inner.es[3], child, scope, fuel - 3);
    }
  }

  /** `(f (- x k))` for k of 1 or 2 gives `Fib(n - k)`. */
  lemma {:induction false} FibTerm(k: nat, n: nat, child: Frame, scope: seq<Frame>, fuel: nat)
    requires 1 <= k <= 2 && 2 <= n <= 100 && Fib(n) <= MaxInt && fuel >= 5 * n + 7
    requires child == map["x" := Num(n as Int64)] && ScopeLookup(scope, "f") == Some(FibProc)
    ensures Eval(FibBody[3].es[3].es[k], child, scope, fuel - 4) == (Returned(Num(Fib(n - k) as Int64)), child)
    decreases n, 0, 0
  {
    var call := FibBody[3].es[3].es[k];
    assert call.es == [Sym("f"), List([Sym("-"), Sym("x"), Num(k as Int64)])];
    assert ([child] + scope)[1..] == scope;
    CallOfBoundName(call.es, child, scope, fuel - 4);
    SubtractFromX(k as Int64, n as Int64, child, scope, fuel - 5);
    assert call.es[1..] == [List([Sym("-"), Sym("x"), Num(k as Int64)])];
    FibCall(call.es[1], n - k, child, scope, fuel - 5);
  }

  /** The `(+ (f (- x 1)) (f (- x 2)))` branch, for `n` of at least 2. */
  lemma {:induction false} FibRecursion(n: nat, child: Frame, scope: seq<Frame>, fuel: nat)
    requires 2 <= n <= 100 && Fib(n) <= MaxInt && fuel >= 5 * n + 7
    requires child == map["x" := Num(n as Int64)] && ScopeLookup(scope, "f") == Some(FibProc)
    ensures Eval(FibBody[3].es[3], child, scope, fuel - 3) == (Returned(Num(Fib(n) as Int64)), child)
    decreases n, 0
  {
    FibTerm(1, n, child, scope, fuel);
    FibTerm(2, n, child, scope, fuel);
    SumOfTwo(FibBody[3].es[3].es, Fib(n - 1) as Int64, Fib(n - 2) as Int64, child, scope, fuel - 3);
  }

  /** `(defun f (x) ...)` gives Nil and binds `f` to the procedure. */
  lemma DefineFib(top: Frame, outer: seq<Frame>, fuel: nat)
    requires fuel >= 1
    ensures Eval(FibDefinition, top, outer, fuel) == (Returned(Nil), top["f" := FibProc])
  {
    DefunBindsOneName(FibDefinition.es, top, outer, fuel);
    assert top.Keys + {"f"} == top["f" := FibProc].Keys;
  }

  /** `(\ (x) (f x))`. */
  const CallF: Expr := Procedure([Sym("x")], [Sym("f"), Sym("x")])

  /** `CallF` on a number literal `k` gives `Fib(k)`. */
  lemma CallFOn(k: nat, top: Frame, outer: seq<Frame>, fuel: nat)
    requires k <= 10 && fuel >= 5 * k + 10 && ScopeLookup([top] + outer, "f") == Some(FibProc)
    ensures Fib(k) <= 89
    ensures Invoke(CallF, [Num(k as Int64)], top, outer, fuel) == Returned(Num(Fib(k) as Int64))
  {
    FibUpToTen(k);
    var scope := [top] + outer;
    var child := map["x" := Num(k as Int64)];
    assert BindParams(CallF.params, [Num(k as Int64)], 0, map[], scope, fuel) == Returned(child) by {
      assert BindParams(CallF.params, [Num(k as Int64)], 0, map[], scope, fuel)
          == BindParams(CallF.params, [Num(k as Int64)], 1, map[]["x" := Num(k as Int64)], scope, fuel);
      assert map[]["x" := Num(k as Int64)] == child;
    }
    var frames := [child] + scope;
    assert frames[1..] == scope;
    assert ScopeLookup(frames, "f") == Some(FibProc);
    CallOfBoundName(CallF.body, child, scope, fuel - 1);
    assert CallF.body[1..] == [Sym("x")];
    assert ScopeLookup([map[]] + frames, "x") == Some(Num(k as Int64)) by {
      assert ([map[]] + frames)[1..] == frames;
    }
    FibCall(Sym("x"), k, child, scope, fuel - 2);
  }

  lemma FibUpToTen(k: nat)
    requires k <= 10
    ensures Fib(k) <= 89
    decreases 10 - k
  {
    assert Fib(10) == 89;
    if k < 10 {
      FibUpToTen(k + 1);
    }
  }

  /** The targets `(0 1 2 3 4 5 6 7 8 9 10)` and their Fibonacci numbers. */
  const Targets: seq<Expr> := [Num(0), Num(1), Num(2), Num(3), Num(4), Num(5), Num(6), Num(7), Num(8), Num(9), Num(10)]
  const FibNumbers: seq<Expr> :=
    [Num(1), Num(1), Num(2), Num(3), Num(5), Num(8), Num(13), Num(21), Num(34), Num(55), Num(89)]

  /** `CallF` on each target gives its Fibonacci number. */
  lemma CallFOnTargets(top: Frame, outer: seq<Frame>, fuel: nat)
    requires fuel >= 60 && ScopeLookup([top] + outer, "f") == Some(FibProc)
    ensures |Targets| == |FibNumbers|
    ensures forall j :: 0 <= j < |Targets| ==> Invoke(CallF, [Targets[j]], top, outer, fuel) == Returned(FibNumbers[j])
  {
    assert Fib(2) == 2 && Fib(3) == 3 && Fib(4) == 5 && Fib(5) == 8 && Fib(6) == 13;
    assert Fib(7) == 21 && Fib(8) == 34 && Fib(9) == 55 && Fib(10) == 89;
    forall j | 0 <= j < |Targets|
      ensures Invoke(CallF, [Targets[j]], top, outer, fuel) == Returned(FibNumbers[j])
    {
      assert Targets[j] == Num(j as Int64) && FibNumbers[j] == Num(Fib(j) as Int64);
      CallFOn(j, top, outer, fuel);
    }
  }

  /** `(map (list 0 1 2 3 4 5 6 7 8 9 10) (\ (x) (f x)))`, where `f` is the
      procedure above, gives `(1 1 2 3 5 8 13 21 34 55 89)`. */
  lemma FibonacciMap(top: Frame, outer: seq<Frame>, fuel: nat)
    requires fuel >= 61 && ScopeLookup([top] + outer, "f") == Some(FibProc)
    ensures Eval(List([Sym("map"), List([Sym("list")] + Targets),
                       List([Sym("\\"), List([Sym("x")]), List([Sym("f"), Sym("x")])])]), top, outer, fuel)
         == (Returned(List(FibNumbers)), top)
  {
    var es := [Sym("map"), List([Sym("list")] + Targets),
               List([Sym("\\"), List([Sym("x")]), List([Sym("f"), Sym("x")])])];
    assert Eval(es[2], top, outer, fuel - 1) == (Returned(CallF), top);
    assert ([Sym("list")] + Targets)[1..] == Targets;
    assert Eval(es[1], top, outer, fuel - 1) == (Returned(List(Targets)), top);
    CallFOnTargets(top, outer, fuel - 1);
    MapOverComplete(CallF, Targets, 0, top, outer, fuel - 1, [], FibNumbers);
    assert [] + FibNumbers[0..] == FibNumbers;
    assert Eval(List(es), top, outer, fuel) == MapForm(es, top, outer, fuel - 1);
  }
}
