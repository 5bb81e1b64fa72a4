/** The interpreter's test suite as one session: the ten programs evaluated
    in order by one evaluator, whose root scope keeps the definitions made
    along the way. */
module Session {
  import opened Values
  import opened Scopes
  import opened Semantics
  import opened Parser
  import opened Printing
  import opened SuiteTexts
  import opened Interpreter
  import opened Examples

  /** The ten programs, as the parser reads them. */
  const Programs: seq<Expr> := [
    List([Sym("+"), Num(0), List([Sym("*"), Num(11), Num(22)]), List([Sym("-"), Num(333), Num(30), Num(3)])]),
    List([Sym("first"), List([Num(1), Num(2), Num(3)])]),
    List([Sym("rest"), List([Num(1), Num(2), Num(3)])]),
    List([Sym("let"), List([Sym("a"), Num(2), Sym("b"), Num(3), Sym("c"), Num(4)]),
          List([Sym("+"), Sym("a"), Sym("b"), Sym("c")])]),
    List([Sym("if"), List([Sym("<"), Num(1), Num(3)]), Num(2), Num(3)]),
    List([Sym("map"), List([Sym("list"), Num(1), Num(2)]),
          List([Sym("\\"), List([Sym("x")]), List([Sym("*"), Num(2), Sym("x")])])]),
    CalcDefinition,
    List([Sym("calc"), Num(4), Num(8)]),
    FibDefinition,
    List([Sym("map"), List([Sym("list")] + Targets),
          List([Sym("\\"), List([Sym("x")]), List([Sym("f"), Sym("x")])])])
  ]

  /** The program texts of the test suite, in order. */
  const Texts: seq<string> := [
    "(+ 0 (* 11 22) (- 333 30 3))",
    "(first (1 2 3))",
    "(rest (1 2 3))",
    "(let (a 2 b 3 c 4) (+ a b c))",
    "(if (< 1 3) 2 3)",
    "(map (list 1 2) (\\ (x) (* 2 x)))",
    "(defun calc (a b) (+ a b))",
    "(calc 4 8)",
    "(defun f (x) (if (= x 0) 1 (if (= x 1) 1 (+ (f (- x 1)) (f (- x 2))))))",
    "(map (list 0 1 2 3 4 5 6 7 8 9 10) (\\ (x) (f x)))"
  ]

  /** The results the test suite expects, as it writes them. */
  const ExpectedTexts: seq<string> := [
    "542", "1", "(2 3)", "9", "2", "(2 4)", "#N", "12", "#N", "(1 1 2 3 5 8 13 21 34 55 89)"
  ]

  /** How the test suite writes a result: nil as `#N`, anything else in its
      written form. */
  function Shown(e: Expr): string
    requires e.Nil? || Writable(e)
  {
    if e.Nil? then "#N" else Unparse(e)
  }

  /** What the test suite expects of each program. */
  const Expected: seq<Expr> := [
    Num(542), Num(1), List([Num(2), Num(3)]), Num(9), Num(2), List([Num(2), Num(4)]),
    Nil, Num(12), Nil, List(FibNumbers)
  ]

  /** The fuel every program of the session is given. */
  const SessionFuel: nat := 61

  /** The root scope the `i`-th program of the session starts from: empty
      until `calc` is defined, then binding `calc`, then also `f`. */
  function ScopeBefore(i: nat): Frame {
    if i < 7 then map[]
    else if i < 9 then map["calc" := Calc]
    else map["calc" := Calc, "f" := FibProc]
  }

  /** Each program, evaluated on the root scope left by the ones before it,
      gives what the suite expects and leaves the scope the next one starts
      from. */
  lemma ProgramGivesExpected(i: nat)
    requires i < |Programs|
    ensures Eval(Programs[i], ScopeBefore(i), [], SessionFuel) == (Returned(Expected[i]), ScopeBefore(i + 1))
  {
    if i == 0 { Arithmetic542(map[], [], SessionFuel); }
    else if i <= 2 { FirstAndRest(map[], [], SessionFuel); }
    else if i == 3 { LetSum(map[], [], SessionFuel); }
    else if i == 4 { IfLess(map[], [], SessionFuel); }
    else if i == 5 { MapDouble(map[], [], SessionFuel); }
    else if i == 6 {
      DefineCalc(map[], [], SessionFuel);
      assert map[]["calc" := Calc] == ScopeBefore(7);
    } else if i == 7 { CallCalc(ScopeBefore(7), [], SessionFuel); }
    else if i == 8 {
      DefineFib(ScopeBefore(8), [], SessionFuel);
      assert ScopeBefore(8)["f" := FibProc] == ScopeBefore(9);
    } else { FibonacciMap(ScopeBefore(9), [], SessionFuel); }
  }

  /** Each program is the written form of its text in the test suite. */
  lemma ProgramTexts(i: nat)
    requires i < |Programs|
    ensures Shows(Programs[i], Texts[i])
  {
    if i == 0 { SumText(); }
    else if i == 1 { FirstText(); }
    else if i == 2 { RestText(); }
    else if i == 3 { LetText(); }
    else if i == 4 { IfText(); }
    else if i == 5 { MapDoubleText(); }
    else if i == 6 { CalcDefinitionText(); }
    else if i == 7 { CallCalcText(); }
    else if i == 8 { FibDefinitionText(); }
    else { FibonacciMapText(); }
  }

  /** Parsing the text of each program of the test suite gives that
      program. */
  lemma ReadsPrograms(i: nat)
    requires i < |Texts|
    ensures ParseText(Texts[i]) == Ok(Programs[i])
  {
    ProgramTexts(i);
    ParseUnparse(Programs[i]);
  }

  /** Each expected result, written as the test suite writes results, is the
      text the suite compares against. */
  lemma ExpectedAsShown(i: nat)
    requires i < |Expected|
    ensures Expected[i].Nil? || Writable(Expected[i])
    ensures Shown(Expected[i]) == ExpectedTexts[i]
  {
    if i == 0 { ShowsNumber(542, "542"); }
    else if i == 1 { ShowsNumber(1, "1"); }
    else if i == 2 { TwoThreeText(); }
    else if i == 3 { ShowsNumber(9, "9"); }
    else if i == 4 { ShowsNumber(2, "2"); }
    else if i == 5 { TwoFourText(); }
    else if i == 7 { ShowsNumber(12, "12"); }
    else if i == 9 { FibNumbersText(); }
  }

  /** One program of the test suite: parses its text, evaluates it on the
      evaluator, and writes the result. */
  method RunProgram(ev: Evaluator, i: nat) returns (r: Outcome<Expr>, text: string)
    requires i < |Texts| && ev.Valid() && ev.rootEnv.vars == ScopeBefore(i)
    modifies ev.rootEnv
    ensures ev.Valid() && ev.rootEnv.vars == ScopeBefore(i + 1)
    ensures r == Returned(Expected[i]) && text == ExpectedTexts[i]
  {
    var program := Parse(Texts[i]);
    ReadsPrograms(i);
    ProgramGivesExpected(i);
    r := ev.Eval(program.value, SessionFuel);
    ExpectedAsShown(i);
    text := Shown(r.value);
  }

  /** Runs the test suite on one evaluator. Each program gives what the suite
      expects and each written result is the suite's expected text, the call
      of `calc` and the Fibonacci map relying on the definitions made by
      earlier programs. */
  method RunTestSuite() returns (results: seq<Outcome<Expr>>, written: seq<string>)
    ensures |results| == |Expected|
    ensures forall i :: 0 <= i < |results| ==> results[i] == Returned(Expected[i])
    ensures written == ExpectedTexts
  {
    var ev := new Evaluator();
    results, written := [], [];
    var i := 0;
    while i < |Texts|
      invariant 0 <= i <= |Texts| && |results| == i
      invariant ev.Valid() && fresh(ev.rootEnv)
      invariant ev.rootEnv.vars == ScopeBefore(i)
      invariant forall j :: 0 <= j < i ==> results[j] == Returned(Expected[j])
      invariant written == ExpectedTexts[..i]
    {
      var r, text := RunProgram(ev, i);
      results := results + [r];
      written := written + [text];
      i := i + 1;
    }
  }
}
