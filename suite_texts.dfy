/** The texts of the interpreter's test suite, its programs and the results
    it expects, as the written forms of the expressions the model works
    with. Each list is written from the written forms of its elements; the
    string equations are checked a few characters at a time. */
module SuiteTexts {
  import opened Values
  import opened Printing
  import opened Examples

  /** `(* 11 22)`. */
  lemma ProductText()
    ensures Shows(List([Sym("*"), Num(11), Num(22)]), "(* 11 22)")
  {
    assert "(" + "*" + " " + "11" + " " + "22" + ")" == "(* 11 22)";
    ShowsName("*");
    ShowsNumber(11, "11");
    ShowsNumber(22, "22");
    ShowsThree(Sym("*"), Num(11), Num(22), "*", "11", "22", "(* 11 22)");
  }

  /** `(- 333 30 3)`. */
  lemma DifferenceText()
    ensures Shows(List([Sym("-"), Num(333), Num(30), Num(3)]), "(- 333 30 3)")
  {
    assert "(" + "-" + " " + "333" + " " + "30" + " " + "3" + ")" == "(- 333 30 3)";
    ShowsName("-");
    ShowsNumber(333, "333");
    ShowsNumber(30, "30");
    ShowsNumber(3, "3");
    ShowsFour(Sym("-"), Num(333), Num(30), Num(3), "-", "333", "30", "3", "(- 333 30 3)");
  }

  lemma SumSpelling()
    ensures "(" + "+" + " " + "0" + " " + "(* 11 22)" + " " + "(- 333 30 3)" + ")" == "(+ 0 (* 11 22) (- 333 30 3))"
  {
    assert "(" + "+" + " " + "0" + " " + "(* 11 22)" + " " == "(+ 0 (* 11 22) ";
  }

  /** `(+ 0 (* 11 22) (- 333 30 3))`, the first program. */
  lemma SumText()
    ensures Shows(List([Sym("+"), Num(0), List([Sym("*"), Num(11), Num(22)]), List([Sym("-"), Num(333), Num(30), Num(3)])]), "(+ 0 (* 11 22) (- 333 30 3))")
  {
    SumSpelling();
    ShowsName("+");
    ShowsNumber(0, "0");
    ProductText();
    DifferenceText();
    ShowsFour(Sym("+"), Num(0), List([Sym("*"), Num(11), Num(22)]), List([Sym("-"), Num(333), Num(30), Num(3)]), "+", "0", "(* 11 22)", "(- 333 30 3)", "(+ 0 (* 11 22) (- 333 30 3))");
  }

  /** `(1 2 3)`. */
  lemma OneTwoThreeText()
    ensures Shows(List([Num(1), Num(2), Num(3)]), "(1 2 3)")
  {
    assert "(" + "1" + " " + "2" + " " + "3" + ")" == "(1 2 3)";
    ShowsNumber(1, "1");
    ShowsNumber(2, "2");
    ShowsNumber(3, "3");
    ShowsThree(Num(1), Num(2), Num(3), "1", "2", "3", "(1 2 3)");
  }

  /** `(first (1 2 3))`. */
  lemma FirstText()
    ensures Shows(List([Sym("first"), List([Num(1), Num(2), Num(3)])]), "(first (1 2 3))")
  {
    assert "(" + "first" + " " + "(1 2 3)" + ")" == "(first (1 2 3))";
    ShowsName("first");
    OneTwoThreeText();
    ShowsTwo(Sym("first"), List([Num(1), Num(2), Num(3)]), "first", "(1 2 3)", "(first (1 2 3))");
  }

  /** `(rest (1 2 3))`. */
  lemma RestText()
    ensures Shows(List([Sym("rest"), List([Num(1), Num(2), Num(3)])]), "(rest (1 2 3))")
  {
    assert "(" + "rest" + " " + "(1 2 3)" + ")" == "(rest (1 2 3))";
    ShowsName("rest");
    OneTwoThreeText();
    ShowsTwo(Sym("rest"), List([Num(1), Num(2), Num(3)]), "rest", "(1 2 3)", "(rest (1 2 3))");
  }

  /** `(a 2 b)`. */
  lemma LetFrontText()
    ensures Shows(List([Sym("a"), Num(2), Sym("b")]), "(a 2 b)")
  {
    assert "(" + "a" + " " + "2" + " " + "b" + ")" == "(a 2 b)";
    ShowsName("a");
    ShowsNumber(2, "2");
    ShowsName("b");
    ShowsThree(Sym("a"), Num(2), Sym("b"), "a", "2", "b", "(a 2 b)");
  }

  /** `(3 c 4)`. */
  lemma LetBackText()
    ensures Shows(List([Num(3), Sym("c"), Num(4)]), "(3 c 4)")
  {
    assert "(" + "3" + " " + "c" + " " + "4" + ")" == "(3 c 4)";
    ShowsNumber(3, "3");
    ShowsName("c");
    ShowsNumber(4, "4");
    ShowsThree(Num(3), Sym("c"), Num(4), "3", "c", "4", "(3 c 4)");
  }

  /** `(a 2 b 3 c 4)`, the bindings of the `let` program. */
  lemma LetFrameText()
    ensures Shows(List([Sym("a"), Num(2), Sym("b"), Num(3), Sym("c"), Num(4)]), "(a 2 b 3 c 4)")
  {
    assert "(" + "a 2 b" + ")" == "(a 2 b)";
    assert "(" + "3 c 4" + ")" == "(3 c 4)";
    assert "(" + "a 2 b" + " " + "3 c 4" + ")" == "(a 2 b 3 c 4)";
    assert [Sym("a"), Num(2), Sym("b")] + [Num(3), Sym("c"), Num(4)] == [Sym("a"), Num(2), Sym("b"), Num(3), Sym("c"), Num(4)];
    LetFrontText();
    LetBackText();
    ShowsAppend([Sym("a"), Num(2), Sym("b")], [Num(3), Sym("c"), Num(4)], "a 2 b", "3 c 4", "(a 2 b 3 c 4)");
  }

  /** `(+ a b c)`. */
  lemma SumOfBindingsText()
    ensures Shows(List([Sym("+"), Sym("a"), Sym("b"), Sym("c")]), "(+ a b c)")
  {
    assert "(" + "+" + " " + "a" + " " + "b" + " " + "c" + ")" == "(+ a b c)";
    ShowsName("+");
    ShowsName("a");
    ShowsName("b");
    ShowsName("c");
    ShowsFour(Sym("+"), Sym("a"), Sym("b"), Sym("c"), "+", "a", "b", "c", "(+ a b c)");
  }

  lemma LetSpelling()
    ensures "(" + "let" + " " + "(a 2 b 3 c 4)" + " " + "(+ a b c)" + ")" == "(let (a 2 b 3 c 4) (+ a b c))"
  {
    assert "(" + "let" + " " + "(a 2 b 3 c 4)" + " " == "(let (a 2 b 3 c 4) ";
  }

  /** `(let (a 2 b 3 c 4) (+ a b c))`. */
  lemma LetText()
    ensures Shows(List([Sym("let"), List([Sym("a"), Num(2), Sym("b"), Num(3), Sym("c"), Num(4)]), List([Sym("+"), Sym("a"), Sym("b"), Sym("c")])]), "(let (a 2 b 3 c 4) (+ a b c))")
  {
    LetSpelling();
    ShowsName("let");
    LetFrameText();
    SumOfBindingsText();
    ShowsThree(Sym("let"), List([Sym("a"), Num(2), Sym("b"), Num(3), Sym("c"), Num(4)]), List([Sym("+"), Sym("a"), Sym("b"), Sym("c")]), "let", "(a 2 b 3 c 4)", "(+ a b c)", "(let (a 2 b 3 c 4) (+ a b c))");
  }

  /** `(< 1 3)`. */
  lemma LessText()
    ensures Shows(List([Sym("<"), Num(1), Num(3)]), "(< 1 3)")
  {
    assert "(" + "<" + " " + "1" + " " + "3" + ")" == "(< 1 3)";
    ShowsName("<");
    ShowsNumber(1, "1");
    ShowsNumber(3, "3");
    ShowsThree(Sym("<"), Num(1), Num(3), "<", "1", "3", "(< 1 3)");
  }

  /** `(if (< 1 3) 2 3)`. */
  lemma IfText()
    ensures Shows(List([Sym("if"), List([Sym("<"), Num(1), Num(3)]), Num(2), Num(3)]), "(if (< 1 3) 2 3)")
  {
    assert "(" + "if" + " " + "(< 1 3)" + " " + "2" + " " + "3" + ")" == "(if (< 1 3) 2 3)";
    ShowsName("if");
    ShowsNumber(2, "2");
    ShowsNumber(3, "3");
    LessText();
    ShowsFour(Sym("if"), List([Sym("<"), Num(1), Num(3)]), Num(2), Num(3), "if", "(< 1 3)", "2", "3", "(if (< 1 3) 2 3)");
  }

  /** `(list 1 2)`. */
  lemma PairText()
    ensures Shows(List([Sym("list"), Num(1), Num(2)]), "(list 1 2)")
  {
    assert "(" + "list" + " " + "1" + " " + "2" + ")" == "(list 1 2)";
    ShowsName("list");
    ShowsNumber(1, "1");
    ShowsNumber(2, "2");
    ShowsThree(Sym("list"), Num(1), Num(2), "list", "1", "2", "(list 1 2)");
  }

  /** `(x)`, the parameters of the procedures taking `x`. */
  lemma ParamsText()
    ensures Shows(List([Sym("x")]), "(x)")
  {
    assert "(" + "x" + ")" == "(x)";
    ShowsName("x");
    ShowsOne(Sym("x"), "x", "(x)");
  }

  /** `(* 2 x)`. */
  lemma DoubleText()
    ensures Shows(List([Sym("*"), Num(2), Sym("x")]), "(* 2 x)")
  {
    assert "(" + "*" + " " + "2" + " " + "x" + ")" == "(* 2 x)";
    ShowsName("*");
    ShowsNumber(2, "2");
    ShowsName("x");
    ShowsThree(Sym("*"), Num(2), Sym("x"), "*", "2", "x", "(* 2 x)");
  }

  /** `(\ (x) (* 2 x))`. */
  lemma DoublerText()
    ensures Shows(List([Sym("\\"), List([Sym("x")]), List([Sym("*"), Num(2), Sym("x")])]), "(\\ (x) (* 2 x))")
  {
    assert "(" + "\\" + " " + "(x)" + " " + "(* 2 x)" + ")" == "(\\ (x) (* 2 x))";
    ShowsName("\\");
    ParamsText();
    DoubleText();
    ShowsThree(Sym("\\"), List([Sym("x")]), List([Sym("*"), Num(2), Sym("x")]), "\\", "(x)", "(* 2 x)", "(\\ (x) (* 2 x))");
  }

  lemma MapDoubleSpelling()
    ensures "(" + "map" + " " + "(list 1 2)" + " " + "(\\ (x) (* 2 x))" + ")" == "(map (list 1 2) (\\ (x) (* 2 x)))"
  {
    assert "(" + "map" + " " + "(list 1 2)" + " " == "(map (list 1 2) ";
  }

  /** `(map (list 1 2) (\ (x) (* 2 x)))`. */
  lemma MapDoubleText()
    ensures Shows(List([Sym("map"), List([Sym("list"), Num(1), Num(2)]), List([Sym("\\"), List([Sym("x")]), List([Sym("*"), Num(2), Sym("x")])])]), "(map (list 1 2) (\\ (x) (* 2 x)))")
  {
    MapDoubleSpelling();
    ShowsName("map");
    PairText();
    DoublerText();
    ShowsThree(Sym("map"), List([Sym("list"), Num(1), Num(2)]), List([Sym("\\"), List([Sym("x")]), List([Sym("*"), Num(2), Sym("x")])]), "map", "(list 1 2)", "(\\ (x) (* 2 x))", "(map (list 1 2) (\\ (x) (* 2 x)))");
  }

  /** `(a b)`. */
  lemma CalcParamsText()
    ensures Shows(List([Sym("a"), Sym("b")]), "(a b)")
  {
    assert "(" + "a" + " " + "b" + ")" == "(a b)";
    ShowsName("a");
    ShowsName("b");
    ShowsTwo(Sym("a"), Sym("b"), "a", "b", "(a b)");
  }

  /** `(+ a b)`. */
  lemma CalcBodyText()
    ensures Shows(List([Sym("+"), Sym("a"), Sym("b")]), "(+ a b)")
  {
    assert "(" + "+" + " " + "a" + " " + "b" + ")" == "(+ a b)";
    ShowsName("+");
    ShowsName("a");
    ShowsName("b");
    ShowsThree(Sym("+"), Sym("a"), Sym("b"), "+", "a", "b", "(+ a b)");
  }

  lemma CalcDefinitionSpelling()
    ensures "(" + "defun" + " " + "calc" + " " + "(a b)" + " " + "(+ a b)" + ")" == "(defun calc (a b) (+ a b))"
  {
    assert "(" + "defun" + " " + "calc" + " " + "(a b)" + " " == "(defun calc (a b) ";
  }

  /** `(defun calc (a b) (+ a b))`. */
  lemma CalcDefinitionText()
    ensures Shows(CalcDefinition, "(defun calc (a b) (+ a b))")
  {
    CalcDefinitionSpelling();
    ShowsName("defun");
    ShowsName("calc");
    CalcParamsText();
    CalcBodyText();
    ShowsFour(Sym("defun"), Sym("calc"), List([Sym("a"), Sym("b")]), List([Sym("+"), Sym("a"), Sym("b")]), "defun", "calc", "(a b)", "(+ a b)", "(defun calc (a b) (+ a b))");
  }

  /** `(calc 4 8)`. */
  lemma CallCalcText()
    ensures Shows(List([Sym("calc"), Num(4), Num(8)]), "(calc 4 8)")
  {
    assert "(" + "calc" + " " + "4" + " " + "8" + ")" == "(calc 4 8)";
    ShowsName("calc");
    ShowsNumber(4, "4");
    ShowsNumber(8, "8");
    ShowsThree(Sym("calc"), Num(4), Num(8), "calc", "4", "8", "(calc 4 8)");
  }

  /** `(= x 0)`. */
  lemma IsZeroText()
    ensures Shows(List([Sym("="), Sym("x"), Num(0)]), "(= x 0)")
  {
    assert "(" + "=" + " " + "x" + " " + "0" + ")" == "(= x 0)";
    ShowsName("=");
    ShowsName("x");
    ShowsNumber(0, "0");
    ShowsThree(Sym("="), Sym("x"), Num(0), "=", "x", "0", "(= x 0)");
  }

  /** `(= x 1)`. */
  lemma IsOneText()
    ensures Shows(List([Sym("="), Sym("x"), Num(1)]), "(= x 1)")
  {
    assert "(" + "=" + " " + "x" + " " + "1" + ")" == "(= x 1)";
    ShowsName("=");
    ShowsName("x");
    ShowsNumber(1, "1");
    ShowsThree(Sym("="), Sym("x"), Num(1), "=", "x", "1", "(= x 1)");
  }

  /** `(- x 1)`. */
  lemma MinusOneText()
    ensures Shows(List([Sym("-"), Sym("x"), Num(1)]), "(- x 1)")
  {
    assert "(" + "-" + " " + "x" + " " + "1" + ")" == "(- x 1)";
    ShowsName("-");
    ShowsName("x");
    ShowsNumber(1, "1");
    ShowsThree(Sym("-"), Sym("x"), Num(1), "-", "x", "1", "(- x 1)");
  }

  /** `(- x 2)`. */
  lemma MinusTwoText()
    ensures Shows(List([Sym("-"), Sym("x"), Num(2)]), "(- x 2)")
  {
    assert "(" + "-" + " " + "x" + " " + "2" + ")" == "(- x 2)";
    ShowsName("-");
    ShowsName("x");
    ShowsNumber(2, "2");
    ShowsThree(Sym("-"), Sym("x"), Num(2), "-", "x", "2", "(- x 2)");
  }

  /** `(f (- x 1))`. */
  lemma FMinusOneText()
    ensures Shows(List([Sym("f"), List([Sym("-"), Sym("x"), Num(1)])]), "(f (- x 1))")
  {
    assert "(" + "f" + " " + "(- x 1)" + ")" == "(f (- x 1))";
    ShowsName("f");
    MinusOneText();
    ShowsTwo(Sym("f"), List([Sym("-"), Sym("x"), Num(1)]), "f", "(- x 1)", "(f (- x 1))");
  }

  /** `(f (- x 2))`. */
  lemma FMinusTwoText()
    ensures Shows(List([Sym("f"), List([Sym("-"), Sym("x"), Num(2)])]), "(f (- x 2))")
  {
    assert "(" + "f" + " " + "(- x 2)" + ")" == "(f (- x 2))";
    ShowsName("f");
    MinusTwoText();
    ShowsTwo(Sym("f"), List([Sym("-"), Sym("x"), Num(2)]), "f", "(- x 2)", "(f (- x 2))");
  }

  lemma RecursionSpelling()
    ensures "(" + "+" + " " + "(f (- x 1))" + " " + "(f (- x 2))" + ")" == "(+ (f (- x 1)) (f (- x 2)))"
  {
    assert "(" + "+" + " " + "(f (- x 1))" + " " == "(+ (f (- x 1)) ";
  }

  /** `(+ (f (- x 1)) (f (- x 2)))`. */
  lemma RecursionText()
    ensures Shows(List([Sym("+"), List([Sym("f"), List([Sym("-"), Sym("x"), Num(1)])]), List([Sym("f"), List([Sym("-"), Sym("x"), Num(2)])])]), "(+ (f (- x 1)) (f (- x 2)))")
  {
    RecursionSpelling();
    ShowsName("+");
    FMinusOneText();
    FMinusTwoText();
    ShowsThree(Sym("+"), List([Sym("f"), List([Sym("-"), Sym("x"), Num(1)])]), List([Sym("f"), List([Sym("-"), Sym("x"), Num(2)])]), "+", "(f (- x 1))", "(f (- x 2))", "(+ (f (- x 1)) (f (- x 2)))");
  }

  lemma InnerIfSpelling()
    ensures "(" + "if" + " " + "(= x 1)" + " " + "1" + " " + "(+ (f (- x 1)) (f (- x 2)))" + ")" == "(if (= x 1) 1 (+ (f (- x 1)) (f (- x 2))))"
  {
    assert "(+ (f (- x 1)) (f" + " (- x 2)))" == "(+ (f (- x 1)) (f (- x 2)))";
    assert "(" + "if" + " " + "(= x 1)" + " " + "1" + " " == "(if (= x 1) 1 ";
    Associate("(" + "if" + " " + "(= x 1)" + " " + "1" + " ", "(+ (f (- x 1)) (f", " (- x 2)))");
    assert "(" + "if" + " " + "(= x 1)" + " " + "1" + " " + "(+ (f (- x 1)) (f" == "(if (= x 1) 1 (+ (f (- x 1)) (f";
    assert "(" + "if" + " " + "(= x 1)" + " " + "1" + " " + ("(+ (f (- x 1)) (f" + " (- x 2)))") == "(if (= x 1) 1 (+ (f (- x 1)) (f (- x 2)))";
  }

  /** `(if (= x 1) 1 (+ (f (- x 1)) (f (- x 2))))`. */
  lemma InnerIfText()
    ensures Shows(List([Sym("if"), List([Sym("="), Sym("x"), Num(1)]), Num(1), List([Sym("+"), List([Sym("f"), List([Sym("-"), Sym("x"), Num(1)])]), List([Sym("f"), List([Sym("-"), Sym("x"), Num(2)])])])]), "(if (= x 1) 1 (+ (f (- x 1)) (f (- x 2))))")
  {
    InnerIfSpelling();
    ShowsName("if");
    ShowsNumber(1, "1");
    IsOneText();
    RecursionText();
    ShowsFour(Sym("if"), List([Sym("="), Sym("x"), Num(1)]), Num(1), List([Sym("+"), List([Sym("f"), List([Sym("-"), Sym("x"), Num(1)])]), List([Sym("f"), List([Sym("-"), Sym("x"), Num(2)])])]), "if", "(= x 1)", "1", "(+ (f (- x 1)) (f (- x 2)))", "(if (= x 1) 1 (+ (f (- x 1)) (f (- x 2))))");
  }

  lemma InnerFront()
    ensures "(if (= x 1) 1 (+ (f" + " (- x 1)) (f (- x" == "(if (= x 1) 1 (+ (f (- x 1)) (f (- x"
  {
  }

  lemma InnerBack()
    ensures "(if (= x 1) 1 (+ (f (- x 1)) (f (- x" + " 2))))" == "(if (= x 1) 1 (+ (f (- x 1)) (f (- x 2))))"
  {
  }

  lemma BodyFirst()
    ensures "(if (= x 0) 1 " + "(if (= x 1) 1 (+ (f" == "(if (= x 0) 1 (if (= x 1) 1 (+ (f"
  {
  }

  lemma BodySecond()
    ensures "(if (= x 0) 1 (if (= x 1) 1 (+ (f" + " (- x 1)) (f (- x" == "(if (= x 0) 1 (if (= x 1) 1 (+ (f (- x 1)) (f (- x"
  {
  }

  lemma BodyThird()
    ensures "(if (= x 0) 1 (if (= x 1) 1 (+ (f (- x 1)) (f (- x" + " 2))))" + ")" == "(if (= x 0) 1 (if (= x 1) 1 (+ (f (- x 1)) (f (- x 2)))))"
  {
  }

  lemma FibBodySpelling()
    ensures "(" + "if" + " " + "(= x 0)" + " " + "1" + " " + "(if (= x 1) 1 (+ (f (- x 1)) (f (- x 2))))" + ")" == "(if (= x 0) 1 (if (= x 1) 1 (+ (f (- x 1)) (f (- x 2)))))"
  {
    var pre, p, q, r := "(" + "if" + " " + "(= x 0)" + " " + "1" + " ", "(if (= x 1) 1 (+ (f", " (- x 1)) (f (- x", " 2))))";
    assert pre == "(if (= x 0) 1 ";
    InnerFront();
    InnerBack();
    Associate(pre, p + q, r);
    Associate(pre, p, q);
    BodyFirst();
    BodySecond();
    BodyThird();
  }

  /** The body of the Fibonacci procedure. */
  lemma FibBodyText()
    ensures Shows(List(FibBody), "(if (= x 0) 1 (if (= x 1) 1 (+ (f (- x 1)) (f (- x 2)))))")
  {
    FibBodySpelling();
    ShowsName("if");
    ShowsNumber(1, "1");
    IsZeroText();
    InnerIfText();
    ShowsFour(Sym("if"), List([Sym("="), Sym("x"), Num(0)]), Num(1), List([Sym("if"), List([Sym("="), Sym("x"), Num(1)]), Num(1), List([Sym("+"), List([Sym("f"), List([Sym("-"), Sym("x"), Num(1)])]), List([Sym("f"), List([Sym("-"), Sym("x"), Num(2)])])])]), "if", "(= x 0)", "1", "(if (= x 1) 1 (+ (f (- x 1)) (f (- x 2))))", "(if (= x 0) 1 (if (= x 1) 1 (+ (f (- x 1)) (f (- x 2)))))");
  }

  lemma BodyPieceTwo()
    ensures "(if (= x 0) 1 (if" + " (= x 1) 1 (+ (f (-" == "(if (= x 0) 1 (if (= x 1) 1 (+ (f (-"
  {
  }

  lemma BodyPieceThree()
    ensures "(if (= x 0) 1 (if (= x 1) 1 (+ (f (-" + " x 1)) (f (- x" == "(if (= x 0) 1 (if (= x 1) 1 (+ (f (- x 1)) (f (- x"
  {
  }

  lemma BodyPieceFour()
    ensures "(if (= x 0) 1 (if (= x 1) 1 (+ (f (- x 1)) (f (- x" + " 2)))))" == "(if (= x 0) 1 (if (= x 1) 1 (+ (f (- x 1)) (f (- x 2)))))"
  {
  }

  lemma DefinitionFirst()
    ensures "(defun f (x) " + "(if (= x 0) 1 (if" == "(defun f (x) (if (= x 0) 1 (if"
  {
  }

  lemma DefinitionSecond()
    ensures "(defun f (x) (if (= x 0) 1 (if" + " (= x 1) 1 (+ (f (-" == "(defun f (x) (if (= x 0) 1 (if (= x 1) 1 (+ (f (-"
  {
  }

  lemma DefinitionThird()
    ensures "(defun f (x) (if (= x 0) 1 (if (= x 1) 1 (+ (f (-" + " x 1)) (f (- x" == "(defun f (x) (if (= x 0) 1 (if (= x 1) 1 (+ (f (- x 1)) (f (- x"
  {
  }

  lemma DefinitionFourth()
    ensures "(defun f (x) (if (= x 0) 1 (if (= x 1) 1 (+ (f (- x 1)) (f (- x" + " 2)))))" + ")" == "(defun f (x) (if (= x 0) 1 (if (= x 1) 1 (+ (f (- x 1)) (f (- x 2))))))"
  {
  }

  lemma FibDefinitionSpelling()
    ensures "(" + "defun" + " " + "f" + " " + "(x)" + " " + "(if (= x 0) 1 (if (= x 1) 1 (+ (f (- x 1)) (f (- x 2)))))" + ")" == "(defun f (x) (if (= x 0) 1 (if (= x 1) 1 (+ (f (- x 1)) (f (- x 2))))))"
  {
    var pre, p, q, r, s := "(" + "defun" + " " + "f" + " " + "(x)" + " ", "(if (= x 0) 1 (if", " (= x 1) 1 (+ (f (-", " x 1)) (f (- x", " 2)))))";
    assert pre == "(defun f (x) ";
    BodyPieceTwo();
    BodyPieceThree();
    BodyPieceFour();
    Associate(pre, p + q + r, s);
    Associate(pre, p + q, r);
    Associate(pre, p, q);
    DefinitionFirst();
    DefinitionSecond();
    DefinitionThird();
    DefinitionFourth();
  }

  /** `(defun f (x) ...)` with that body. */
  lemma FibDefinitionText()
    ensures Shows(FibDefinition, "(defun f (x) (if (= x 0) 1 (if (= x 1) 1 (+ (f (- x 1)) (f (- x 2))))))")
  {
    FibDefinitionSpelling();
    ShowsName("defun");
    ShowsName("f");
    ParamsText();
    FibBodyText();
    ShowsFour(Sym("defun"), Sym("f"), List([Sym("x")]), List(FibBody), "defun", "f", "(x)", "(if (= x 0) 1 (if (= x 1) 1 (+ (f (- x 1)) (f (- x 2)))))", "(defun f (x) (if (= x 0) 1 (if (= x 1) 1 (+ (f (- x 1)) (f (- x 2))))))");
  }

  /** `(list 0 1 2)`. */
  lemma TargetsFrontText()
    ensures Shows(List([Sym("list"), Num(0), Num(1), Num(2)]), "(list 0 1 2)")
  {
    assert "(" + "list" + " " + "0" + " " + "1" + " " + "2" + ")" == "(list 0 1 2)";
    ShowsName("list");
    ShowsNumber(0, "0");
    ShowsNumber(1, "1");
    ShowsNumber(2, "2");
    ShowsFour(Sym("list"), Num(0), Num(1), Num(2), "list", "0", "1", "2", "(list 0 1 2)");
  }

  /** `(3 4 5 6)`. */
  lemma TargetsMiddleText()
    ensures Shows(List([Num(3), Num(4), Num(5), Num(6)]), "(3 4 5 6)")
  {
    assert "(" + "3" + " " + "4" + " " + "5" + " " + "6" + ")" == "(3 4 5 6)";
    ShowsNumber(3, "3");
    ShowsNumber(4, "4");
    ShowsNumber(5, "5");
    ShowsNumber(6, "6");
    ShowsFour(Num(3), Num(4), Num(5), Num(6), "3", "4", "5", "6", "(3 4 5 6)");
  }

  /** `(7 8 9 10)`. */
  lemma TargetsBackText()
    ensures Shows(List([Num(7), Num(8), Num(9), Num(10)]), "(7 8 9 10)")
  {
    assert "(" + "7" + " " + "8" + " " + "9" + " " + "10" + ")" == "(7 8 9 10)";
    ShowsNumber(7, "7");
    ShowsNumber(8, "8");
    ShowsNumber(9, "9");
    ShowsNumber(10, "10");
    ShowsFour(Num(7), Num(8), Num(9), Num(10), "7", "8", "9", "10", "(7 8 9 10)");
  }

  /** `(list 0 1 2 3 4 5 6)`. */
  lemma TargetsOpeningText()
    ensures Shows(List([Sym("list"), Num(0), Num(1), Num(2)] + [Num(3), Num(4), Num(5), Num(6)]), "(list 0 1 2 3 4 5 6)")
  {
    assert "(" + "list 0 1 2" + ")" == "(list 0 1 2)";
    assert "(" + "3 4 5 6" + ")" == "(3 4 5 6)";
    assert "(" + "list 0 1 2" + " " + "3 4 5 6" + ")" == "(list 0 1 2 3 4 5 6)";
    TargetsFrontText();
    TargetsMiddleText();
    ShowsAppend([Sym("list"), Num(0), Num(1), Num(2)], [Num(3), Num(4), Num(5), Num(6)], "list 0 1 2", "3 4 5 6", "(list 0 1 2 3 4 5 6)");
  }

  /** `(list 0 1 2 3 4 5 6 7 8 9 10)`, the targets of the Fibonacci map. */
  lemma TargetsText()
    ensures Shows(List([Sym("list")] + Targets), "(list 0 1 2 3 4 5 6 7 8 9 10)")
  {
    assert "(" + "list 0 1 2 3 4 5 6" + ")" == "(list 0 1 2 3 4 5 6)";
    assert "(" + "7 8 9 10" + ")" == "(7 8 9 10)";
    assert "(" + "list 0 1 2 3 4 5 6" + " " + "7 8 9 10" + ")" == "(list 0 1 2 3 4 5 6 7 8 9 10)";
    assert [Sym("list"), Num(0), Num(1), Num(2)] + [Num(3), Num(4), Num(5), Num(6)] + [Num(7), Num(8), Num(9), Num(10)] == [Sym("list")] + Targets;
    TargetsOpeningText();
    TargetsBackText();
    ShowsAppend([Sym("list"), Num(0), Num(1), Num(2)] + [Num(3), Num(4), Num(5), Num(6)], [Num(7), Num(8), Num(9), Num(10)], "list 0 1 2 3 4 5 6", "7 8 9 10", "(list 0 1 2 3 4 5 6 7 8 9 10)");
  }

  /** `(f x)`. */
  lemma CallFText()
    ensures Shows(List([Sym("f"), Sym("x")]), "(f x)")
  {
    assert "(" + "f" + " " + "x" + ")" == "(f x)";
    ShowsName("f");
    ShowsName("x");
    ShowsTwo(Sym("f"), Sym("x"), "f", "x", "(f x)");
  }

  /** `(\ (x) (f x))`. */
  lemma FibLambdaText()
    ensures Shows(List([Sym("\\"), List([Sym("x")]), List([Sym("f"), Sym("x")])]), "(\\ (x) (f x))")
  {
    assert "(" + "\\" + " " + "(x)" + " " + "(f x)" + ")" == "(\\ (x) (f x))";
    ShowsName("\\");
    ParamsText();
    CallFText();
    ShowsThree(Sym("\\"), List([Sym("x")]), List([Sym("f"), Sym("x")]), "\\", "(x)", "(f x)", "(\\ (x) (f x))");
  }

  lemma FibonacciMapSpelling()
    ensures "(" + "map" + " " + "(list 0 1 2 3 4 5 6 7 8 9 10)" + " " + "(\\ (x) (f x))" + ")" == "(map (list 0 1 2 3 4 5 6 7 8 9 10) (\\ (x) (f x)))"
  {
    assert "(list 0 1 2 3 4 5 6" + " 7 8 9 10)" == "(list 0 1 2 3 4 5 6 7 8 9 10)";
    assert "(" + "map" + " " == "(map ";
    Associate("(" + "map" + " ", "(list 0 1 2 3 4 5 6", " 7 8 9 10)");
    assert "(" + "map" + " " + "(list 0 1 2 3 4 5 6" == "(map (list 0 1 2 3 4 5 6";
    assert "(" + "map" + " " + ("(list 0 1 2 3 4 5 6" + " 7 8 9 10)") == "(map (list 0 1 2 3 4 5 6 7 8 9 10)";
  }

  /** `(map (list 0 1 2 3 4 5 6 7 8 9 10) (\ (x) (f x)))`, the last program. */
  lemma FibonacciMapText()
    ensures Shows(List([Sym("map"), List([Sym("list")] + Targets), List([Sym("\\"), List([Sym("x")]), List([Sym("f"), Sym("x")])])]), "(map (list 0 1 2 3 4 5 6 7 8 9 10) (\\ (x) (f x)))")
  {
    FibonacciMapSpelling();
    ShowsName("map");
    TargetsText();
    FibLambdaText();
    ShowsThree(Sym("map"), List([Sym("list")] + Targets), List([Sym("\\"), List([Sym("x")]), List([Sym("f"), Sym("x")])]), "map", "(list 0 1 2 3 4 5 6 7 8 9 10)", "(\\ (x) (f x))", "(map (list 0 1 2 3 4 5 6 7 8 9 10) (\\ (x) (f x)))");
  }


  // The expected results in written form.

  /** `(2 3)`. */
  lemma TwoThreeText()
    ensures Shows(List([Num(2), Num(3)]), "(2 3)")
  {
    assert "(" + "2" + " " + "3" + ")" == "(2 3)";
    ShowsNumber(2, "2");
    ShowsNumber(3, "3");
    ShowsTwo(Num(2), Num(3), "2", "3", "(2 3)");
  }

  /** `(2 4)`. */
  lemma TwoFourText()
    ensures Shows(List([Num(2), Num(4)]), "(2 4)")
  {
    assert "(" + "2" + " " + "4" + ")" == "(2 4)";
    ShowsNumber(2, "2");
    ShowsNumber(4, "4");
    ShowsTwo(Num(2), Num(4), "2", "4", "(2 4)");
  }

  /** `(1 1 2 3)`. */
  lemma FibFrontText()
    ensures Shows(List([Num(1), Num(1), Num(2), Num(3)]), "(1 1 2 3)")
  {
    assert "(" + "1" + " " + "1" + " " + "2" + " " + "3" + ")" == "(1 1 2 3)";
    ShowsNumber(1, "1");
    ShowsNumber(2, "2");
    ShowsNumber(3, "3");
    ShowsFour(Num(1), Num(1), Num(2), Num(3), "1", "1", "2", "3", "(1 1 2 3)");
  }

  /** `(5 8 13 21)`. */
  lemma FibMiddleText()
    ensures Shows(List([Num(5), Num(8), Num(13), Num(21)]), "(5 8 13 21)")
  {
    assert "(" + "5" + " " + "8" + " " + "13" + " " + "21" + ")" == "(5 8 13 21)";
    ShowsNumber(5, "5");
    ShowsNumber(8, "8");
    ShowsNumber(13, "13");
    ShowsNumber(21, "21");
    ShowsFour(Num(5), Num(8), Num(13), Num(21), "5", "8", "13", "21", "(5 8 13 21)");
  }

  /** `(34 55 89)`. */
  lemma FibBackText()
    ensures Shows(List([Num(34), Num(55), Num(89)]), "(34 55 89)")
  {
    assert "(" + "34" + " " + "55" + " " + "89" + ")" == "(34 55 89)";
    ShowsNumber(34, "34");
    ShowsNumber(55, "55");
    ShowsNumber(89, "89");
    ShowsThree(Num(34), Num(55), Num(89), "34", "55", "89", "(34 55 89)");
  }

  /** `(1 1 2 3 5 8 13 21)`. */
  lemma FibOpeningText()
    ensures Shows(List([Num(1), Num(1), Num(2), Num(3)] + [Num(5), Num(8), Num(13), Num(21)]), "(1 1 2 3 5 8 13 21)")
  {
    assert "(" + "1 1 2 3" + ")" == "(1 1 2 3)";
    assert "(" + "5 8 13 21" + ")" == "(5 8 13 21)";
    assert "(" + "1 1 2 3" + " " + "5 8 13 21" + ")" == "(1 1 2 3 5 8 13 21)";
    FibFrontText();
    FibMiddleText();
    ShowsAppend([Num(1), Num(1), Num(2), Num(3)], [Num(5), Num(8), Num(13), Num(21)], "1 1 2 3", "5 8 13 21", "(1 1 2 3 5 8 13 21)");
  }

  /** `(1 1 2 3 5 8 13 21 34 55 89)`, what the Fibonacci map is expected to give. */
  lemma FibNumbersText()
    ensures Shows(List(FibNumbers), "(1 1 2 3 5 8 13 21 34 55 89)")
  {
    assert "(" + "1 1 2 3 5 8 13 21" + ")" == "(1 1 2 3 5 8 13 21)";
    assert "(" + "34 55 89" + ")" == "(34 55 89)";
    assert "(" + "1 1 2 3 5 8 13 21" + " " + "34 55 89" + ")" == "(1 1 2 3 5 8 13 21 34 55 89)";
    assert [Num(1), Num(1), Num(2), Num(3)] + [Num(5), Num(8), Num(13), Num(21)] + [Num(34), Num(55), Num(89)] == FibNumbers;
    FibOpeningText();
    FibBackText();
    ShowsAppend([Num(1), Num(1), Num(2), Num(3)] + [Num(5), Num(8), Num(13), Num(21)], [Num(34), Num(55), Num(89)], "1 1 2 3 5 8 13 21", "34 55 89", "(1 1 2 3 5 8 13 21 34 55 89)");
  }
}
