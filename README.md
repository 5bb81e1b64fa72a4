# Sweme2 interpreter, modelled in Dafny

Sweme2 is a small Lisp interpreter. One `Evaluator` object turns program text into
tokens (`tokenize`, `readNextToken`, `readNumber`, `readSymbol`). It then reads the
tokens into an expression tree by recursive descent (`parse`, `parseTokens`,
`readTillListEnd`). Finally it evaluates that tree in a chain of scopes (`Environment`
with `add` and `lookup`) through `eval`/`evalr`, with these helpers:
- `numberValues`, which evaluates the operands of a form;
- `narithmetic`, the left fold behind `+ - * / %`;
- `ncompare`, behind `< > =`;
- `bindParam`, which binds a procedure's parameters.

The root scope lives as long as the evaluator, so a `defun` in one program is visible
to the programs evaluated after it.

The model is in these modules:

- `Values` (values.dfy) holds the expression tree `Expr` and the platform integer
  `Int64`. It also holds `Fault`, which lists the ways the Swift code would abort:
  - a failed `as!` cast;
  - an array index out of range;
  - a `nil` unwrapped with `!`;
  - an integer overflow;
  - a division by zero.

  The results are `Result` (tokenizer and parser) and `Outcome` (evaluation).
- `Arithmetic` (arithmetic.dfy) models `narithmetic` and `ncompare`, with Swift's
  trapping 64-bit `+ - * / %`. Division truncates toward zero. A reference left fold
  over unbounded integers is the fold's partner.
- `Lexer` (lexer.dfy) has the tokenizer:
  - as functions (`NextToken`, `LexFrom`, `Lex`);
  - as the source's loops (`ReadNumber`, `ReadSymbol`, `ReadNextToken`, `Tokenize`),
    each proved equal to the functions.
- `Parser` (parser.dfy) has the parser:
  - as functions (`ParseAt`, `ListFrom`, `ParseText`);
  - as the source's recursive methods and the `readTillListEnd` loop.
- `Scopes` (scopes.dfy) holds the `Environment` class. It has a mutable `vars` map and
  an immutable `outer` link. `Lookup` is tied to `ScopeLookup` over the chain of frames.
- `Semantics` (semantics.dfy) gives the meaning of `evalr` as functions, one per
  form. Their arguments are the innermost frame, the frames around it, and a fuel
  bound on nesting depth. Each returns the outcome and the innermost frame as
  evaluation left it. These functions are the specification. They carry no `ensures`
  of their own: what they mean is stated by the lemmas of `Properties` and `Examples`.
- `Interpreter` (evaluator.dfy) holds the `Evaluator` class. Its methods work on
  `Environment` objects the way the Swift methods do. Each method is proved to compute
  its `Semantics` function and to leave the handed scope as that function says.
- `Properties` (properties.dfy) proves what the evaluation rules promise for all
  inputs.
- `Examples` (examples.dfy), `SuiteTexts` (suite_texts.dfy) and `Session`
  (session.dfy) cover the test suite. Its ten program texts are parsed and
  evaluated in order on one evaluator. Each gives the expected result, including
  Fibonacci numbers up to 89, and each result is written as the expected text.
- `Printing` (printer.dfy) writes expressions back as program text. It proves that
  the tokenizer and the parser read that text back as the expression written.

Behaviour of the code worth noting:
- A list left open is not fatal. `readTillListEnd` stops at the end of the tokens.
  The reported last index is the token count, minus one, plus one for each `(` from
  the list on, since each enclosing open list moves one past the index of the list
  inside it (`Parser.UnclosedListsIndex`).
- `< > =` evaluate every operand, not only the first two. A non-number after the
  compared pair still aborts the form (`Properties.CompareChecksEveryOperand`).
- A number literal too large for `Int` does not wrap. `Int(...)` gives `nil` and `!`
  aborts (`Parser.ClassifyToken`).
- A newline does not end a symbol. So a name runs on through newlines to the next
  space or `)`, and `a\n` reads as the one token `"a\n"`. Text that ends in blanks
  after a number aborts, because the last `readNextToken` gives no token and
  `read.token!` fails (`Lexer.NameRunsThroughNewlines`, `Lexer.NumberThenBlanksIsFatal`,
  `Lexer.TrailingSpaceIsFatal`).
- `let` reads its bindings in pairs, and a lone trailing name is checked and then
  ignored (`Properties.TrailingNameIgnored`). `(let a 5)`, where the binding part is
  not a list, aborts on the cast.
- A procedure's body runs in the scope of the call, not in the scope where the
  procedure was made. Scoping is therefore dynamic.

## Model

| member | source | states |
|---|---|---|
| Values.Abort | Sweme2/Evaluator.swift:190-285 | an abort passes through unchanged: the fault kind, or running out of fuel, is kept |
| Arithmetic.TruncDivision | Sweme2/Evaluator.swift:212-216 | `/` and `%` are the truncating quotient and remainder: `a == b*q + r`, `abs(r) < abs(b)`, `r` has the dividend's sign, `abs(q) <= abs(a)` |
| Arithmetic.Checked | Sweme2/Evaluator.swift:203-216 | an exact result is kept exactly when it fits in 64 bits, and is an overflow trap otherwise |
| Arithmetic.NCompare | Sweme2/Evaluator.swift:178-180 | returns exactly when there are at least two values (otherwise index out of range); each operator gives `<`, `>` or `==` of values 0 and 1 |
| Arithmetic.FoldFromMatchesReference | Sweme2/Evaluator.swift:174-176 | a fold that returns met no zero divisor and equals the reference fold over unbounded integers |
| Arithmetic.LeftFoldFromLast | Sweme2/Evaluator.swift:174-176 | the reference fold from an accumulator is the last operation applied to the fold of all but the last value |
| Arithmetic.LeftFoldAsFrom | Sweme2/Evaluator.swift:174-176 | the reference fold of a list is the fold from its first value over the rest |
| Arithmetic.NarithmeticIsLeftFold | Sweme2/Evaluator.swift:174-176 | when `narithmetic` returns there was at least one value and no zero divisor, and the result is the left fold of the values from the first |
| Arithmetic.FoldFromFaults | Sweme2/Evaluator.swift:174-176 | the fold over the remaining values can only fail by overflow or division by zero |
| Arithmetic.NarithmeticFaults | Sweme2/Evaluator.swift:174-176 | the fault is index out of range exactly when there are no values; otherwise it is an overflow, or a division by zero under `/` or `%` with a zero among values 1.. |
| Arithmetic.FoldFromSucceeds | Sweme2/Evaluator.swift:174-176 | the fold returns exactly when no later value is a zero divisor and every partial result fits in 64 bits |
| Arithmetic.NarithmeticSucceeds | Sweme2/Evaluator.swift:174-176 | `narithmetic` returns exactly when there is a value, no zero divisor among values 1.., and every partial result fits; with no zero divisor, a partial result that does not fit gives an overflow |
| Lexer.SkipBlanks | Sweme2/Evaluator.swift:71-79 | the first position from `i` on that is not a space or newline |
| Lexer.DigitsEnd | Sweme2/Evaluator.swift:95-109 | the end of the longest run of digits from `i` |
| Lexer.SymbolEnd | Sweme2/Evaluator.swift:111-125 | the end of the longest run from `i` without a space or `)` |
| Lexer.NextToken | Sweme2/Evaluator.swift:70-93 | there is no token exactly when only blanks remain (the cursor is then at the end); otherwise the token is the nonempty text from the first non-blank up to the new cursor |
| Lexer.ReadNumber | Sweme2/Evaluator.swift:95-109 | the loop returns the run of digits from `start` and where it ends |
| Lexer.ReadSymbol | Sweme2/Evaluator.swift:111-125 | the loop returns the characters from `start` up to a space or `)`, and where they end |
| Lexer.ReadNextToken | Sweme2/Evaluator.swift:70-93 | the skipping loop and the three-way dispatch compute `NextToken` |
| Lexer.Tokenize | Sweme2/Evaluator.swift:55-64 | the token-gathering loop computes `Lex`, including the abort on a missing last token |
| Lexer.LexTokenShapes | Sweme2/Evaluator.swift:55-125 | every token is a punctuation character, a run of digits or a nonempty name without spaces or `)`; none is empty |
| Lexer.NextTokenSpan | Sweme2/Evaluator.swift:70-93 | only blanks come before a token; a token starting with a punctuation character is that one character, one starting with a digit is the whole run of digits, and any other runs up to a space or `)` |
| Lexer.TrailingSpaceIsFatal | Sweme2/Evaluator.swift:55-64 | text ending in a space always aborts on `read.token!` |
| Lexer.BlanksOnlyAreFatal | Sweme2/Evaluator.swift:55-64 | text made only of blanks aborts |
| Lexer.NonBlankEndTokenizes | Sweme2/Evaluator.swift:55-64 | text whose last character is not a blank always tokenizes |
| Lexer.NameRunsThroughNewlines | Sweme2/Evaluator.swift:55-125 | a name with no space or `)` after it, newlines included, is read as one token running to the end of the text |
| Lexer.NumberThenBlanksIsFatal | Sweme2/Evaluator.swift:55-109 | a run of digits followed only by blanks, newlines included, makes tokenizing abort on `read.token!` |
| Parser.ParseInt | Sweme2/Evaluator.swift:142 | `Int(token)` succeeds exactly on a nonempty all-digit token whose value fits, and gives that value |
| Parser.ParseAt | Sweme2/Evaluator.swift:132-147 | a returned index is at or after the start; a non-list token is consumed alone and is not a list; a `(` yields a list |
| Parser.ListFrom | Sweme2/Evaluator.swift:149-158 | a list is returned whose first elements are the ones already read; the index it stops at is a `)` when it is inside the tokens |
| Parser.ParseTokens | Sweme2/Evaluator.swift:132-147 | the recursive method computes `ParseAt` |
| Parser.ReadTillListEnd | Sweme2/Evaluator.swift:149-158 | the loop computes `ListFrom` from an empty list |
| Parser.Parse | Sweme2/Evaluator.swift:127-130 | tokenizing, then parsing from index 0, computes `ParseText` |
| Parser.EmptyInputIsFatal | Sweme2/Evaluator.swift:127-133 | empty text has no tokens, so the first index is out of range |
| Parser.ClassifyToken | Sweme2/Evaluator.swift:132-147 | an operator, or a token not starting with a digit, is a symbol; a number comes from a parsed token; an all-digit token too large for `Int` aborts on `!` |
| Parser.ParseAtIgnoresRest | Sweme2/Evaluator.swift:132-158 | reading an expression looks at no token after the last one it consumes |
| Parser.ListFromIgnoresRest | Sweme2/Evaluator.swift:149-158 | reading a list's elements looks at no token after its closing `)` |
| Parser.ParseKeepsFirstExpression | Sweme2/Evaluator.swift:127-130 | `parse` keeps only the first expression: tokens after it do not change it |
| Parser.UnclosedListsIndex | Sweme2/Evaluator.swift:132-158 | a list with no `)` after its `(` is tolerated, and its last index is the token count minus one plus the number of `(` from it on |
| Parser.UnclosedElements | Sweme2/Evaluator.swift:149-158 | elements read with no `)` ahead end at the token count plus the number of `(` ahead |
| Scopes.LookupFindsInnermost | Sweme2/Evaluator.swift:47-49 | lookup finds the binding of the innermost frame that has the name |
| Scopes.LookupAbsent | Sweme2/Evaluator.swift:47-49 | lookup is absent exactly when no frame of the chain has the name |
| Scopes.Environment.constructor | Sweme2/Evaluator.swift:39-41 | a new scope is empty and has the given outer scope |
| Scopes.Environment.Frames | Sweme2/Evaluator.swift:34-37 | the chain of frames starts with this scope's own bindings |
| Scopes.Environment.Add | Sweme2/Evaluator.swift:43-45 | binds the name in this scope only, replacing an earlier binding here, and changes nothing else |
| Scopes.Environment.Lookup | Sweme2/Evaluator.swift:47-49 | the recursive lookup is the innermost binding over the chain of frames |
| Interpreter.Evaluator.constructor | Sweme2/Evaluator.swift:52-53 | a new evaluator has a fresh, empty root scope |
| Interpreter.Evaluator.Eval | Sweme2/Evaluator.swift:160-162 | evaluates in the root scope; the result and the root scope's new bindings are those of the semantics |
| Interpreter.Evaluator.Evalr | Sweme2/Evaluator.swift:190-199 | each case of `evalr` over scope objects gives the semantics' outcome and leaves the scope it was handed as the semantics says |
| Interpreter.Evaluator.DispatchList | Sweme2/Evaluator.swift:199-281 | the list case: dispatch on the head symbol, built-in forms before bound names, with Nil for an unbound head |
| Interpreter.Evaluator.NumberValues | Sweme2/Evaluator.swift:170-172 | the loop evaluates operands 1.. in order, each in the current scope, and stops at the first that is not a number |
| Interpreter.Evaluator.EvalLet | Sweme2/Evaluator.swift:227-239 | the pairs loop evaluates values in the caller's scope and binds them in a new inner scope, where the body runs |
| Interpreter.Evaluator.BindParam | Sweme2/Evaluator.swift:182-188 | the new scope binds each parameter to its argument, evaluated in that new scope itself |
| Interpreter.Evaluator.Invoke | Sweme2/Evaluator.swift:276-278 | a call binds the parameters in a new scope inside the caller's and evaluates the body there |
| Interpreter.Evaluator.EvalMap | Sweme2/Evaluator.swift:241-246 | the procedure is evaluated first, then the target list; the loop calls the procedure once per target, in order |
| Interpreter.Evaluator.EvalDefun | Sweme2/Evaluator.swift:248-250 | binds the name to a procedure made of the parameter and body lists in the current scope, and returns Nil |
| Interpreter.Evaluator.EvalIf | Sweme2/Evaluator.swift:252-253 | the condition must evaluate to a Boolean; element 2 or 3 is evaluated |
| Interpreter.Evaluator.EvalCons | Sweme2/Evaluator.swift:261-264 | the head, then the tail, evaluated; the tail must be a list |
| Properties.AtomsEvaluateToThemselves | Sweme2/Evaluator.swift:283 | numbers, Booleans and Nil evaluate to themselves and change no scope |
| Properties.SymbolEvaluation | Sweme2/Evaluator.swift:196-197 | a symbol bound in the current scope evaluates to that binding; one bound only further out to the binding of the innermost frame that has it; an unbound one to itself |
| Properties.NumbersOf | Sweme2/Evaluator.swift:165-167 | the values of number literals, one per literal, in order |
| Properties.OperandsOfLiterals | Sweme2/Evaluator.swift:170-172 | literal operands give their values in order, and the scope is unchanged |
| Properties.OperandsOfValues | Sweme2/Evaluator.swift:170-172 | operands that each evaluate to a number give those numbers in order |
| Properties.OperandNotNumber | Sweme2/Evaluator.swift:165-172 | after operands that each evaluate to a number, an operand that evaluates to anything else aborts on the cast |
| Properties.ArithmeticOfLiterals | Sweme2/Evaluator.swift:203-216 | `+ - * / %` over literals give `narithmetic` of their values, whatever the scope binds |
| Properties.CompareOfLiterals | Sweme2/Evaluator.swift:218-225 | `< > =` over literals compare operands 1 and 2; fewer than two operands abort |
| Properties.CompareChecksEveryOperand | Sweme2/Evaluator.swift:218-225 | a non-number after the compared operands still aborts a comparison |
| Properties.EvalKeepsScope | Sweme2/Evaluator.swift:190-285 | without `defun`, evaluation leaves the handed scope exactly as it was |
| Properties.DispatchKeepsScope | Sweme2/Evaluator.swift:199-281 | without `defun`, no form writes to the handed scope |
| Properties.OperandsKeepScope | Sweme2/Evaluator.swift:170-172 | evaluating operands without `defun` leaves the scope as it was |
| Properties.LetBindingsKeepScope | Sweme2/Evaluator.swift:231-238 | `let` bindings without `defun` leave the caller's scope as it was |
| Properties.LetConfinesBody | Sweme2/Evaluator.swift:227-239 | whatever a `let` body defines goes to the inner scope, not the caller's |
| Properties.TrailingNameIgnored | Sweme2/Evaluator.swift:229-238 | a last name without a value changes nothing about `let` |
| Properties.LetValuesSeeCallerScope | Sweme2/Evaluator.swift:227-239 | every value is evaluated in the caller's scope, not in the partly built `let` scope, and the bindings are the names paired with those values |
| Properties.BindingsOf | Sweme2/Evaluator.swift:231-238 | the frame built from pairs binds exactly the names paired in the list, plus those already bound |
| Properties.DefunBindsOneName | Sweme2/Evaluator.swift:248-250 | `defun` returns exactly when its parts have the right kinds; it adds exactly one binding to a procedure and returns Nil; otherwise it aborts and the scope is left as it was |
| Properties.BindParamsShape | Sweme2/Evaluator.swift:182-188 | a successful binding had an argument for every parameter, every parameter was a symbol and is bound, and no earlier binding is lost |
| Properties.ArgumentsSeeEarlierParameters | Sweme2/Evaluator.swift:182-188 | an argument is evaluated in the new scope and sees earlier parameters |
| Properties.EvalKeepsKeys | Sweme2/Evaluator.swift:190-285 | evaluation never removes a binding from the scope it is handed |
| Properties.DispatchKeepsKeys | Sweme2/Evaluator.swift:199-281 | no form removes a binding from the handed scope |
| Properties.OperandsKeepKeys | Sweme2/Evaluator.swift:170-172 | evaluating operands removes no binding |
| Properties.LetBindingsKeepKeys | Sweme2/Evaluator.swift:231-238 | evaluating `let` values removes no binding |
| Properties.TooFewArguments | Sweme2/Evaluator.swift:182-188 | a call with fewer arguments than parameters never returns |
| Properties.CallOfBoundName | Sweme2/Evaluator.swift:276-280 | an unbound non-built-in head gives Nil; a bound non-procedure aborts; a bound procedure is called and leaves the caller's scope alone |
| Properties.DataFormsDoNotEvaluate | Sweme2/Evaluator.swift:255-274 | `\`, `quote`, `list`, `first` and `rest` read their operands without evaluating them, so no scope matters |
| Properties.ListFormSizes | Sweme2/Evaluator.swift:266-274 | `list` gives its operands; `first` gives element 0; `rest` gives the elements after it; both abort on the empty list |
| Properties.ConsSize | Sweme2/Evaluator.swift:261-264 | `cons` gives its evaluated head in front of the elements of its evaluated tail |
| Properties.MapOverPointwise | Sweme2/Evaluator.swift:244-246 | every result of `map` is the procedure called on the matching target alone, in order |
| Properties.MapOverComplete | Sweme2/Evaluator.swift:244-246 | when every call returns, `map` gathers all of their results |
| Properties.MapUnfolds | Sweme2/Evaluator.swift:241-246 | `map` evaluates the procedure first, then the targets, then calls the procedure on each |
| Properties.MapPointwise | Sweme2/Evaluator.swift:241-246 | `map` returns one result per target, each the procedure called on that target |
| Properties.IfTakesOneBranch | Sweme2/Evaluator.swift:252-253 | `if` evaluates only the branch its condition selects; the other branch can be anything; a missing selected branch aborts |
| Examples.Product242 | Sweme2Tests/Sweme2Tests.swift:21 | `(* 11 22)` gives 242 |
| Examples.Difference300 | Sweme2Tests/Sweme2Tests.swift:21 | `(- 333 30 3)` gives 300 |
| Examples.Arithmetic542 | Sweme2Tests/Sweme2Tests.swift:21 | `(+ 0 (* 11 22) (- 333 30 3))` gives 542 |
| Examples.FirstAndRest | Sweme2Tests/Sweme2Tests.swift:22-23 | `(first (1 2 3))` gives 1 and `(rest (1 2 3))` gives `(2 3)` |
| Examples.SumOfBindings | Sweme2Tests/Sweme2Tests.swift:24 | `(+ a b c)` gives 9 where a, b and c are 2, 3 and 4 |
| Examples.LetSum | Sweme2Tests/Sweme2Tests.swift:24 | `(let (a 2 b 3 c 4) (+ a b c))` gives 9 |
| Examples.IfLess | Sweme2Tests/Sweme2Tests.swift:25 | `(if (< 1 3) 2 3)` gives 2 |
| Examples.LetValuesDoNotSeeEachOther | Sweme2/Evaluator.swift:227-239 | in `(let (a 1 b a) b)` the value `a` is not the binding made just before it, so `b` is the symbol `a` |
| Examples.DoubleCall | Sweme2Tests/Sweme2Tests.swift:26 | `(\ (x) (* 2 x))` called on n gives 2n whenever 2n fits in 64 bits |
| Examples.MapDouble | Sweme2Tests/Sweme2Tests.swift:26 | `(map (list 1 2) (\ (x) (* 2 x)))` gives `(2 4)` |
| Examples.DefineCalc | Sweme2Tests/Sweme2Tests.swift:27 | `(defun calc (a b) (+ a b))` gives Nil and binds `calc` |
| Examples.InvokeCalc | Sweme2Tests/Sweme2Tests.swift:28 | `calc` called on 4 and 8 gives 12 |
| Examples.CallCalc | Sweme2Tests/Sweme2Tests.swift:28 | `(calc 4 8)` gives 12 where `calc` is bound |
| Examples.Fib | Sweme2Tests/Sweme2Tests.swift:34 | the Fibonacci numbers the test expects, starting 1, 1 |
| Examples.CompareX | Sweme2Tests/Sweme2Tests.swift:33 | `(= x c)` compares the binding of x with c |
| Examples.SubtractFromX | Sweme2Tests/Sweme2Tests.swift:33 | `(- x k)` in a new scope sees x in the scope around it |
| Examples.SumOfTwo | Sweme2Tests/Sweme2Tests.swift:33 | `(+ a b)` of two operands that give numbers is their sum |
| Examples.FibArgument | Sweme2Tests/Sweme2Tests.swift:33 | calling `f` binds x to the argument's value |
| Examples.FibCall | Sweme2Tests/Sweme2Tests.swift:33 | `f` called on an argument giving n returns the n-th Fibonacci number |
| Examples.FibInner | Sweme2Tests/Sweme2Tests.swift:33 | the `(if (= x 1) ...)` branch gives the n-th Fibonacci number for n >= 1 |
| Examples.FibTerm | Sweme2Tests/Sweme2Tests.swift:33 | `(f (- x k))` gives the Fibonacci number of n - k |
| Examples.FibRecursion | Sweme2Tests/Sweme2Tests.swift:33 | the recursive branch gives the sum of the two earlier Fibonacci numbers |
| Examples.DefineFib | Sweme2Tests/Sweme2Tests.swift:33 | `(defun f (x) ...)` gives Nil and binds `f` |
| Examples.CallFOn | Sweme2Tests/Sweme2Tests.swift:34 | `(\ (x) (f x))` called on k <= 10 gives Fib(k) |
| Examples.FibUpToTen | Sweme2Tests/Sweme2Tests.swift:34 | the Fibonacci numbers up to 10 are at most 89, so none overflows |
| Examples.CallFOnTargets | Sweme2Tests/Sweme2Tests.swift:34 | each target 0..10 gives its Fibonacci number |
| Examples.FibonacciMap | Sweme2Tests/Sweme2Tests.swift:34 | the map over 0..10 gives `(1 1 2 3 5 8 13 21 34 55 89)` |
| Session.ScopeBefore | Sweme2Tests/Sweme2Tests.swift:43-53 | the root scope before each program: empty, then with `calc`, then also `f` |
| Session.ProgramGivesExpected | Sweme2Tests/Sweme2Tests.swift:21-34 | each program, run on the root scope left by the ones before it, gives its expected result |
| Session.ProgramTexts | Sweme2Tests/Sweme2Tests.swift:21-34 | each program is the written form of its test text |
| Session.ReadsPrograms | Sweme2Tests/Sweme2Tests.swift:21-34 | parsing each test text gives its program |
| Session.ExpectedAsShown | Sweme2Tests/Sweme2Tests.swift:21-34 | each expected result, written as the test writes results, is the test's expected text |
| Session.RunProgram | Sweme2Tests/Sweme2Tests.swift:46-50 | one step of the test: parsing the text, evaluating it on the root scope left by the programs before, and writing the result give the expected result and text |
| Session.RunTestSuite | Sweme2Tests/Sweme2Tests.swift:43-53 | one evaluator parses and runs the ten texts in order; every result is the expected one and every written result is the expected text |
| Printing.Digits | Sweme2/Evaluator.swift:141-142 | a numeral is nonempty and all digits, and its decimal value is the number |
| Printing.ParseDigits | Sweme2/Evaluator.swift:141-142 | the numeral of a number that fits reads back as that number |
| Printing.TokensReadable | Sweme2/Evaluator.swift:70-125 | every token of a writable expression is read back by the tokenizer as itself |
| Printing.ReadToken | Sweme2/Evaluator.swift:55-93 | a token written at a position, and its separator, are read as that token followed by what comes after |
| Printing.LexSpelledAt | Sweme2/Evaluator.swift:55-125 | tokens written from a position on are read back as those tokens, in order |
| Printing.ParseWritten | Sweme2/Evaluator.swift:132-147 | the tokens of an expression, wherever they sit in the token list, are parsed as that expression, ending at its last token |
| Printing.ListWritten | Sweme2/Evaluator.swift:149-158 | the tokens of a list's elements followed by `)` are read as that list, stopping at the `)` |
| Printing.ParseUnparse | Sweme2/Evaluator.swift:127-158 | the text of a writable expression is tokenized as its tokens and parsed back as the expression |
| Printing.UnparseList | Sweme2/Evaluator.swift:149-158 | a list is written as its elements' texts, separated by single spaces, inside parentheses |
| Printing.JoinedAppend | Sweme2/Evaluator.swift:149-158 | the texts of two runs of elements are joined by one space |
| SuiteTexts.FibDefinitionText | Sweme2Tests/Sweme2Tests.swift:33 | the Fibonacci definition is written as the test's text |
| SuiteTexts.FibNumbersText | Sweme2Tests/Sweme2Tests.swift:34 | the list of Fibonacci numbers is written as `(1 1 2 3 5 8 13 21 34 55 89)` |

## Left out

- `lexicalEnv`: the scope a procedure is made in is never read by the evaluator, so a
  `Procedure` keeps only its parameter and body lists.
- `toString` of expressions: the expression classes are in a file that is not part of
  this model. `Printing.Unparse` writes the program text of numbers, names and lists
  only, not of Booleans, Nil or procedures.
- Session.RunTestSuite: the written result is `Session.Shown`, which writes Nil as
  `#N` and a number or list as its program text, as the test's expected texts read.
  That this is what `toString` does is assumed, since its source is not part of this
  model.
- `getNextChar`, `String.Index` and grapheme clusters: text is a sequence of
  characters and positions are integers.
- The view controller, the playground, and the timing wrapper `measureBlock` of the
  test are not part of this model.
- Evaluation depth: `evalr` recurses without limit and may never stop. The model
  bounds nesting by `fuel` and reports `OutOfFuel` when it is exhausted. A run the
  Swift program never finishes is not distinguished from one that only needs more
  fuel.
- Stack overflow: a deep recursion in Swift crashes with a stack overflow. The model
  has no stack.
- Printing.Writable: negative numbers have no written form, because the tokenizer reads
  `-` as a token of its own. The round trip is stated for numbers that are not
  negative.
- Semantics: the evaluation functions carry no `ensures` of their own. They are the
  specification that the methods of `Interpreter.Evaluator` are proved to compute.
  What they promise is stated by the lemmas of `Properties`, `Examples` and
  `Session`.
