/** The recursive-descent parser: it reads one expression from a token index
    and returns it with the index of the last token it consumed. */
module Parser {
  import opened Values
  import opened Lexer

  /** The one-character tokens that become a symbol at once (`(` opens a
      list; `)` is not among them and falls to the general case). */
  predicate IsOperatorToken(t: string) {
    t in {"+", "*", "-", "/", "%", "<", ">", "=", "\\"}
  }

  predicate AllDigits(t: string) {
    forall j :: 0 <= j < |t| ==> IsDigit(t[j])
  }

  function DigitValue(c: char): nat
    requires IsDigit(c)
  {
    (c as int) - ('0' as int)
  }

  /** The value of a string of decimal digits. */
  function DecimalValue(t: string): nat
    requires AllDigits(t)
    decreases |t|
  {
    if |t| == 0 then 0 else DecimalValue(t[..|t| - 1]) * 10 + DigitValue(t[|t| - 1])
  }

  /** `Int(token)` for a token that starts with a digit: the value when every
      character is a digit and the value fits Int64, otherwise absent. */
  function ParseInt(t: string): (r: Option<Int64>)
    ensures r.Some? <==> |t| > 0 && AllDigits(t) && DecimalValue(t) <= MaxInt
    ensures r.Some? ==> r.value as int == DecimalValue(t)
  {
    if |t| > 0 && AllDigits(t) && DecimalValue(t) <= MaxInt then Some(DecimalValue(t) as Int64)
    else None
  }

  /** `parseTokens`: the expression that starts at token `i` and the index of
      its last token. Reading past the end of the tokens aborts, and so does
      taking the first character of an empty token or forcing the conversion
      of a token that starts with a digit but is not a 64-bit number. */
  function ParseAt(toks: seq<string>, i: nat): (r: Result<(Expr, nat)>)
    ensures r.Ok? ==> i < |toks| && r.value.1 >= i
    ensures r.Ok? && toks[i] != "(" ==> r.value.1 == i && !r.value.0.List?
    ensures r.Ok? && toks[i] == "(" ==>
      r.value.0.List? && r.value.1 > i && (r.value.1 < |toks| ==> toks[r.value.1] == ")")
    decreases |toks| - i, 1
  {
    if i >= |toks| then Fatal(IndexOutOfRange)
    else if toks[i] == "(" then ListFrom(toks, i + 1, [])
    else if IsOperatorToken(toks[i]) then Ok((Symbol(toks[i]), i))
    else if |toks[i]| == 0 then Fatal(IndexOutOfRange)
    else if IsDigit(toks[i][0]) then
      match ParseInt(toks[i])
      case Some(v) => Ok((Number(v), i))
      case None => Fatal(NilUnwrap)
    else Ok((Symbol(toks[i]), i))
  }

  /** `readTillListEnd`: the elements from token `j` on, after those in `acc`,
      up to a `)` (not included) or the end of the tokens; the index returned
      is that of the `)`, or where the tokens ran out. */
  function ListFrom(toks: seq<string>, j: nat, acc: seq<Expr>): (r: Result<(Expr, nat)>)
    ensures r.Ok? ==> r.value.0.List? && r.value.1 >= j
    ensures r.Ok? && r.value.1 < |toks| ==> toks[r.value.1] == ")"
    ensures r.Ok? ==> |r.value.0.es| >= |acc| && r.value.0.es[..|acc|] == acc
    decreases |toks| - j + 1, 0
  {
    if j < |toks| && toks[j] != ")" then
      match ParseAt(toks, j)
      case Ok((e, last)) => ListFrom(toks, last + 1, acc + [e])
      case Fatal(f) => Fatal(f)
    else Ok((List(acc), j))
  }

  /** `parse`: tokenize, then read the first expression; any tokens after it
      are ignored. */
  function ParseText(text: string): Result<Expr> {
    match Lex(text)
    case Fatal(f) => Fatal(f)
    case Ok(toks) =>
      match ParseAt(toks, 0)
      case Ok((e, _)) => Ok(e)
      case Fatal(f) => Fatal(f)
  }

  /** `parseTokens`. */
  method ParseTokens(toks: seq<string>, start: nat) returns (r: Result<(Expr, nat)>)
    ensures r == ParseAt(toks, start)
    decreases |toks| - start, 1
  {
    if start >= |toks| {
      return Fatal(IndexOutOfRange);
    }
    var t := toks[start];
    if t == "(" {
      r := ReadTillListEnd(toks, start + 1);
    } else if IsOperatorToken(t) {
      r := Ok((Symbol(t), start));
    } else if |t| == 0 {
      r := Fatal(IndexOutOfRange);
    } else if IsDigit(t[0]) {
      var v := ParseInt(t);
      r := if v.Some? then Ok((Number(v.value), start)) else Fatal(NilUnwrap);
    } else {
      r := Ok((Symbol(t), start));
    }
  }

  /** `readTillListEnd`. */
  method ReadTillListEnd(toks: seq<string>, start: nat) returns (r: Result<(Expr, nat)>)
    ensures r == ListFrom(toks, start, [])
    decreases |toks| - start + 1, 0
  {
    var elements: seq<Expr> := [];
    var next := start;
    while next < |toks| && toks[next] != ")"
      invariant next >= start
      invariant ListFrom(toks, next, elements) == ListFrom(toks, start, [])
      decreases |toks| - next
    {
      var parsed := ParseTokens(toks, next);
      if parsed.Fatal? {
        return Fatal(parsed.fault);
      }
      elements := elements + [parsed.value.0];
      next := parsed.value.1 + 1;
    }
    return Ok((List(elements), next));
  }

  /** `parse`. */
  method Parse(text: string) returns (r: Result<Expr>)
    ensures r == ParseText(text)
  {
    var tokens := Tokenize(text);
    if tokens.Fatal? {
      return Fatal(tokens.fault);
    }
    var parsed := ParseTokens(tokens.value, 0);
    if parsed.Fatal? {
      return Fatal(parsed.fault);
    }
    return Ok(parsed.value.0);
  }

  // Properties of the parser.

  /** No tokens at all: the very first read is out of range, so empty text is
      fatal too. */
  lemma EmptyInputIsFatal()
    ensures ParseAt([], 0) == Fatal(IndexOutOfRange)
    ensures ParseText("") == Fatal(IndexOutOfRange)
  {}

  /** How a single token that does not open a list is classified: an operator
      or any token not starting with a digit (a stray `)` included) is a
      symbol; a token starting with a digit is a number whose value is that of
      its digits, and a digit run too large for Int64 is fatal. */
  lemma ClassifyToken(toks: seq<string>, i: nat)
    requires i < |toks| && toks[i] != "("
    ensures IsOperatorToken(toks[i]) ==> ParseAt(toks, i) == Ok((Symbol(toks[i]), i))
    ensures |toks[i]| > 0 && !IsDigit(toks[i][0]) ==> ParseAt(toks, i) == Ok((Symbol(toks[i]), i))
    ensures ParseAt(toks, i).Ok? && ParseAt(toks, i).value.0.Number? ==>
      AllDigits(toks[i]) && ParseAt(toks, i).value.0.n as int == DecimalValue(toks[i])
    ensures |toks[i]| > 0 && AllDigits(toks[i]) && DecimalValue(toks[i]) > MaxInt ==>
      ParseAt(toks, i) == Fatal(NilUnwrap)
  {
    if IsOperatorToken(toks[i]) {
      assert |toks[i]| == 1 && !IsDigit(toks[i][0]);
    }
  }

  /** Reading an expression looks at no token after the last one it consumed:
      whatever follows leaves the result unchanged. */
  lemma {:induction false} ParseAtIgnoresRest(toks: seq<string>, more: seq<string>, i: nat)
    requires ParseAt(toks, i).Ok? && ParseAt(toks, i).value.1 < |toks|
    ensures ParseAt(toks + more, i) == ParseAt(toks, i)
    decreases |toks| - i, 1
  {
    assert (toks + more)[i] == toks[i];
    if toks[i] == "(" {
      ListFromIgnoresRest(toks, more, i + 1, []);
    }
  }

  lemma {:induction false} ListFromIgnoresRest(toks: seq<string>, more: seq<string>, j: nat, acc: seq<Expr>)
    requires ListFrom(toks, j, acc).Ok? && ListFrom(toks, j, acc).value.1 < |toks|
    ensures ListFrom(toks + more, j, acc) == ListFrom(toks, j, acc)
    decreases |toks| - j + 1, 0
  {
    assert (toks + more)[j] == toks[j];
    if toks[j] != ")" {
      var (e, last) := ParseAt(toks, j).value;
      ParseAtIgnoresRest(toks, more, j);
      ListFromIgnoresRest(toks, more, last + 1, acc + [e]);
    }
  }

  /** `parse` keeps only the first expression: tokens after the ones it
      consumed do not change what it returns. */
  lemma ParseKeepsFirstExpression(toks: seq<string>, more: seq<string>)
    requires ParseAt(toks, 0).Ok? && ParseAt(toks, 0).value.1 < |toks|
    ensures ParseAt(toks + more, 0).Ok?
    ensures ParseAt(toks + more, 0).value.0 == ParseAt(toks, 0).value.0
  {
    ParseAtIgnoresRest(toks, more, 0);
  }

  /** The number of `(` tokens. */
  function Opens(ts: seq<string>): nat
    decreases |ts|
  {
    if ts == [] then 0 else (if ts[0] == "(" then 1 else 0) + Opens(ts[1..])
  }

  /** A list left open is tolerated: when no `)` follows a `(`, the list it
      opens runs to the end of the tokens, and the index it reports is the
      token count plus one for each further `(` after it, as each enclosing
      open list moves one past the index of the list inside it. */
  lemma {:induction false} UnclosedListsIndex(toks: seq<string>, i: nat)
    requires i < |toks| && toks[i] == "(" && ParseAt(toks, i).Ok?
    requires forall j :: i <= j < |toks| ==> toks[j] != ")"
    ensures ParseAt(toks, i).value.1 == |toks| + Opens(toks[i..]) - 1
    decreases |toks| - i, 0
  {
    assert toks[i..][0] == "(" && toks[i..][1..] == toks[i + 1..];
    UnclosedElements(toks, i + 1, []);
  }

  /** The elements of an open list from token `j` on, when no `)` follows:
      the index reported is the token count plus the `(` tokens from `j` on. */
  lemma {:induction false} UnclosedElements(toks: seq<string>, j: nat, acc: seq<Expr>)
    requires j <= |toks| && ListFrom(toks, j, acc).Ok?
    requires forall k :: j <= k < |toks| ==> toks[k] != ")"
    ensures ListFrom(toks, j, acc).value.1 == |toks| + Opens(toks[j..])
    decreases |toks| - j, 1
  {
    if j < |toks| {
      assert toks[j..][0] == toks[j] && toks[j..][1..] == toks[j + 1..];
      var (e, last) := ParseAt(toks, j).value;
      if toks[j] == "(" {
        UnclosedListsIndex(toks, j);
        assert ListFrom(toks, j, acc) == ListFrom(toks, last + 1, acc + [e]);
      } else {
        UnclosedElements(toks, j + 1, acc + [e]);
      }
    }
  }
}
