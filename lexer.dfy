/** The tokenizer: a cursor scans the text left to right; blanks (space and
    newline) before a token are skipped, a punctuation or operator character
    is a token of its own, a digit starts a run of digits, and any other
    character starts a symbol that runs up to the next space or `)`. */
module Lexer {
  import opened Values

  predicate IsBlank(c: char) {
    c == ' ' || c == '\n'
  }

  predicate IsDigit(c: char) {
    '0' <= c <= '9'
  }

  /** The characters that are always a token of their own. */
  predicate IsPunct(c: char) {
    c == '(' || c == ')' || c == '+' || c == '*' || c == '-' || c == '/'
    || c == '%' || c == '<' || c == '>' || c == '=' || c == '\\'
  }

  /** The characters that end a symbol (a newline and `(` do not). */
  predicate EndsSymbol(c: char) {
    c == ' ' || c == ')'
  }

  /** The first position at or after `i` that is not a blank. */
  function SkipBlanks(s: string, i: nat): (k: nat)
    requires i <= |s|
    ensures i <= k <= |s|
    ensures forall j :: i <= j < k ==> IsBlank(s[j])
    ensures k < |s| ==> !IsBlank(s[k])
    decreases |s| - i
  {
    if i < |s| && IsBlank(s[i]) then SkipBlanks(s, i + 1) else i
  }

  /** The end of the longest run of digits starting at `i`. */
  function DigitsEnd(s: string, i: nat): (k: nat)
    requires i <= |s|
    ensures i <= k <= |s|
    ensures forall j :: i <= j < k ==> IsDigit(s[j])
    ensures k < |s| ==> !IsDigit(s[k])
    decreases |s| - i
  {
    if i < |s| && IsDigit(s[i]) then DigitsEnd(s, i + 1) else i
  }

  /** The end of the longest run without a space or `)` starting at `i`. */
  function SymbolEnd(s: string, i: nat): (k: nat)
    requires i <= |s|
    ensures i <= k <= |s|
    ensures forall j :: i <= j < k ==> !EndsSymbol(s[j])
    ensures k < |s| ==> EndsSymbol(s[k])
    decreases |s| - i
  {
    if i < |s| && !EndsSymbol(s[i]) then SymbolEnd(s, i + 1) else i
  }

  /** `readNextToken`: skip blanks; at the end of the text there is no token,
      otherwise the token that starts at the first non-blank character, and
      the position just after it. */
  function NextToken(s: string, i: nat): (r: (Option<string>, nat))
    requires i <= |s|
    ensures r.0.None? <==> SkipBlanks(s, i) == |s|
    ensures r.0.None? ==> r.1 == |s|
    ensures r.0.Some? ==> i <= SkipBlanks(s, i) < r.1 <= |s| && r.0.value == s[SkipBlanks(s, i)..r.1]
  {
    var k := SkipBlanks(s, i);
    if k == |s| then (None, k)
    else
      var e := if IsPunct(s[k]) then k + 1 else if IsDigit(s[k]) then DigitsEnd(s, k) else SymbolEnd(s, k);
      (Some(s[k..e]), e)
  }

  /** Tokens are gathered in order; one more token is prepended to the rest. */
  function Prepend(t: string, r: Result<seq<string>>): Result<seq<string>> {
    match r
    case Ok(ts) => Ok([t] + ts)
    case Fatal(f) => Fatal(f)
  }

  /** `tokenize` from position `i`: until the cursor reaches the end of the
      text, read the next token; when only blanks remain there is none, and
      the forced unwrap of the missing token aborts. */
  function LexFrom(s: string, i: nat): Result<seq<string>>
    requires i <= |s|
    decreases |s| - i
  {
    if i == |s| then Ok([])
    else
      var (t, e) := NextToken(s, i);
      if t.None? then Fatal(NilUnwrap) else Prepend(t.value, LexFrom(s, e))
  }

  function Lex(s: string): Result<seq<string>> {
    LexFrom(s, 0)
  }

  /** What a token can look like: a single punctuation character, a run of
      digits, or a symbol that starts with some other non-blank character and
      holds no space and no `)`. */
  predicate TokenShape(t: string) {
    && |t| > 0
    && (|| (|t| == 1 && IsPunct(t[0]))
        || (forall j :: 0 <= j < |t| ==> IsDigit(t[j]))
        || (!IsBlank(t[0]) && !IsPunct(t[0]) && !IsDigit(t[0])
            && forall j :: 0 <= j < |t| ==> !EndsSymbol(t[j])))
  }

  /** `readNumber`: the digits from `start` on, and where they end. */
  method ReadNumber(s: string, start: nat) returns (token: string, next: nat)
    requires start <= |s|
    ensures next == DigitsEnd(s, start) && token == s[start..next]
  {
    token := "";
    next := start;
    while next != |s|
      invariant start <= next <= |s|
      invariant token == s[start..next]
      invariant DigitsEnd(s, next) == DigitsEnd(s, start)
      decreases |s| - next
    {
      var c := s[next];
      if IsDigit(c) {
        token := token + [c];
      } else {
        return;
      }
      next := next + 1;
    }
  }

  /** `readSymbol`: the characters from `start` up to a space or `)`. */
  method ReadSymbol(s: string, start: nat) returns (token: string, next: nat)
    requires start <= |s|
    ensures next == SymbolEnd(s, start) && token == s[start..next]
  {
    token := "";
    next := start;
    while next != |s|
      invariant start <= next <= |s|
      invariant token == s[start..next]
      invariant SymbolEnd(s, next) == SymbolEnd(s, start)
      decreases |s| - next
    {
      var c := s[next];
      if EndsSymbol(c) {
        return;
      } else {
        token := token + [c];
      }
      next := next + 1;
    }
  }

  /** `readNextToken`. */
  method ReadNextToken(s: string, start: nat) returns (token: Option<string>, next: nat)
    requires start <= |s|
    ensures (token, next) == NextToken(s, start)
  {
    next := start;
    while next != |s|
      invariant start <= next <= |s|
      invariant SkipBlanks(s, next) == SkipBlanks(s, start)
      decreases |s| - next
    {
      if IsBlank(s[next]) {
        next := next + 1;
      } else {
        break;
      }
    }
    if next == |s| {
      return None, next;
    }
    var c := s[next];
    if IsPunct(c) {
      assert s[next..next + 1] == [c];
      return Some([c]), next + 1;
    } else if IsDigit(c) {
      var t;
      t, next := ReadNumber(s, next);
      return Some(t), next;
    } else {
      var t;
      t, next := ReadSymbol(s, next);
      return Some(t), next;
    }
  }

  /** `tokenize`. */
  method Tokenize(s: string) returns (r: Result<seq<string>>)
    ensures r == Lex(s)
  {
    var tokens: seq<string> := [];
    var next := 0;
    if Lex(s).Ok? {
      assert tokens + Lex(s).value == Lex(s).value;
    }
    while next != |s|
      invariant next <= |s|
      invariant LexFrom(s, next).Ok? ==> Lex(s) == Ok(tokens + LexFrom(s, next).value)
      invariant LexFrom(s, next).Fatal? ==> Lex(s) == LexFrom(s, next)
      decreases |s| - next
    {
      var t, e := ReadNextToken(s, next);
      if t.None? {
        return Fatal(NilUnwrap);
      }
      assert LexFrom(s, next) == Prepend(t.value, LexFrom(s, e));
      if LexFrom(s, e).Ok? {
        assert tokens + ([t.value] + LexFrom(s, e).value) == (tokens + [t.value]) + LexFrom(s, e).value;
      }
      tokens := tokens + [t.value];
      next := e;
    }
    assert tokens + [] == tokens;
    return Ok(tokens);
  }

  // Properties of the token stream.

  /** Every token has one of the three shapes, and so is never empty. */
  lemma {:induction false} LexTokenShapes(s: string, i: nat)
    requires i <= |s| && LexFrom(s, i).Ok?
    ensures forall t :: t in LexFrom(s, i).value ==> TokenShape(t)
    decreases |s| - i
  {
    if i < |s| {
      var (t, e) := NextToken(s, i);
      LexTokenShapes(s, e);
      var k := SkipBlanks(s, i);
      var tok := t.value;
      if IsPunct(s[k]) {
        assert |tok| == 1 && tok[0] == s[k];
      } else if IsDigit(s[k]) {
        assert forall j :: 0 <= j < |tok| ==> tok[j] == s[k + j];
      } else {
        assert forall j :: 0 <= j < |tok| ==> tok[j] == s[k + j];
        assert !EndsSymbol(s[k]);
      }
      assert TokenShape(tok);
    }
  }

  /** Where the token read from `i` comes from: the characters before it are
      blanks, an operator is one character, a run of digits stops at the first
      non-digit, and a symbol stops at the first space or `)`. */
  lemma NextTokenSpan(s: string, i: nat)
    requires i <= |s| && NextToken(s, i).0.Some?
    ensures var k, e := SkipBlanks(s, i), NextToken(s, i).1;
      && (forall j :: i <= j < k ==> IsBlank(s[j]))
      && k < e && !IsBlank(s[k])
      && (IsPunct(s[k]) ==> e == k + 1)
      && (IsDigit(s[k]) ==> (forall j :: k <= j < e ==> IsDigit(s[j])) && (e == |s| || !IsDigit(s[e])))
      && (!IsPunct(s[k]) && !IsDigit(s[k]) ==>
            (forall j :: k <= j < e ==> !EndsSymbol(s[j])) && (e == |s| || EndsSymbol(s[e])))
  {}

  /** Text that ends in a space is fatal: the final space is inside no token,
      so the cursor eventually rests before a tail of blanks. */
  lemma {:induction false} TrailingSpaceIsFatal(s: string, i: nat)
    requires i < |s| && s[|s| - 1] == ' '
    ensures LexFrom(s, i) == Fatal(NilUnwrap)
    decreases |s| - i
  {
    var (t, e) := NextToken(s, i);
    if t.Some? {
      var k := SkipBlanks(s, i);
      assert k < |s| - 1;
      assert e < |s| by {
        if !IsPunct(s[k]) {
          if IsDigit(s[k]) {
            assert DigitsEnd(s, k) <= |s| - 1;
          } else {
            assert SymbolEnd(s, k) <= |s| - 1;
          }
        }
      }
      TrailingSpaceIsFatal(s, e);
    }
  }

  /** Text made only of blanks (at least one) is fatal. */
  lemma BlanksOnlyAreFatal(s: string)
    requires |s| > 0 && forall j :: 0 <= j < |s| ==> IsBlank(s[j])
    ensures Lex(s) == Fatal(NilUnwrap)
  {
    assert SkipBlanks(s, 0) == |s|;
  }

  /** Text whose last character is not a blank always tokenizes: a non-blank
      character remains ahead of the cursor until the text is consumed. */
  lemma {:induction false} NonBlankEndTokenizes(s: string, i: nat)
    requires i <= |s| && (|s| == 0 || !IsBlank(s[|s| - 1]))
    ensures LexFrom(s, i).Ok?
    decreases |s| - i
  {
    if i < |s| {
      assert SkipBlanks(s, i) <= |s| - 1;
      NonBlankEndTokenizes(s, NextToken(s, i).1);
    }
  }

  /** A newline does not end a name: a name with no space or `)` after its
      start runs to the end of the text, newlines included, and is the last
      token. */
  lemma {:induction false} NameRunsThroughNewlines(s: string, k: nat)
    requires k < |s| && !IsBlank(s[k]) && !IsPunct(s[k]) && !IsDigit(s[k])
    requires forall j :: k <= j < |s| ==> !EndsSymbol(s[j])
    ensures LexFrom(s, k) == Ok([s[k..]])
  {
    assert SkipBlanks(s, k) == k;
    var e := SymbolEnd(s, k);
    assert e == |s| && s[k..e] == s[k..];
    assert NextToken(s, k) == (Some(s[k..]), |s|);
    assert LexFrom(s, k) == Prepend(s[k..], Ok([]));
    assert [s[k..]] + [] == [s[k..]];
  }

  /** A run of digits followed only by blanks (newlines included, at least
      one) aborts: the number stops at the first blank, after which only
      blanks remain and no token is read. */
  lemma {:induction false} NumberThenBlanksIsFatal(s: string, k: nat, m: nat)
    requires k < m < |s|
    requires forall j :: k <= j < m ==> IsDigit(s[j])
    requires forall j :: m <= j < |s| ==> IsBlank(s[j])
    ensures LexFrom(s, k) == Fatal(NilUnwrap)
  {
    assert SkipBlanks(s, k) == k;
    var e := DigitsEnd(s, k);
    assert !IsDigit(s[m]);
    assert e < |s| ==> !IsDigit(s[e]);
    assert SkipBlanks(s, m) == |s|;
    assert LexFrom(s, m) == Fatal(NilUnwrap);
  }
}
