/** Writing expressions back as program text, in the form the test suite
    writes its programs and expected results: numbers in decimal, names as
    they are, parenthesised lists separated by single spaces. Reading
    written text back with the tokenizer and the parser gives the
    expression that was written. */
module Printing {
  import opened Values
  import opened Lexer
  import opened Parser

  function DigitChar(d: nat): (c: char)
    requires d < 10
    ensures IsDigit(c) && DigitValue(c) == d
  {
    ('0' as int + d) as char
  }

  /** The decimal numeral of `n`, without leading zeros: the digits whose
      value is `n`. */
  function Digits(n: nat): (t: string)
    ensures |t| > 0 && AllDigits(t) && DecimalValue(t) == n
    decreases n
  {
    if n < 10 then [DigitChar(n)]
    else
      var t := Digits(n / 10) + [DigitChar(n % 10)];
      assert t[..|t| - 1] == Digits(n / 10);
      t
  }

  /** A numeral read back with `Int(...)` gives the number written. */
  lemma {:induction false} ParseDigits(n: nat)
    requires n <= MaxInt
    ensures ParseInt(Digits(n)) == Some(n as Int64)
  {}

  /** A name that the tokenizer reads back as one token and the parser as a
      symbol: an operator, or a run without spaces and `)` that starts with a
      character that is not a blank, a digit or a punctuation character. */
  predicate WritableName(name: string) {
    || IsOperatorToken(name)
    || (&& |name| > 0 && !IsBlank(name[0]) && !IsPunct(name[0]) && !IsDigit(name[0])
        && forall j :: 0 <= j < |name| ==> !EndsSymbol(name[j]))
  }

  lemma {:induction false} OperatorNameIsPunct(name: string)
    requires IsOperatorToken(name)
    ensures |name| == 1 && IsPunct(name[0]) && name[0] != '(' && name[0] != ')'
  {}

  /** The expressions that have a written form: numbers that are not
      negative (the tokenizer reads `-` as a token of its own), writable
      symbols, and lists of such expressions. */
  predicate Writable(e: Expr)
    decreases e
  {
    match e
    case Number(n) => n >= 0
    case Symbol(name) => WritableName(name)
    case List(es) => forall k :: 0 <= k < |es| ==> Writable(es[k])
    case _ => false
  }

  /** The tokens of an expression: a numeral, a name, or `(`, the tokens
      of the elements in order, and `)`. The first one is never `)`. */
  function TokensOf(e: Expr): (ts: seq<string>)
    requires Writable(e)
    ensures |ts| > 0 && ts[0] != ")"
    decreases e, 1
  {
    match e
    case Number(n) => [Digits(n as nat)]
    case Symbol(name) => [name]
    case List(_) => ["("] + TokensFrom(e, 0) + [")"]
  }

  /** The tokens of the elements of the list `parent` from `k` on. */
  function TokensFrom(parent: Expr, k: nat): seq<string>
    requires parent.List? && Writable(parent) && k <= |parent.es|
    decreases parent, 0, |parent.es| - k
  {
    if k == |parent.es| then [] else TokensOf(parent.es[k]) + TokensFrom(parent, k + 1)
  }

  /** What goes between two adjacent tokens in written text: nothing after
      `(` or before `)`, one space otherwise. */
  function Separator(a: string, b: string): string {
    if a == "(" || b == ")" then "" else " "
  }

  /** Tokens written one after the other with their separators. */
  function Spell(ts: seq<string>): string
    decreases |ts|
  {
    if |ts| == 0 then ""
    else if |ts| == 1 then ts[0]
    else ts[0] + Separator(ts[0], ts[1]) + Spell(ts[1..])
  }

  /** The program text of an expression: a number in decimal, a symbol as
      its name, a list as its elements separated by single spaces inside
      parentheses, as in `(first (1 2 3))`. */
  function Unparse(e: Expr): string
    requires Writable(e)
  {
    Spell(TokensOf(e))
  }

  /** A token that stands alone: one punctuation character. */
  predicate PunctToken(t: string) {
    |t| == 1 && IsPunct(t[0])
  }

  /** A token the tokenizer reads back as itself: a punctuation character, a
      numeral, or a name that runs up to a space or `)` and does not start
      with a blank, a digit or a punctuation character. */
  predicate Readable(t: string) {
    || PunctToken(t)
    || (|t| > 0 && AllDigits(t))
    || (&& |t| > 0 && !IsBlank(t[0]) && !IsPunct(t[0]) && !IsDigit(t[0])
        && forall j :: 0 <= j < |t| ==> !EndsSymbol(t[j]))
  }

  predicate AllReadable(ts: seq<string>) {
    forall i :: 0 <= i < |ts| ==> Readable(ts[i])
  }

  /** Every token of a writable expression reads back as itself. */
  lemma {:induction false} TokensReadable(e: Expr)
    requires Writable(e)
    ensures AllReadable(TokensOf(e))
    decreases e, 1
  {
    match e
    case Number(n) =>
    case Symbol(name) =>
      if IsOperatorToken(name) { OperatorNameIsPunct(name); }
    case List(_) =>
      TokensFromReadable(e, 0);
      var inner := TokensFrom(e, 0);
      assert AllReadable(["("]) && AllReadable([")"]);
      ConcatReadable(["("], inner);
      ConcatReadable(["("] + inner, [")"]);
  }

  lemma {:induction false} TokensFromReadable(parent: Expr, k: nat)
    requires parent.List? && Writable(parent) && k <= |parent.es|
    ensures AllReadable(TokensFrom(parent, k))
    decreases parent, 0, |parent.es| - k
  {
    if k < |parent.es| {
      TokensReadable(parent.es[k]);
      TokensFromReadable(parent, k + 1);
      ConcatReadable(TokensOf(parent.es[k]), TokensFrom(parent, k + 1));
    }
  }

  lemma {:induction false} ConcatReadable(a: seq<string>, b: seq<string>)
    requires AllReadable(a) && AllReadable(b)
    ensures AllReadable(a + b)
  {
    forall i | 0 <= i < |a + b|
      ensures Readable((a + b)[i])
    {
      if i < |a| { assert (a + b)[i] == a[i]; } else { assert (a + b)[i] == b[i - |a|]; }
    }
  }

  /** Written tokens start with the first character of the first token. */
  lemma {:induction false} SpellStart(ts: seq<string>)
    requires |ts| > 0 && |ts[0]| > 0
    ensures |Spell(ts)| > 0 && Spell(ts)[0] == ts[0][0]
  {
  }

  /** Puts tokens in front of a token stream, keeping a fault as it is. */
  function PrependAll(ts: seq<string>, r: Result<seq<string>>): Result<seq<string>> {
    match r
    case Ok(rest) => Ok(ts + rest)
    case Fatal(f) => Fatal(f)
  }

  // The tokenizer half of the round trip.

  lemma {:induction false} DigitsEndAt(s: string, i: nat, e: nat)
    requires i <= e <= |s| && (forall j :: i <= j < e ==> IsDigit(s[j])) && (e == |s| || !IsDigit(s[e]))
    ensures DigitsEnd(s, i) == e
    decreases e - i
  {
    if i < e {
      DigitsEndAt(s, i + 1, e);
    }
  }

  lemma {:induction false} SymbolEndAt(s: string, i: nat, e: nat)
    requires i <= e <= |s| && (forall j :: i <= j < e ==> !EndsSymbol(s[j])) && (e == |s| || EndsSymbol(s[e]))
    ensures SymbolEnd(s, i) == e
    decreases e - i
  {
    if i < e {
      SymbolEndAt(s, i + 1, e);
    }
  }

  /** A blank in front of a token is skipped. */
  lemma {:induction false} SkipOneBlank(s: string, m: nat, after: nat)
    requires after == m + 1 < |s| && IsBlank(s[m]) && !IsBlank(s[m + 1])
    ensures LexFrom(s, m) == LexFrom(s, after)
  {
    assert SkipBlanks(s, m) == SkipBlanks(s, m + 1) == m + 1;
    assert NextToken(s, m) == NextToken(s, m + 1);
  }

  /** A token that reads back as itself, found at `i` and followed by a
      character that ends it (or by nothing), is the next token. */
  lemma {:induction false} NextTokenAt(s: string, i: nat, t: string, end: nat)
    requires i + |t| == end <= |s| && s[i..end] == t && Readable(t)
    requires PunctToken(t) || end == |s| || EndsSymbol(s[end])
    ensures NextToken(s, i) == (Some(t), end)
  {
    forall j | i <= j < end
      ensures s[j] == t[j - i]
    {
      assert s[i..end][j - i] == s[j];
    }
    assert SkipBlanks(s, i) == i;
    if PunctToken(t) {
    } else if IsDigit(t[0]) {
      DigitsEndAt(s, i, end);
    } else {
      SymbolEndAt(s, i, end);
    }
  }

  /** One step of the tokenizer: the token read next, in front of the tokens
      read after it. */
  lemma {:induction false} LexStep(s: string, i: nat, t: string, end: nat)
    requires i < |s| && end <= |s| && NextToken(s, i) == (Some(t), end)
    ensures LexFrom(s, i) == Prepend(t, LexFrom(s, end))
  {
  }

  /** Where a token lies in a text made of what comes before it, the token
      and what comes after it. */
  lemma {:induction false} TokenLayout(s: string, pre: string, t: string, post: string, i: nat)
    requires s == pre + t + post && i == |pre|
    ensures i + |t| <= |s| && s[i..i + |t|] == t
    ensures i + |t| < |s| ==> |post| > 0 && s[i + |t|] == post[0]
  {
  }

  /** Two ways of grouping a text made of five parts. */
  lemma {:induction false} Regroup(a: string, b: string, c: string, d: string, e: string)
    ensures a + (b + c + d) + e == a + b + (c + d + e)
    ensures a + (b + c + d) + e == (a + b + c) + d + e
  {
  }

  /** A token read in front of the tokens read from where it ends. */
  lemma {:induction false} PrependStep(r: Result<seq<string>>, t: string, rest: seq<string>, tail: Result<seq<string>>)
    requires r == PrependAll(rest, tail)
    ensures Prepend(t, r) == PrependAll([t] + rest, tail)
  {
    if tail.Ok? {
      assert [t] + (rest + tail.value) == ([t] + rest) + tail.value;
    }
  }

  /** The tokens read from a position depend on the position only. */
  lemma {:induction false} SamePosition(s: string, x: nat, y: nat)
    requires x == y <= |s|
    ensures LexFrom(s, x) == LexFrom(s, y)
  {
  }

  lemma {:induction false} PrependNone(r: Result<seq<string>>)
    ensures PrependAll([], r) == r
  {
    if r.Ok? {
      assert [] + r.value == r.value;
    }
  }

  lemma {:induction false} PrependOne(t: string, r: Result<seq<string>>)
    ensures Prepend(t, r) == PrependAll([t], r)
  {
  }

  /** Where the first of several written tokens, its separator and the rest
      lie in the text. */
  lemma {:induction false} FirstTokenLayout(s: string, pre: string, ts: seq<string>, post: string, i: nat)
    requires |ts| >= 2 && AllReadable(ts) && s == pre + Spell(ts) + post && i == |pre|
    ensures var t := ts[0];
      && i + |t| <= |s| && s[i..i + |t|] == t && Readable(t)
      && (PunctToken(t) || i + |t| == |s| || EndsSymbol(s[i + |t|]))
      && (Separator(t, ts[1]) == " " ==> i + |t| + 1 < |s| && IsBlank(s[i + |t|]) && !IsBlank(s[i + |t| + 1]))
  {
    var t, sep, rest := ts[0], Separator(ts[0], ts[1]), Spell(ts[1..]);
    assert Spell(ts) == t + sep + rest;
    Regroup(pre, t, sep, rest, post);
    assert Readable(t) && Readable(ts[1]);
    SpellStart(ts[1..]);
    TokenLayout(s, pre, t, sep + rest + post, i);
    if sep == " " {
      var m := |pre| + |t|;
      assert s[m] == ' ' && s[m + 1] == rest[0];
    }
  }

  /** The tokens after the first are readable when all are. */
  lemma {:induction false} ReadableTail(ts: seq<string>)
    requires |ts| > 0 && AllReadable(ts)
    ensures AllReadable(ts[1..])
  {
    forall j | 0 <= j < |ts[1..]| ensures Readable(ts[1..][j]) {
      assert ts[1..][j] == ts[j + 1];
    }
  }

  /** Where written tokens lie in a text: from position `i` on, `s` holds the
      tokens `ts` as `Spell` lays them out, each one followed by the end of
      the text or by a character that ends it, and each single space of the
      layout followed by a character that is not blank. */
  predicate SpelledAt(s: string, i: nat, ts: seq<string>)
    decreases |ts|
  {
    if |ts| == 0 then i <= |s|
    else
      var t := ts[0];
      var end := i + |t|;
      && end <= |s| && s[i..end] == t && Readable(t)
      && (PunctToken(t) || end == |s| || EndsSymbol(s[end]))
      && (|ts| > 1 ==>
            var sep := Separator(t, ts[1]);
            && (sep == " " ==> end + 1 < |s| && IsBlank(s[end]) && !IsBlank(s[end + 1]))
            && SpelledAt(s, end + |sep|, ts[1..]))
  }

  /** The first token laid out at `i`, in front of the others laid out
      after its separator. */
  lemma {:induction false} SpelledAtFirst(s: string, i: nat, ts: seq<string>)
    requires |ts| > 0 && i + |ts[0]| <= |s| && s[i..i + |ts[0]|] == ts[0] && Readable(ts[0])
    requires PunctToken(ts[0]) || i + |ts[0]| == |s| || EndsSymbol(s[i + |ts[0]|])
    requires |ts| > 1 && Separator(ts[0], ts[1]) == " " ==>
      i + |ts[0]| + 1 < |s| && IsBlank(s[i + |ts[0]|]) && !IsBlank(s[i + |ts[0]| + 1])
    requires |ts| > 1 ==> SpelledAt(s, i + |ts[0]| + |Separator(ts[0], ts[1])|, ts[1..])
    ensures SpelledAt(s, i, ts)
  {
  }

  /** A text made of written tokens, followed by nothing or by a character
      that ends the last of them, holds those tokens where they were
      written. */
  lemma {:induction false} SpellLaysOut(s: string, pre: string, ts: seq<string>, post: string, i: nat)
    requires s == pre + Spell(ts) + post && AllReadable(ts) && i == |pre|
    requires |ts| > 0 ==> PunctToken(ts[|ts| - 1]) || post == [] || EndsSymbol(post[0])
    ensures SpelledAt(s, i, ts)
    decreases |ts|
  {
    if |ts| == 1 {
      LaysOutOne(s, pre, ts, post, i);
    } else if |ts| > 1 {
      TailLayout(s, pre, ts, post);
      SpellLaysOut(s, pre + ts[0] + Separator(ts[0], ts[1]), ts[1..], post, i + |ts[0]| + |Separator(ts[0], ts[1])|);
      LaysOutMany(s, pre, ts, post, i);
    }
  }

  /** A single written token lies where it was written. */
  lemma {:induction false} LaysOutOne(s: string, pre: string, ts: seq<string>, post: string, i: nat)
    requires |ts| == 1 && s == pre + Spell(ts) + post && AllReadable(ts) && i == |pre|
    requires PunctToken(ts[0]) || post == [] || EndsSymbol(post[0])
    ensures SpelledAt(s, i, ts)
  {
    assert Readable(ts[0]) && Spell(ts) == ts[0];
    TokenLayout(s, pre, ts[0], post, i);
    SpelledAtFirst(s, i, ts);
  }

  /** The text after the first of several written tokens and its separator
      is made of the others, written. */
  lemma {:induction false} TailLayout(s: string, pre: string, ts: seq<string>, post: string)
    requires |ts| >= 2 && AllReadable(ts) && s == pre + Spell(ts) + post
    requires PunctToken(ts[|ts| - 1]) || post == [] || EndsSymbol(post[0])
    ensures s == (pre + ts[0] + Separator(ts[0], ts[1])) + Spell(ts[1..]) + post
    ensures AllReadable(ts[1..])
    ensures PunctToken(ts[1..][|ts[1..]| - 1]) || post == [] || EndsSymbol(post[0])
    ensures |pre + ts[0] + Separator(ts[0], ts[1])| == |pre| + |ts[0]| + |Separator(ts[0], ts[1])|
  {
    var t, sep, rest := ts[0], Separator(ts[0], ts[1]), Spell(ts[1..]);
    assert Spell(ts) == t + sep + rest;
    Regroup(pre, t, sep, rest, post);
    ReadableTail(ts);
    assert ts[1..][|ts[1..]| - 1] == ts[|ts| - 1];
  }

  /** The first of several written tokens lies where it was written, in front
      of the others. */
  lemma {:induction false} LaysOutMany(s: string, pre: string, ts: seq<string>, post: string, i: nat)
    requires |ts| >= 2 && AllReadable(ts) && s == pre + Spell(ts) + post && i == |pre|
    requires SpelledAt(s, i + |ts[0]| + |Separator(ts[0], ts[1])|, ts[1..])
    ensures SpelledAt(s, i, ts)
  {
    FirstTokenLayout(s, pre, ts, post, i);
    SpelledAtFirst(s, i, ts);
  }

  /** A token laid out at `i`, and the separator `sep` after it, are read as
      that token; reading goes on at `next`. */
  lemma {:induction false} ReadToken(s: string, i: nat, t: string, sep: string, next: nat)
    requires i + |t| <= |s| && s[i..i + |t|] == t && Readable(t)
    requires PunctToken(t) || i + |t| == |s| || EndsSymbol(s[i + |t|])
    requires sep == "" || sep == " "
    requires sep == " " ==> i + |t| + 1 < |s| && IsBlank(s[i + |t|]) && !IsBlank(s[i + |t| + 1])
    requires next == i + |t| + |sep|
    ensures LexFrom(s, i) == Prepend(t, LexFrom(s, next))
  {
    var end := i + |t|;
    NextTokenAt(s, i, t, end);
    LexStep(s, i, t, end);
    if sep == " " {
      SkipOneBlank(s, end, next);
    } else {
      SamePosition(s, end, next);
    }
  }

  /** A first token read in front of the tokens read after it. */
  lemma {:induction false} ReadOnward(a: Result<seq<string>>, b: Result<seq<string>>, c: Result<seq<string>>, ts: seq<string>)
    requires |ts| > 0 && a == Prepend(ts[0], b) && b == PrependAll(ts[1..], c)
    ensures a == PrependAll(ts, c)
  {
    PrependStep(b, ts[0], ts[1..], c);
    assert [ts[0]] + ts[1..] == ts;
  }

  /** The first of several tokens laid out at `i` is read, its separator
      skipped, and the others read from `next` on. */
  lemma {:induction false} ReadFirstOnward(s: string, i: nat, ts: seq<string>, next: nat, k: nat)
    requires |ts| > 1 && i + |ts[0]| <= |s| && s[i..i + |ts[0]|] == ts[0] && Readable(ts[0])
    requires PunctToken(ts[0]) || i + |ts[0]| == |s| || EndsSymbol(s[i + |ts[0]|])
    requires Separator(ts[0], ts[1]) == " " ==>
      i + |ts[0]| + 1 < |s| && IsBlank(s[i + |ts[0]|]) && !IsBlank(s[i + |ts[0]| + 1])
    requires next == i + |ts[0]| + |Separator(ts[0], ts[1])| && k <= |s|
    requires LexFrom(s, next) == PrependAll(ts[1..], LexFrom(s, k))
    ensures LexFrom(s, i) == PrependAll(ts, LexFrom(s, k))
  {
    ReadToken(s, i, ts[0], Separator(ts[0], ts[1]), next);
    ReadOnward(LexFrom(s, i), LexFrom(s, next), LexFrom(s, k), ts);
  }

  /** Tokens laid out from `i` on are read as those tokens, followed by what
      is read from `k`, just after the last of them. */
  lemma {:induction false} LexSpelledAt(s: string, i: nat, ts: seq<string>, k: nat)
    requires SpelledAt(s, i, ts) && k == i + |Spell(ts)|
    ensures k <= |s|
    ensures LexFrom(s, i) == PrependAll(ts, LexFrom(s, k))
    decreases |ts|
  {
    if |ts| == 0 {
      assert ts == [];
      SamePosition(s, i, k);
      PrependNone(LexFrom(s, k));
    } else if |ts| == 1 {
      assert ts == [ts[0]] && Spell(ts) == ts[0];
      ReadToken(s, i, ts[0], "", k);
      PrependOne(ts[0], LexFrom(s, k));
    } else {
      var next := i + |ts[0]| + |Separator(ts[0], ts[1])|;
      assert |Spell(ts)| == |ts[0]| + |Separator(ts[0], ts[1])| + |Spell(ts[1..])|;
      LexSpelledAt(s, next, ts[1..], k);
      ReadFirstOnward(s, i, ts, next, k);
    }
  }

  // The parser half of the round trip.

  /** Splitting a stretch of tokens made of two parts. */
  lemma {:induction false} SliceSplit(toks: seq<string>, a: nat, b: nat, c: nat, x: seq<string>, y: seq<string>)
    requires a <= c <= |toks| && toks[a..c] == x + y && b == a + |x|
    ensures b <= c && toks[a..b] == x && toks[b..c] == y
  {
    assert toks[a..b] == toks[a..c][..|x|];
    assert toks[b..c] == toks[a..c][|x|..];
  }

  /** The tokens of `e`, laid out in `toks` from `i` to `last`, are parsed
      back into `e`, ending at `last`. */
  lemma {:induction false} ParseWritten(toks: seq<string>, i: nat, e: Expr, last: nat)
    requires Writable(e) && i + |TokensOf(e)| <= |toks| && toks[i..i + |TokensOf(e)|] == TokensOf(e)
    requires last == i + |TokensOf(e)| - 1
    ensures ParseAt(toks, i) == Ok((e, last))
    decreases e, 1
  {
    var ts := TokensOf(e);
    assert toks[i] == toks[i..i + |ts|][0] == ts[0];
    match e
    case Number(n) =>
      ParseDigits(n as nat);
      var t := Digits(n as nat);
      assert IsDigit(t[0]);
      assert !IsOperatorToken(t) by {
        if IsOperatorToken(t) { OperatorNameIsPunct(t); }
      }
    case Symbol(name) =>
      if IsOperatorToken(name) { OperatorNameIsPunct(name); }
      ClassifyToken(toks, i);
    case List(es) =>
      ListOpened(toks, i, e, last);
  }

  /** A list's tokens, laid out in `toks` from `i` to `last`: its elements
      are read after the `(` up to the `)` at `last`. */
  lemma {:induction false} ListOpened(toks: seq<string>, i: nat, e: Expr, last: nat)
    requires e.List? && Writable(e) && i + |TokensOf(e)| <= |toks| && toks[i..i + |TokensOf(e)|] == TokensOf(e)
    requires last == i + |TokensOf(e)| - 1
    ensures toks[i] == "(" && ParseAt(toks, i) == Ok((e, last))
    decreases e, 0
  {
    var ts, inner := TokensOf(e), TokensFrom(e, 0);
    assert ts == ["("] + (inner + [")"]);
    SliceSplit(toks, i, i + 1, i + |ts|, ["("], inner + [")"]);
    SliceSplit(toks, i + 1, last, i + |ts|, inner, [")"]);
    assert toks[i] == toks[i..i + 1][0];
    assert toks[last] == toks[last..i + |ts|][0];
    assert e.es[..0] == [];
    ListWritten(toks, i + 1, e, 0, last);
  }

  /** One element read inside a list, then the rest of the list. */
  lemma {:induction false} ListStep(toks: seq<string>, j: nat, acc: seq<Expr>, e: Expr, last: nat,
                                   next: nat, acc': seq<Expr>, r: Result<(Expr, nat)>)
    requires j < |toks| && toks[j] != ")" && ParseAt(toks, j) == Ok((e, last))
    requires next == last + 1 && acc' == acc + [e] && ListFrom(toks, next, acc') == r
    ensures ListFrom(toks, j, acc) == r
  {
  }

  /** The tokens of the elements of `parent` from `k` on, laid out in `toks`
      from `j` up to the `)` at `end`, complete the list whose first `k`
      elements were read. */
  lemma {:induction false} ListWritten(toks: seq<string>, j: nat, parent: Expr, k: nat, end: nat)
    requires parent.List? && Writable(parent) && k <= |parent.es|
    requires end < |toks| && toks[end] == ")"
    requires end == j + |TokensFrom(parent, k)| && toks[j..end] == TokensFrom(parent, k)
    ensures ListFrom(toks, j, parent.es[..k]) == Ok((parent, end))
    decreases parent, 0, |parent.es| - k
  {
    var es := parent.es;
    if k == |es| {
      assert es[..k] == es;
    } else {
      var e := es[k];
      var ts, rest := TokensOf(e), TokensFrom(parent, k + 1);
      var last := j + |ts| - 1;
      SliceSplit(toks, j, last + 1, end, ts, rest);
      assert toks[j] == toks[j..last + 1][0] == ts[0];
      ParseWritten(toks, j, e, last);
      assert es[..k] + [e] == es[..k + 1];
      ListWritten(toks, last + 1, parent, k + 1, end);
      ListStep(toks, j, es[..k], e, last, last + 1, es[..k + 1], Ok((parent, end)));
    }
  }

  /** Reading back what was written: the text of a writable expression is
      tokenized into its tokens and parsed into the expression itself. */
  lemma {:induction false} ParseUnparse(e: Expr)
    requires Writable(e)
    ensures Lex(Unparse(e)) == Ok(TokensOf(e))
    ensures ParseText(Unparse(e)) == Ok(e)
  {
    var u, ts := Unparse(e), TokensOf(e);
    TokensReadable(e);
    assert [] + u + [] == u;
    SpellLaysOut(u, [], ts, [], 0);
    LexSpelledAt(u, 0, ts, |u|);
    assert ts + [] == ts;
    assert ts[0..|ts|] == ts;
    ParseWritten(ts, 0, e, |ts| - 1);
  }

  // The written form of a list, element by element.

  /** The written texts of expressions one after the other, separated by
      single spaces. */
  function Joined(es: seq<Expr>): string
    requires forall k :: 0 <= k < |es| ==> Writable(es[k])
    decreases |es|
  {
    if |es| == 0 then ""
    else if |es| == 1 then Unparse(es[0])
    else Unparse(es[0]) + " " + Joined(es[1..])
  }

  /** Writing two runs of tokens one after the other puts their separator
      between the last token of the first and the first of the second. */
  lemma {:induction false} SpellConcat(a: seq<string>, b: seq<string>)
    requires |a| > 0 && |b| > 0
    ensures Spell(a + b) == Spell(a) + Separator(a[|a| - 1], b[0]) + Spell(b)
    decreases |a|
  {
    assert (a + b)[0] == a[0];
    if |a| == 1 {
      assert (a + b)[1..] == b;
    } else {
      assert (a + b)[1] == a[1];
      assert (a + b)[1..] == a[1..] + b;
      SpellConcat(a[1..], b);
    }
  }

  /** The last token of a writable expression is never `(`. */
  lemma {:induction false} LastTokenNotOpen(e: Expr)
    requires Writable(e)
    ensures TokensOf(e)[|TokensOf(e)| - 1] != "("
  {
    match e
    case Number(n) =>
      assert IsDigit(Digits(n as nat)[0]);
    case Symbol(name) =>
      if IsOperatorToken(name) { OperatorNameIsPunct(name); }
    case List(_) =>
  }

  /** The tokens of the elements from `k` on are written as their texts
      separated by single spaces; they start with a token other than `)`
      and end with a token other than `(`. */
  lemma {:induction false} SpellElements(parent: Expr, k: nat)
    requires parent.List? && Writable(parent) && k < |parent.es|
    ensures var ts := TokensFrom(parent, k);
      && |ts| > 0 && ts[0] != ")" && ts[|ts| - 1] != "("
      && Spell(ts) == Joined(parent.es[k..])
    decreases |parent.es| - k
  {
    var es := parent.es;
    var head, tail := TokensOf(es[k]), TokensFrom(parent, k + 1);
    LastTokenNotOpen(es[k]);
    assert es[k..][0] == es[k];
    if k + 1 == |es| {
      assert head + tail == head;
    } else {
      SpellElements(parent, k + 1);
      SpellConcat(head, tail);
      assert (head + tail)[|head + tail| - 1] == tail[|tail| - 1];
      assert es[k..][1..] == es[k + 1..];
    }
  }

  /** A `)` follows the text of tokens that do not end with `(` directly. */
  lemma SpellClosing(ts: seq<string>)
    requires |ts| > 0 && ts[|ts| - 1] != "("
    ensures Spell(ts + [")"]) == Spell(ts) + ")"
  {
    var text := Spell(ts);
    SpellConcat(ts, [")"]);
    assert Separator(ts[|ts| - 1], ")") == "";
    assert Spell([")"]) == ")";
    assert text + "" + ")" == text + ")";
  }

  /** A `(` precedes the text of tokens directly. */
  lemma SpellOpening(ts: seq<string>)
    requires |ts| > 0
    ensures Spell(["("] + ts) == "(" + Spell(ts)
  {
    var text := Spell(ts);
    SpellConcat(["("], ts);
    assert Separator("(", ts[0]) == "";
    assert Spell(["("]) == "(";
    assert "(" + "" + text == "(" + text;
  }

  /** Tokens that neither start with `)` nor end with `(`, written between
      parentheses, are their own text between parentheses. */
  lemma SpellBracketed(inner: seq<string>)
    requires |inner| > 0 && inner[0] != ")" && inner[|inner| - 1] != "("
    ensures Spell(["("] + inner + [")"]) == "(" + Spell(inner) + ")"
  {
    var closed := inner + [")"];
    SpellClosing(inner);
    SpellOpening(closed);
    assert ["("] + inner + [")"] == ["("] + closed;
    Associate("(", Spell(inner), ")");
  }

  /** A list is written as its elements' texts, separated by single spaces,
      inside parentheses: `(first (1 2 3))`. */
  lemma {:induction false} UnparseList(es: seq<Expr>)
    requires Writable(List(es))
    ensures Unparse(List(es)) == "(" + Joined(es) + ")"
  {
    var e := List(es);
    var inner := TokensFrom(e, 0);
    assert TokensOf(e) == ["("] + inner + [")"];
    if |es| == 0 {
      assert TokensOf(e) == ["(", ")"];
      assert Separator("(", ")") == "";
      assert Spell(["(", ")"]) == "()";
      assert "(" + Joined(es) + ")" == "()";
    } else {
      SpellElements(e, 0);
      assert es[0..] == es;
      SpellBracketed(inner);
    }
  }

  /** The joined texts of two runs of expressions are joined by a space. */
  lemma {:induction false} JoinedAppend(xs: seq<Expr>, ys: seq<Expr>)
    requires |xs| > 0 && |ys| > 0
    requires forall k :: 0 <= k < |xs| ==> Writable(xs[k])
    requires forall k :: 0 <= k < |ys| ==> Writable(ys[k])
    ensures forall k :: 0 <= k < |xs + ys| ==> Writable((xs + ys)[k])
    ensures Joined(xs + ys) == Joined(xs) + " " + Joined(ys)
    decreases |xs|
  {
    assert forall k :: 0 <= k < |xs + ys| ==> Writable((xs + ys)[k]) by {
      forall k | 0 <= k < |xs + ys| ensures Writable((xs + ys)[k]) {
        if k < |xs| { assert (xs + ys)[k] == xs[k]; } else { assert (xs + ys)[k] == ys[k - |xs|]; }
      }
    }
    assert (xs + ys)[0] == xs[0];
    if |xs| == 1 {
      assert (xs + ys)[1..] == ys;
    } else {
      assert (xs + ys)[1..] == xs[1..] + ys;
      JoinedAppend(xs[1..], ys);
    }
  }

  /** `t` is the written form of `e`. */
  predicate Shows(e: Expr, t: string) {
    Writable(e) && Unparse(e) == t
  }

  /** A list whose elements are written as `t` is written as `(t)`. */
  lemma {:induction false} ShowsList(es: seq<Expr>, t: string)
    requires Writable(List(es)) && Joined(es) == t
    ensures Shows(List(es), "(" + t + ")")
  {
    UnparseList(es);
  }

  lemma {:induction false} JoinedTwo(a: Expr, b: Expr, ta: string, tb: string)
    requires Shows(a, ta) && Shows(b, tb)
    ensures Writable(List([a, b])) && Joined([a, b]) == ta + " " + tb
  {
    JoinedAppend([a], [b]);
    assert [a] + [b] == [a, b];
  }

  lemma {:induction false} JoinedThree(a: Expr, b: Expr, c: Expr, ta: string, tb: string, tc: string)
    requires Shows(a, ta) && Shows(b, tb) && Shows(c, tc)
    ensures Writable(List([a, b, c])) && Joined([a, b, c]) == ta + " " + (tb + " " + tc)
  {
    JoinedTwo(b, c, tb, tc);
    JoinedAppend([a], [b, c]);
    assert [a] + [b, c] == [a, b, c];
  }

  lemma {:induction false} JoinedFour(a: Expr, b: Expr, c: Expr, d: Expr, ta: string, tb: string, tc: string, td: string)
    requires Shows(a, ta) && Shows(b, tb) && Shows(c, tc) && Shows(d, td)
    ensures Writable(List([a, b, c, d])) && Joined([a, b, c, d]) == ta + " " + (tb + " " + (tc + " " + td))
  {
    JoinedThree(b, c, d, tb, tc, td);
    JoinedAppend([a], [b, c, d]);
    assert [a] + [b, c, d] == [a, b, c, d];
  }

  /** A number that is not negative is written as its numeral. */
  lemma {:induction false} ShowsNumber(n: Int64, t: string)
    requires n >= 0 && Digits(n as nat) == t
    ensures Shows(Number(n), t)
  {}

  /** A writable name is written as itself. */
  lemma {:induction false} ShowsName(name: string)
    requires WritableName(name)
    ensures Shows(Symbol(name), name)
  {}

  // Written forms of short lists, from the written forms of their elements.

  lemma {:induction false} ShowsOne(a: Expr, ta: string, t: string)
    requires Shows(a, ta) && t == "(" + ta + ")"
    ensures Shows(List([a]), t)
  {
    ShowsList([a], ta);
  }

  lemma {:induction false} ShowsTwo(a: Expr, b: Expr, ta: string, tb: string, t: string)
    requires Shows(a, ta) && Shows(b, tb) && t == "(" + ta + " " + tb + ")"
    ensures Shows(List([a, b]), t)
  {
    RegroupTwo(ta, tb);
    JoinedTwo(a, b, ta, tb);
    ShowsList([a, b], ta + " " + tb);
  }

  lemma {:induction false} ShowsThree(a: Expr, b: Expr, c: Expr, ta: string, tb: string, tc: string, t: string)
    requires Shows(a, ta) && Shows(b, tb) && Shows(c, tc)
    requires t == "(" + ta + " " + tb + " " + tc + ")"
    ensures Shows(List([a, b, c]), t)
  {
    RegroupThree(ta, tb, tc);
    JoinedThree(a, b, c, ta, tb, tc);
    ShowsList([a, b, c], ta + " " + (tb + " " + tc));
  }

  lemma {:induction false} ShowsFour(a: Expr, b: Expr, c: Expr, d: Expr,
                                      ta: string, tb: string, tc: string, td: string, t: string)
    requires Shows(a, ta) && Shows(b, tb) && Shows(c, tc) && Shows(d, td)
    requires t == "(" + ta + " " + tb + " " + tc + " " + td + ")"
    ensures Shows(List([a, b, c, d]), t)
  {
    RegroupFour(ta, tb, tc, td);
    JoinedFour(a, b, c, d, ta, tb, tc, td);
    ShowsList([a, b, c, d], ta + " " + (tb + " " + (tc + " " + td)));
  }

  /** Concatenation of strings is associative. */
  lemma {:induction false} Associate(a: string, b: string, c: string)
    ensures a + (b + c) == a + b + c
  {}

  lemma {:induction false} RegroupTwo(ta: string, tb: string)
    ensures "(" + (ta + " " + tb) + ")" == "(" + ta + " " + tb + ")"
  {
    Associate("(", ta + " ", tb);
    Associate("(", ta, " ");
  }

  lemma {:induction false} RegroupThree(ta: string, tb: string, tc: string)
    ensures "(" + (ta + " " + (tb + " " + tc)) + ")" == "(" + ta + " " + tb + " " + tc + ")"
  {
    Associate(ta + " ", tb + " ", tc);
    Associate(ta, " ", tb + " " + tc);
    Associate(tb, " ", tc);
    RegroupTwo(ta + " " + tb, tc);
  }

  lemma {:induction false} RegroupFour(ta: string, tb: string, tc: string, td: string)
    ensures "(" + (ta + " " + (tb + " " + (tc + " " + td))) + ")" == "(" + ta + " " + tb + " " + tc + " " + td + ")"
  {
    Associate(tb, " ", tc + " " + td);
    Associate(tb + " ", tc + " ", td);
    Associate(tc, " ", td);
    Associate(ta, " ", tb + " " + tc + " " + td);
    Associate(ta + " ", tb + " " + tc + " ", td);
    Associate(ta + " ", tb + " ", tc);
    Associate(ta + " " + tb + " ", tc, " ");
    RegroupTwo(ta + " " + tb + " " + tc, td);
  }

  /** Two non-empty lists written as `(tx)` and `(ty)` make, one after the
      other, the list written as `(tx ty)`. */
  lemma {:induction false} ShowsAppend(xs: seq<Expr>, ys: seq<Expr>, tx: string, ty: string, t: string)
    requires |xs| > 0 && |ys| > 0
    requires Shows(List(xs), "(" + tx + ")") && Shows(List(ys), "(" + ty + ")")
    requires t == "(" + tx + " " + ty + ")"
    ensures Shows(List(xs + ys), t)
  {
    UnparseList(xs);
    UnparseList(ys);
    Unwrap(Joined(xs), tx);
    Unwrap(Joined(ys), ty);
    RegroupTwo(tx, ty);
    JoinedAppend(xs, ys);
    UnparseList(xs + ys);
  }

  lemma {:induction false} Unwrap(a: string, b: string)
    requires "(" + a + ")" == "(" + b + ")"
    ensures a == b
  {
    assert a == ("(" + a + ")")[1..|a| + 1];
    assert b == ("(" + b + ")")[1..|b| + 1];
  }
}
