/** The numeric primitives behind `+ - * / %` and `< > =`: a left fold of
    checked 64-bit operations over the operand values, and a comparison of the
    first two operand values. */
module Arithmetic {
  import opened Values

  datatype ArithOp = Add | Sub | Mul | Div | Rem
  datatype CmpOp = Less | Greater | Equal

  function Abs(x: int): nat {
    if x < 0 then -x else x
  }

  /** Division truncated toward zero (the platform's `/`, unlike Dafny's). */
  function TruncDiv(a: int, b: int): int
    requires b != 0
  {
    var q := Abs(a) / Abs(b);
    if (a < 0) == (b < 0) then q else -q
  }

  /** The remainder paired with TruncDiv: it takes the sign of the dividend. */
  function TruncRem(a: int, b: int): int
    requires b != 0
  {
    var m := Abs(a) % Abs(b);
    if a < 0 then -m else m
  }

  /** TruncDiv and TruncRem are the truncating quotient and remainder:
      they recompose the dividend, the remainder is smaller than the divisor
      and never has the opposite sign of the dividend. */
  lemma TruncDivision(a: int, b: int)
    requires b != 0
    ensures a == b * TruncDiv(a, b) + TruncRem(a, b)
    ensures Abs(TruncRem(a, b)) < Abs(b)
    ensures TruncRem(a, b) == 0 || (TruncRem(a, b) < 0 <==> a < 0)
    ensures Abs(TruncDiv(a, b)) <= Abs(a)
  {
    NaturalDivision(Abs(a), Abs(b));
    SignedProduct(a, b);
  }

  /** Euclidean division of magnitudes: the quotient never exceeds the dividend. */
  lemma NaturalDivision(x: nat, y: nat)
    requires y >= 1
    ensures x == y * (x / y) + x % y && 0 <= x % y < y
    ensures 0 <= x / y <= x
  {
    var q := x / y;
    if q > x { MulAtLeast(y, q); }
  }

  /** The divisor times the truncated quotient is the magnitude part of the
      dividend, carrying the dividend's sign. */
  lemma SignedProduct(a: int, b: int)
    requires b != 0
    ensures b * TruncDiv(a, b) == if a < 0 then -(Abs(b) * (Abs(a) / Abs(b))) else Abs(b) * (Abs(a) / Abs(b))
  {
    var y, q := Abs(b), Abs(a) / Abs(b);
    if (a < 0) == (b < 0) {
      if b < 0 { assert b * q == -(y * q); } else { assert b * q == y * q; }
    } else {
      if b < 0 { assert b * -q == y * q; } else { assert b * -q == -(y * q); }
    }
  }

  lemma MulAtLeast(y: nat, q: nat)
    requires y >= 1
    ensures y * q >= q
  {}

  /** A result of exact integer arithmetic, or an overflow trap. */
  function Checked(x: int): (r: Result<Int64>)
    ensures r.Ok? <==> InRange(x)
    ensures r.Ok? ==> r.value as int == x
    ensures r.Fatal? ==> r.fault == Overflow
  {
    if InRange(x) then Ok(x as Int64) else Fatal(Overflow)
  }

  /** The exact value of one operation on unbounded integers. */
  function Exact(op: ArithOp, a: int, b: int): int
    requires (op == Div || op == Rem) ==> b != 0
  {
    match op
    case Add => a + b
    case Sub => a - b
    case Mul => a * b
    case Div => TruncDiv(a, b)
    case Rem => TruncRem(a, b)
  }

  /** One trapping 64-bit operation. `%` traps on a zero divisor and, like
      `/`, when the quotient overflows (the minimum divided by -1). */
  function Step(op: ArithOp, a: Int64, b: Int64): Result<Int64> {
    match op
    case Add => Checked(a as int + b as int)
    case Sub => Checked(a as int - b as int)
    case Mul => Checked(a as int * b as int)
    case Div =>
      if b == 0 then Fatal(DivisionByZero) else Checked(TruncDiv(a as int, b as int))
    case Rem =>
      if b == 0 then Fatal(DivisionByZero)
      else if !InRange(TruncDiv(a as int, b as int)) then Fatal(Overflow)
      else
        TruncDivision(a as int, b as int);
        Ok(TruncRem(a as int, b as int) as Int64)
  }

  /** `narithmetic`: fold `op` over the operand values from the left, starting
      from the first; no operand at all is an out-of-range read. */
  function Narithmetic(op: ArithOp, ns: seq<Int64>): Result<Int64> {
    if |ns| == 0 then Fatal(IndexOutOfRange) else FoldFrom(op, ns[0], ns[1..])
  }

  function FoldFrom(op: ArithOp, acc: Int64, rest: seq<Int64>): Result<Int64>
    decreases |rest|
  {
    if rest == [] then Ok(acc)
    else
      match Step(op, acc, rest[0])
      case Ok(v) => FoldFrom(op, v, rest[1..])
      case Fatal(f) => Fatal(f)
  }

  /** `ncompare`: compare the first two operand values; fewer than two is an
      out-of-range read, and any further values are ignored. */
  function NCompare(op: CmpOp, ns: seq<Int64>): (r: Result<bool>)
    ensures r.Ok? <==> |ns| >= 2
    ensures r.Fatal? ==> r.fault == IndexOutOfRange
    ensures r.Ok? && op == Less ==> (r.value <==> ns[0] < ns[1])
    ensures r.Ok? && op == Greater ==> (r.value <==> ns[0] > ns[1])
    ensures r.Ok? && op == Equal ==> (r.value <==> ns[0] == ns[1])
  {
    if |ns| < 2 then Fatal(IndexOutOfRange)
    else
      match op
      case Less => Ok(ns[0] < ns[1])
      case Greater => Ok(ns[0] > ns[1])
      case Equal => Ok(ns[0] == ns[1])
  }

  /** None of `divisors` is zero, where that matters to `op`. */
  predicate NoZeroDivisor(op: ArithOp, divisors: seq<Int64>) {
    (op == Div || op == Rem) ==> forall k :: 0 <= k < |divisors| ==> divisors[k] != 0
  }

  /** The reference left fold on unbounded integers, defined from the last
      operand backwards: ((n0 op n1) op n2) ... */
  function LeftFold(op: ArithOp, ns: seq<Int64>): int
    requires |ns| > 0 && NoZeroDivisor(op, ns[1..])
    decreases |ns|
  {
    if |ns| == 1 then ns[0] as int
    else
      assert NoZeroDivisor(op, ns[..|ns| - 1][1..]) by {
        assert ns[..|ns| - 1][1..] == ns[1..][..|ns| - 2];
      }
      assert ns[|ns| - 1] == ns[1..][|ns| - 2];
      Exact(op, LeftFold(op, ns[..|ns| - 1]), ns[|ns| - 1] as int)
  }

  /** The partial reference fold from an accumulator over the remaining values. */
  function LeftFoldFrom(op: ArithOp, acc: int, rest: seq<Int64>): int
    requires NoZeroDivisor(op, rest)
    decreases |rest|
  {
    if rest == [] then acc
    else LeftFoldFrom(op, Exact(op, acc, rest[0] as int), rest[1..])
  }

  lemma {:induction false} FoldFromMatchesReference(op: ArithOp, acc: Int64, rest: seq<Int64>)
    requires FoldFrom(op, acc, rest).Ok?
    ensures NoZeroDivisor(op, rest)
    ensures FoldFrom(op, acc, rest).value as int == LeftFoldFrom(op, acc as int, rest)
    decreases |rest|
  {
    if rest != [] {
      var step := Step(op, acc, rest[0]);
      assert step.Ok?;
      assert step.value as int == Exact(op, acc as int, rest[0] as int);
      FoldFromMatchesReference(op, step.value, rest[1..]);
    }
  }

  lemma {:induction false} LeftFoldFromLast(op: ArithOp, acc: int, rest: seq<Int64>)
    requires |rest| > 0 && NoZeroDivisor(op, rest)
    ensures NoZeroDivisor(op, rest[..|rest| - 1])
    ensures LeftFoldFrom(op, acc, rest)
         == Exact(op, LeftFoldFrom(op, acc, rest[..|rest| - 1]), rest[|rest| - 1] as int)
    decreases |rest|
  {
    if |rest| > 1 {
      LeftFoldFromLast(op, Exact(op, acc, rest[0] as int), rest[1..]);
      assert rest[1..][..|rest[1..]| - 1] == rest[..|rest| - 1][1..];
    }
  }

  lemma {:induction false} LeftFoldAsFrom(op: ArithOp, ns: seq<Int64>)
    requires |ns| > 0 && NoZeroDivisor(op, ns[1..])
    ensures LeftFold(op, ns) == LeftFoldFrom(op, ns[0] as int, ns[1..])
    decreases |ns|
  {
    if |ns| > 1 {
      var init := ns[..|ns| - 1];
      assert init[1..] == ns[1..][..|ns| - 2];
      LeftFoldAsFrom(op, init);
      LeftFoldFromLast(op, ns[0] as int, ns[1..]);
    }
  }

  /** Whenever `narithmetic` returns, there was at least one operand, no
      zero divisor, and the value is the exact left fold of the operands. */
  lemma NarithmeticIsLeftFold(op: ArithOp, ns: seq<Int64>)
    requires Narithmetic(op, ns).Ok?
    ensures |ns| > 0 && NoZeroDivisor(op, ns[1..])
    ensures Narithmetic(op, ns).value as int == LeftFold(op, ns)
  {
    FoldFromMatchesReference(op, ns[0], ns[1..]);
    LeftFoldAsFrom(op, ns);
  }

  lemma {:induction false} FoldFromFaults(op: ArithOp, acc: Int64, rest: seq<Int64>)
    requires FoldFrom(op, acc, rest).Fatal?
    ensures FoldFrom(op, acc, rest).fault == Overflow
         || (FoldFrom(op, acc, rest).fault == DivisionByZero && (op == Div || op == Rem) && 0 in rest)
    decreases |rest|
  {
    var step := Step(op, acc, rest[0]);
    if step.Ok? {
      FoldFromFaults(op, step.value, rest[1..]);
      assert forall x :: x in rest[1..] ==> x in rest;
    }
  }

  /** The ways `narithmetic` traps: no operand at all (and only then), a zero
      divisor among the operands after the first, or an overflow. */
  lemma NarithmeticFaults(op: ArithOp, ns: seq<Int64>)
    requires Narithmetic(op, ns).Fatal?
    ensures Narithmetic(op, ns).fault == IndexOutOfRange <==> |ns| == 0
    ensures Narithmetic(op, ns).fault in {IndexOutOfRange, DivisionByZero, Overflow}
    ensures Narithmetic(op, ns).fault == DivisionByZero ==> (op == Div || op == Rem) && 0 in ns[1..]
  {
    if |ns| > 0 {
      FoldFromFaults(op, ns[0], ns[1..]);
    }
  }

  /** One step of the reference fold stays within the platform integer: the
      exact result fits, and for `%` the quotient that Swift also computes
      fits too. */
  predicate StepFits(op: ArithOp, a: int, b: int)
    requires (op == Div || op == Rem) ==> b != 0
  {
    if op == Rem then InRange(TruncDiv(a, b)) else InRange(Exact(op, a, b))
  }

  /** Every step of the reference fold from `acc` over `rest` fits. */
  predicate FoldFits(op: ArithOp, acc: int, rest: seq<Int64>)
    requires NoZeroDivisor(op, rest)
    decreases |rest|
  {
    rest == [] || (StepFits(op, acc, rest[0] as int) && FoldFits(op, Exact(op, acc, rest[0] as int), rest[1..]))
  }

  lemma {:induction false} FoldFromSucceeds(op: ArithOp, acc: Int64, rest: seq<Int64>)
    ensures FoldFrom(op, acc, rest).Ok? <==> NoZeroDivisor(op, rest) && FoldFits(op, acc as int, rest)
    decreases |rest|
  {
    if rest != [] {
      var step := Step(op, acc, rest[0]);
      assert NoZeroDivisor(op, rest) <==> ((op == Div || op == Rem) ==> rest[0] != 0) && NoZeroDivisor(op, rest[1..]) by {
        if op == Div || op == Rem {
          assert forall k :: 1 <= k < |rest| ==> rest[k] == rest[1..][k - 1];
        }
      }
      if step.Ok? {
        assert StepFits(op, acc as int, rest[0] as int);
        assert step.value as int == Exact(op, acc as int, rest[0] as int);
        FoldFromSucceeds(op, step.value, rest[1..]);
      } else if (op == Div || op == Rem) ==> rest[0] != 0 {
        assert !StepFits(op, acc as int, rest[0] as int);
      }
    }
  }

  /** When `narithmetic` returns: exactly when there is an operand, no zero
      divisor under `/` or `%`, and every step of the exact left fold fits
      the platform integer; with an operand and no zero divisor, any other
      case is an overflow. */
  lemma NarithmeticSucceeds(op: ArithOp, ns: seq<Int64>)
    ensures Narithmetic(op, ns).Ok? <==>
      |ns| > 0 && NoZeroDivisor(op, ns[1..]) && FoldFits(op, ns[0] as int, ns[1..])
    ensures |ns| > 0 && NoZeroDivisor(op, ns[1..]) && !FoldFits(op, ns[0] as int, ns[1..]) ==>
      Narithmetic(op, ns) == Fatal(Overflow)
  {
    if |ns| > 0 {
      FoldFromSucceeds(op, ns[0], ns[1..]);
      if Narithmetic(op, ns).Fatal? {
        FoldFromFaults(op, ns[0], ns[1..]);
      }
    }
  }
}
