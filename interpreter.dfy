/** The interpreter demo: integer expressions built from Number leaves and
    binary Operation nodes, parsed from reverse-Polish tokens with a stack
    that lives in a Context object. */
module Interpreter {
  import opened Wrappers
  import Decimal

  datatype Expression =
    | Number(value: int)
    | Operation(left: Expression, right: Expression, operator: string)

  /** The message of the run-time panic of an integer division by zero. */
  const DivideByZero := "runtime error: integer divide by zero"
  /** The message of the run-time panic of indexing an empty stack. */
  const IndexOutOfRange := "runtime error: index out of range [-1]"

  function Abs(x: int): nat {
    if x < 0 then -x else x
  }

  /** Go's integer `/`, which truncates toward zero (Dafny's `/` is Euclidean):
      the remainder is smaller than the divisor and takes the sign of the
      dividend. */
  function GoDiv(a: int, b: int): (q: int)
    requires b != 0
    ensures Abs(a - q * b) < Abs(b)
    ensures a - q * b == 0 || (a - q * b < 0 <==> a < 0)
  {
    var m := Abs(a) / Abs(b);
    var rem := Abs(a) % Abs(b);
    assert Abs(a) == m * Abs(b) + rem;
    if (a < 0) == (b < 0) then
      assert a - m * b == (if a < 0 then -rem else rem) by {
        if a < 0 { assert m * b == -(m * Abs(b)); } else { assert m * b == m * Abs(b); }
      }
      m
    else
      assert a - (-m) * b == (if a < 0 then -rem else rem) by {
        if a < 0 { assert (-m) * b == -(m * Abs(b)) + 0 * m; } else { assert (-m) * b == m * Abs(b); }
      }
      -m
  }

  /** Truncation and Euclidean division part ways on a negative dividend. */
  lemma GoDivTruncates()
    ensures GoDiv(-7, 2) == -3 && -7 / 2 == -4
    ensures GoDiv(7, -2) == -3 && GoDiv(-7, -2) == 3
  {
  }

  /** Expression.Interpret: a Number is its value; an Operation applies its
      operator to the values of left and right; any other operator is 0
      (without evaluating the operands); a zero divisor panics. */
  function Interpret(e: Expression): (r: Result<int>)
    ensures r.Err? ==> r.message == DivideByZero
    ensures DivisionFree(e) ==> r.Ok?
  {
    match e
    case Number(v) => Ok(v)
    case Operation(l, r, op) =>
      if !IsOperator(op) then Ok(0)
      else
        match Interpret(l)
        case Err(msg) => Err(msg)
        case Ok(x) =>
          match Interpret(r)
          case Err(msg) => Err(msg)
          case Ok(y) =>
            if op == "+" then Ok(x + y)
            else if op == "-" then Ok(x - y)
            else if op == "*" then Ok(x * y)
            else if y == 0 then Err(DivideByZero)
            else Ok(GoDiv(x, y))
  }

  /** An expression none of whose operators is a division. */
  predicate DivisionFree(e: Expression) {
    match e
    case Number(_) => true
    case Operation(l, r, op) => op != "/" && DivisionFree(l) && DivisionFree(r)
  }

  lemma InterpretNumber(v: int)
    ensures Interpret(Number(v)) == Ok(v)
  {
  }

  /** The four arithmetic operators, and 0 for any other operator. */
  lemma InterpretOperation(l: Expression, r: Expression, op: string, x: int, y: int)
    requires Interpret(l) == Ok(x) && Interpret(r) == Ok(y)
    ensures op == "+" ==> Interpret(Operation(l, r, op)) == Ok(x + y)
    ensures op == "-" ==> Interpret(Operation(l, r, op)) == Ok(x - y)
    ensures op == "*" ==> Interpret(Operation(l, r, op)) == Ok(x * y)
    ensures op == "/" ==> Interpret(Operation(l, r, op)) == if y == 0 then Err(DivideByZero) else Ok(GoDiv(x, y))
    ensures !IsOperator(op) ==> Interpret(Operation(l, r, op)) == Ok(0)
  {
  }

  predicate IsOperator(token: string) {
    token == "+" || token == "-" || token == "*" || token == "/"
  }

  /** The value pushed for a non-operator token: its decimal value, or 0 when
      it is not a number (the Atoi error is ignored). */
  function TokenValue(token: string): (v: int)
    ensures IsDecimal(token) && Decimal.IsDigit(token[0]) ==> v == Decimal.DigitsToNat(token)
    ensures IsDecimal(token) && token[0] == '+' ==> v == Decimal.DigitsToNat(token[1..])
    ensures IsDecimal(token) && token[0] == '-' ==> v == -(Decimal.DigitsToNat(token[1..]) as int)
    ensures !IsDecimal(token) ==> v == 0
  {
    Decimal.AtoiAccepts(token);
    match Decimal.Atoi(token)
    case Some(n) => Decimal.AtoiValue(token); n
    case None => 0
  }

  /** A token in decimal notation: digits, optionally after one sign. */
  predicate IsDecimal(token: string) {
    (|token| > 0 && Decimal.AllDigits(token)) ||
    (|token| > 1 && (token[0] == '-' || token[0] == '+') && Decimal.AllDigits(token[1..]))
  }

  /** A number written by Itoa is read back by the parser as that number. */
  lemma TokenValueItoa(n: int)
    ensures TokenValue(Decimal.Itoa(n)) == n
  {
    Decimal.AtoiItoa(n);
  }

  /** The parser's stack while it runs, and the stack it was left with when it
      panicked. */
  datatype Machine = Running(stack: seq<Expression>) | Panicked(stack: seq<Expression>)

  /** One token of Context.Parse. An operator pops the right operand, then the
      left one, and pushes their Operation; indexing an empty stack panics,
      after the first pop when only one entry was there. Any other token pushes
      a Number. */
  function Step(stack: seq<Expression>, token: string): (m: Machine)
    ensures m.Panicked? <==> IsOperator(token) && |stack| < 2
    ensures m.Running? ==> |m.stack| == |stack| + (if IsOperator(token) then -1 else 1)
  {
    if IsOperator(token) then
      if |stack| < 2 then Panicked([])
      else Running(stack[..|stack| - 2] + [Operation(stack[|stack| - 2], stack[|stack| - 1], token)])
    else Running(stack + [Number(TokenValue(token))])
  }

  /** All tokens of Context.Parse, from left to right, stopping at a panic. */
  function Feed(stack: seq<Expression>, tokens: seq<string>): Machine
    decreases |tokens|
  {
    if tokens == [] then Running(stack)
    else
      match Step(stack, tokens[0])
      case Panicked(s) => Panicked(s)
      case Running(s) => Feed(s, tokens[1..])
  }

  /** How many of the tokens are operators. */
  function Operators(tokens: seq<string>): nat {
    if tokens == [] then 0
    else (if IsOperator(tokens[0]) then 1 else 0) + Operators(tokens[1..])
  }

  /** Every operand token pushes one entry and every operator token takes one
      away, so a run that does not panic ends with the stack that much larger
      or smaller. */
  lemma {:induction false} FeedLength(stack: seq<Expression>, tokens: seq<string>)
    ensures Feed(stack, tokens).Running? ==>
              |Feed(stack, tokens).stack| + 2 * Operators(tokens) == |stack| + |tokens|
    decreases |tokens|
  {
    if tokens != [] {
      match Step(stack, tokens[0])
      case Panicked(_) =>
      case Running(s) => FeedLength(s, tokens[1..]);
    }
  }

  /** What Context.Parse returns once the tokens are consumed: the top of the
      stack, or a panic when the stack is empty. */
  function Top(m: Machine): Result<Expression> {
    if m.Running? && |m.stack| > 0 then Ok(m.stack[|m.stack| - 1])
    else Err(IndexOutOfRange)
  }

  /** Parse returns the entry pushed last, and never a result after a panic. */
  lemma TopIsLastPushed(stack: seq<Expression>, e: Expression)
    ensures Top(Running(stack + [e])) == Ok(e)
    ensures Top(Running([])) == Err(IndexOutOfRange)
    ensures Top(Panicked(stack)).Err?
  {
  }

  /** An operator token on a stack of at least two entries replaces the top two
      by one Operation whose left operand was below the right one: the stack
      shrinks by exactly one and nothing under the two changes. */
  lemma StepOperator(stack: seq<Expression>, token: string)
    requires IsOperator(token) && |stack| >= 2
    ensures Step(stack, token).Running?
    ensures |Step(stack, token).stack| == |stack| - 1
    ensures Step(stack, token).stack[..|stack| - 2] == stack[..|stack| - 2]
    ensures Step(stack, token).stack[|stack| - 2] == Operation(stack[|stack| - 2], stack[|stack| - 1], token)
  {
  }

  /** An operator token on fewer than two entries panics. */
  lemma StepUnderflow(stack: seq<Expression>, token: string)
    requires IsOperator(token) && |stack| < 2
    ensures Step(stack, token) == Panicked([])
  {
  }

  /** Any other token pushes exactly one Number, 0 for a non-numeric token. */
  lemma StepOperand(stack: seq<Expression>, token: string)
    requires !IsOperator(token)
    ensures Step(stack, token).Running?
    ensures Step(stack, token).stack == stack + [Number(TokenValue(token))]
    ensures Decimal.Atoi(token).None? ==> Step(stack, token).stack == stack + [Number(0)]
  {
  }

  /** Feeding two token lists one after the other is feeding their
      concatenation. */
  lemma {:induction false} FeedAppend(stack: seq<Expression>, a: seq<string>, b: seq<string>)
    ensures Feed(stack, a + b) == match Feed(stack, a)
                                  case Running(s) => Feed(s, b)
                                  case Panicked(s) => Panicked(s)
    decreases |a|
  {
    if a == [] {
      assert a + b == b;
    } else {
      assert (a + b)[0] == a[0];
      assert (a + b)[1..] == a[1..] + b;
      match Step(stack, a[0])
      case Panicked(s) =>
      case Running(s) => FeedAppend(s, a[1..], b);
    }
  }

  /** Every operator of the expression is one the parser recognises. */
  predicate WellFormed(e: Expression) {
    match e
    case Number(_) => true
    case Operation(l, r, op) => IsOperator(op) && WellFormed(l) && WellFormed(r)
  }

  /** The reverse-Polish tokens of an expression, numbers written by Itoa. */
  function ToRpn(e: Expression): seq<string> {
    match e
    case Number(v) => [Decimal.Itoa(v)]
    case Operation(l, r, op) => ToRpn(l) + ToRpn(r) + [op]
  }

  /** Parsing the reverse-Polish tokens of a well-formed expression pushes
      exactly that expression, and leaves what was on the stack below it. */
  lemma {:induction false} FeedRpn(stack: seq<Expression>, e: Expression)
    requires WellFormed(e)
    ensures Feed(stack, ToRpn(e)) == Running(stack + [e])
    decreases e
  {
    match e
    case Number(v) =>
      Decimal.AtoiItoa(v);
      Decimal.ItoaShape(v);
      var t := Decimal.Itoa(v);
      assert !IsOperator(t) by {
        if |t| == 1 { assert Decimal.IsDigit(t[0]); }
      }
      assert Step(stack, t) == Running(stack + [e]);
      assert Feed(stack, [t]) == Feed(stack + [e], []);
    case Operation(l, r, op) =>
      FeedRpn(stack, l);
      FeedAppend(stack, ToRpn(l), ToRpn(r));
      FeedRpn(stack + [l], r);
      FeedAppend(stack, ToRpn(l) + ToRpn(r), [op]);
      var s := stack + [l] + [r];
      assert s[..|s| - 2] == stack;
      assert Feed(s, [op]) == Feed(stack + [e], []);
  }

  /** Parsing is the inverse of writing an expression in reverse-Polish form. */
  lemma ParseRpnRoundTrip(e: Expression)
    requires WellFormed(e)
    ensures Top(Feed([], ToRpn(e))) == Ok(e)
  {
    FeedRpn([], e);
  }

  /** Context holds the parse stack; it is kept between calls to Parse. */
  class Context {
    var stack: seq<Expression>

    constructor ()
      ensures stack == []
    {
      stack := [];
    }

    /** Pushes and pops the stack token by token and returns its top. */
    method Parse(tokens: seq<string>) returns (r: Result<Expression>)
      modifies this
      ensures stack == Feed(old(stack), tokens).stack
      ensures r == Top(Feed(old(stack), tokens))
    {
      var i := 0;
      while i < |tokens|
        invariant 0 <= i <= |tokens|
        invariant Feed(old(stack), tokens) == Feed(stack, tokens[i..])
      {
        var token := tokens[i];
        ghost var before := stack;
        assert tokens[i..][0] == token && tokens[i..][1..] == tokens[i + 1..];
        if token == "+" || token == "-" || token == "*" || token == "/" {
          if |stack| == 0 {
            r := Err(IndexOutOfRange);
            return;
          }
          var right := stack[|stack| - 1];
          stack := stack[..|stack| - 1];
          if |stack| == 0 {
            r := Err(IndexOutOfRange);
            return;
          }
          var left := stack[|stack| - 1];
          stack := stack[..|stack| - 1];
          stack := stack + [Operation(left, right, token)];
          assert before[..|before| - 2] == stack[..|stack| - 1];
        } else {
          var num := TokenValue(token);
          stack := stack + [Number(num)];
        }
        assert Step(before, token) == Running(stack);
        i := i + 1;
      }
      if |stack| == 0 {
        r := Err(IndexOutOfRange);
      } else {
        r := Ok(stack[|stack| - 1]);
      }
    }
  }

  /** The expression tree of the demo's program ((3 + 4) * 2) / 7. */
  function SampleExpression(): Expression {
    Operation(Operation(Operation(Number(3), Number(4), "+"), Number(2), "*"), Number(7), "/")
  }

  lemma SmallItoa()
    ensures Decimal.Itoa(3) == "3" && Decimal.Itoa(4) == "4"
    ensures Decimal.Itoa(2) == "2" && Decimal.Itoa(7) == "7"
  {
  }

  /** The demo's tokens "3 4 + 2 * 7 /" are the reverse-Polish form of the
      sample expression. */
  lemma SampleTokens()
    ensures ToRpn(SampleExpression()) == ["3", "4", "+", "2", "*", "7", "/"]
  {
    SmallItoa();
  }

  /** The sample expression interprets to 2. */
  lemma SampleValue()
    ensures Interpret(SampleExpression()) == Ok(2)
  {
    assert GoDiv(14, 7) == 2;
  }

  /** Parsing the demo's tokens from an empty stack yields the sample
      expression. */
  lemma SampleParse()
    ensures Top(Feed([], ["3", "4", "+", "2", "*", "7", "/"])) == Ok(SampleExpression())
  {
    SampleTokens();
    ParseRpnRoundTrip(SampleExpression());
  }

  /** The demo: parsing "3 4 + 2 * 7 /" with a fresh Context gives an
      expression that interprets to 2. */
  method Demo() returns (result: Result<int>)
    ensures result == Ok(2)
  {
    var context := new Context();
    var e := context.Parse(["3", "4", "+", "2", "*", "7", "/"]);
    SampleParse();
    SampleValue();
    result := Interpret(e.value);
  }
}
