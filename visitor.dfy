/** The visitor demo: integer expression trees of literals and additions,
    walked by double dispatch. Both visitors render the tree as a fully
    parenthesised string; neither computes a sum. */
module Visitor {
  import Decimal

  datatype Expression = Literal(value: int) | Addition(left: Expression, right: Expression)

  /** The two concrete visitors. */
  datatype Visitor = Evaluator | Renderer {

    /** strconv.Itoa of the literal's value. */
    function VisitLiteral(l: Expression): string
      requires l.Literal?
    {
      match this
      case Evaluator => Decimal.Itoa(l.value)
      case Renderer => Decimal.Itoa(l.value)
    }

    /** fmt.Sprintf("(%s + %s)", left, right) of the operands' renderings. */
    function VisitAddition(a: Expression): string
      requires a.Addition?
      decreases a, 0
    {
      match this
      case Evaluator => "(" + Accept(a.left, this) + " + " + Accept(a.right, this) + ")"
      case Renderer => "(" + Accept(a.left, this) + " + " + Accept(a.right, this) + ")"
    }
  }

  /** Expression.Accept: each node kind calls the visitor method for it. */
  function Accept(e: Expression, v: Visitor): string
    decreases e, 1
  {
    match e
    case Literal(_) => v.VisitLiteral(e)
    case Addition(_, _) => v.VisitAddition(e)
  }

  /** A literal renders as its decimal form, an addition as its operands in
      parentheses around " + ". */
  lemma AcceptCases(e: Expression, v: Visitor)
    ensures e.Literal? ==> Accept(e, v) == Decimal.Itoa(e.value)
    ensures e.Addition? ==> Accept(e, v) == "(" + Accept(e.left, v) + " + " + Accept(e.right, v) + ")"
  {
  }

  /** A literal's text reads back, through strconv.Atoi, as its value. */
  lemma VisitLiteralReadsBack(l: Expression, v: Visitor)
    requires l.Literal?
    ensures Decimal.Atoi(v.VisitLiteral(l)).Some? && Decimal.Atoi(v.VisitLiteral(l)).value == l.value
  {
    Decimal.AtoiItoa(l.value);
  }

  /** An addition's text is '(', the left operand's text, " + ", the right
      operand's text and ')', position by position. */
  lemma VisitAdditionLayout(a: Expression, v: Visitor)
    requires a.Addition?
    ensures var left := Accept(a.left, v); var right := Accept(a.right, v);
            var s := v.VisitAddition(a);
            |s| == |left| + |right| + 5 && s[0] == '(' && s[1..|left| + 1] == left &&
            s[|left| + 1..|left| + 4] == " + " && s[|left| + 4..|s| - 1] == right && s[|s| - 1] == ')'
  {
  }

  /** The "evaluator" produces exactly the renderer's string for every tree. */
  lemma {:induction false} EvaluatorIsRenderer(e: Expression)
    ensures Accept(e, Evaluator) == Accept(e, Renderer)
  {
    match e
    case Literal(_) =>
    case Addition(l, r) =>
      EvaluatorIsRenderer(l);
      EvaluatorIsRenderer(r);
  }

  function Count(c: char, s: string): nat {
    if s == [] then 0 else Count(c, s[..|s| - 1]) + (if s[|s| - 1] == c then 1 else 0)
  }

  lemma {:induction false} CountAppend(c: char, s: string, t: string)
    ensures Count(c, s + t) == Count(c, s) + Count(c, t)
    decreases |t|
  {
    if t == [] {
      assert s + t == s;
    } else {
      assert (s + t)[..|s + t| - 1] == s + t[..|t| - 1];
      CountAppend(c, s, t[..|t| - 1]);
    }
  }

  /** A character that is neither a digit nor '-' does not occur in Itoa's
      output. */
  lemma {:induction false} CountNotInDecimal(c: char, s: string)
    requires c != '-' && !Decimal.IsDigit(c)
    requires forall i :: 0 <= i < |s| ==> s[i] == '-' || Decimal.IsDigit(s[i])
    ensures Count(c, s) == 0
    decreases |s|
  {
    if s != [] {
      CountNotInDecimal(c, s[..|s| - 1]);
    }
  }

  function Additions(e: Expression): nat {
    match e
    case Literal(_) => 0
    case Addition(l, r) => Additions(l) + Additions(r) + 1
  }

  /** The rendering holds one "(" and one ")" per Addition node. */
  lemma {:induction false} ParenthesesPerAddition(e: Expression, v: Visitor)
    ensures Count('(', Accept(e, v)) == Additions(e)
    ensures Count(')', Accept(e, v)) == Additions(e)
  {
    match e
    case Literal(n) =>
      Decimal.ItoaShape(n);
      CountNotInDecimal('(', Decimal.Itoa(n));
      CountNotInDecimal(')', Decimal.Itoa(n));
    case Addition(l, r) =>
      ParenthesesPerAddition(l, v);
      ParenthesesPerAddition(r, v);
      var a, b := Accept(l, v), Accept(r, v);
      assert Accept(e, v) == "(" + a + " + " + b + ")";
      forall c | c == '(' || c == ')'
        ensures Count(c, Accept(e, v)) == Count(c, "(") + Count(c, a) + Count(c, " + ") + Count(c, b) + Count(c, ")")
      {
        CountAppend(c, "(", a);
        CountAppend(c, "(" + a, " + ");
        CountAppend(c, "(" + a + " + ", b);
        CountAppend(c, "(" + a + " + " + b, ")");
      }
      assert Count('(', "(") == 1 && Count('(', " + ") == 0 && Count('(', ")") == 0;
      assert Count(')', "(") == 0 && Count(')', " + ") == 0 && Count(')', ")") == 1;
  }

  /** The demo's tree 1 + (2 + 3) renders, by either visitor, as
      "(1 + (2 + 3))". */
  lemma SampleRendering()
    ensures Accept(Addition(Literal(1), Addition(Literal(2), Literal(3))), Renderer) == "(1 + (2 + 3))"
    ensures Accept(Addition(Literal(1), Addition(Literal(2), Literal(3))), Evaluator) == "(1 + (2 + 3))"
  {
    assert Decimal.Itoa(1) == "1" && Decimal.Itoa(2) == "2" && Decimal.Itoa(3) == "3";
  }
}
