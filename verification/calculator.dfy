/** `calculate`: convert, then evaluate; and the end-to-end guarantee for
    fully parenthesised expressions. */
module Calculator {
  import opened Tokens
  import opened Converter
  import opened Evaluator
  import opened ConverterProps
  import ConverterExamples

  /** `calculate`: an error of the converter is returned as it is and nothing
      is evaluated; otherwise the postfix list is evaluated. */
  function Calculate<V>(ar: Arith<V>, s: string): (r: Result<V>)
    ensures r.Err? && r.error.UnknownChar? <==> !AllAllowed(s)
  {
    match Generate(s)
    case Err(e) => Err(e)
    case Ok(rpn) => Evaluate(ar, rpn)
  }

  /** A foreign character is reported by `calculate` exactly as the converter
      reports it: the first one, with its position. */
  lemma CalculateRejectsFirstBad<V>(ar: Arith<V>, s: string, i: nat)
    requires i < |s| && !Allowed(s[i])
    requires forall j :: 0 <= j < i ==> Allowed(s[j])
    ensures Calculate(ar, s) == Err(UnknownChar(i, s[i]))
  {
    GenerateRejectsFirstBad(s, i);
  }

  // ---------------------------------------------------------------------
  // Fully parenthesised expressions
  // ---------------------------------------------------------------------

  /** Expression trees: a number, or an operator applied to two
      subexpressions. */
  datatype Expr = Lit(n: nat) | Bin(op: char, l: Expr, r: Expr)

  predicate WellFormed(e: Expr) {
    match e
    case Lit(_) => true
    case Bin(op, l, r) => IsBinaryOp(op) && WellFormed(l) && WellFormed(r)
  }

  /** The expression written out with a pair of parentheses around every
      operation and a space on each side of its operator. */
  function Print(e: Expr): string
    requires WellFormed(e)
  {
    match e
    case Lit(n) => Digits(n)
    case Bin(op, l, r) => "(" + Print(l) + [' ', op, ' '] + Print(r) + ")"
  }

  /** The postfix form: both operands, then the operator. */
  function Postfix(e: Expr): seq<Token> {
    match e
    case Lit(n) => [Num(n)]
    case Bin(op, l, r) => Postfix(l) + Postfix(r) + [Op(op)]
  }

  /** The value of the expression: the left subexpression is the left
      operand. */
  function Eval<V>(ar: Arith<V>, e: Expr): V
    requires WellFormed(e)
  {
    match e
    case Lit(n) => ar.lit(n)
    case Bin(op, l, r) =>
      var a, b := Eval(ar, l), Eval(ar, r);
      if op == '+' then ar.add(a, b)
      else if op == '-' then ar.sub(a, b)
      else if op == '*' then ar.mul(a, b)
      else if op == '/' then ar.div(a, b)
      else ar.pow(a, b)
  }

  /** Scanning a printed expression from an idle state leaves the state
      whose flush has the expression's postfix form appended to the output
      and the operator stack as it was. */
  lemma {:induction false} ScanPrint(e: Expr, pos: nat, st: ScanState)
    requires WellFormed(e) && Idle(st)
    ensures Scan(Print(e), pos, st).Ok?
    ensures Flushed(Scan(Print(e), pos, st).value) == st.(output := st.output + Postfix(e))
    decreases e
  {
    match e
    case Lit(n) =>
      ScanDigits(n, pos, st);
    case Bin(op, l, r) =>
      var s1 := st.(ops := st.ops + ['(']);
      var s2 := st.(output := st.output + Postfix(l), ops := st.ops + ['('] + [op]);
      ScanPrint(l, pos + 1, s1);
      ScanPrint(r, pos + |Print(l)| + 4, s2);
      ScanBin(op, Print(l), Print(r), Postfix(l), Postfix(r), pos, st);
  }

  /** One operation `(l op r)`, given how its operands scan. */
  lemma ScanBin(op: char, pl: string, pr: string, tl: seq<Token>, tr: seq<Token>, pos: nat, st: ScanState)
    requires IsBinaryOp(op) && Idle(st)
    requires var s1 := st.(ops := st.ops + ['(']);
      Scan(pl, pos + 1, s1).Ok? && Flushed(Scan(pl, pos + 1, s1).value) == s1.(output := st.output + tl)
    requires var s2 := st.(output := st.output + tl, ops := st.ops + ['('] + [op]);
      Scan(pr, pos + |pl| + 4, s2).Ok? && Flushed(Scan(pr, pos + |pl| + 4, s2).value) == s2.(output := s2.output + tr)
    ensures Scan("(" + pl + [' ', op, ' '] + pr + ")", pos, st) == Ok(st.(output := st.output + tl + tr + [Op(op)]))
  {
    var s2 := st.(output := st.output + tl, ops := st.ops + ['('] + [op]);
    var x := "(" + pl + [' ', op, ' '];
    ScanLeft(op, pl, tl, pos, st);
    var r2 := Scan(pr, pos + |x|, s2).value;
    var f2 := s2.(output := s2.output + tr);
    ScanThen(x, pr, pos, st, s2);
    ScanThen(x + pr, ")", pos, st, r2);
    ScanClose(op, pos + |x| + |pr|, r2, f2);
    assert f2.ops[..|f2.ops| - 2] == st.ops;
  }

  /** The converter turns a printed expression into its postfix form. */
  lemma GeneratePrint(e: Expr)
    requires WellFormed(e)
    ensures Generate(Print(e)) == Ok(Postfix(e))
  {
    ScanPrint(e, 0, Init);
    assert [] + Postfix(e) == Postfix(e);
  }

  /** Evaluating a postfix form pushes the expression's value and leaves the
      stack beneath it alone. */
  lemma {:induction false} RunPostfix<V>(ar: Arith<V>, stack: seq<V>, e: Expr)
    requires WellFormed(e)
    ensures Run(ar, stack, Postfix(e)) == Ok(stack + [Eval(ar, e)])
    decreases e
  {
    match e
    case Lit(n) =>
      assert [Num(n)][1..] == [];
    case Bin(op, l, r) =>
      var pl, pr := Postfix(l), Postfix(r);
      var a, b := Eval(ar, l), Eval(ar, r);
      RunAppend(ar, stack, pl + pr, [Op(op)]);
      RunAppend(ar, stack, pl, pr);
      RunPostfix(ar, stack, l);
      RunPostfix(ar, stack + [a], r);
      var st := stack + [a] + [b];
      OperatorReplacesTopTwo(ar, st, op);
      assert st[..|st| - 2] == stack;
  }

  /** End to end: `calculate` of a printed expression is its value. */
  lemma CalculatePrint<V>(ar: Arith<V>, e: Expr)
    requires WellFormed(e)
    ensures Calculate(ar, Print(e)) == Ok(Eval(ar, e))
  {
    GeneratePrint(e);
    RunPostfix(ar, [], e);
  }

  /** The postfix form of a well-formed expression never runs short of
      operands and ends with exactly one value. */
  lemma PostfixIsBalanced(e: Expr)
    requires WellFormed(e)
    ensures Clean(0, Postfix(e)) && Net(Postfix(e)) == 1
  {
    var ar := Arith(n => n as int, (a, b) => a, (a, b) => a, (a, b) => a, (a, b) => a, (a, b) => a);
    RunPostfix(ar, [], e);
    RunOkIff(ar, [], Postfix(e));
  }

  // ---------------------------------------------------------------------
  // Worked examples
  // ---------------------------------------------------------------------

  /** The empty expression leaves the value stack empty. */
  lemma EmptyInputHasNoValue<V>(ar: Arith<V>)
    ensures Calculate(ar, "") == Err(IndexOutOfRange)
  {
  }

  /** The expression of the source's `calculate` test evaluates to
      `(1 + 2)^3 * 4 - 5 / (6 + 7) * 8^9`, whatever the arithmetic. */
  lemma TestExpressionValue<V>(ar: Arith<V>, s: string)
    requires s == "(1 + 2)^3 * 4 - 5/(6 + 7) * 8^9"
    ensures Calculate(ar, s) == Ok(ar.sub(ar.mul(ar.pow(ar.add(ar.lit(1), ar.lit(2)), ar.lit(3)), ar.lit(4)), ar.mul(ar.div(ar.lit(5), ar.add(ar.lit(6), ar.lit(7))), ar.pow(ar.lit(8), ar.lit(9)))))
  {
    ConverterExamples.TestExpressionConversion(s);
    TestExpressionValueRun(ar, Generate(s).value);
  }

  lemma TestExpressionValueRun<V>(ar: Arith<V>, rpn: seq<Token>)
    requires rpn == [Num(1), Num(2), Op('+'), Num(3), Op('^'), Num(4), Op('*'), Num(5), Num(6), Num(7), Op('+'), Op('/'), Num(8), Num(9), Op('^'), Op('*'), Op('-')]
    ensures Run(ar, [], rpn) == Ok([ar.sub(ar.mul(ar.pow(ar.add(ar.lit(1), ar.lit(2)), ar.lit(3)), ar.lit(4)), ar.mul(ar.div(ar.lit(5), ar.add(ar.lit(6), ar.lit(7))), ar.pow(ar.lit(8), ar.lit(9))))])
  {
    var w1 := ar.add(ar.lit(1), ar.lit(2));
    var w2 := ar.pow(w1, ar.lit(3));
    var w3 := ar.mul(w2, ar.lit(4));
    var w4 := ar.add(ar.lit(6), ar.lit(7));
    var w5 := ar.div(ar.lit(5), w4);
    var w6 := ar.pow(ar.lit(8), ar.lit(9));
    var w7 := ar.mul(w5, w6);
    var w8 := ar.sub(w3, w7);
    var t17: seq<Token> := [];
    var t15 := [Op('*'), Op('-')] + t17;
    var t12 := [Num(8), Num(9), Op('^')] + t15;
    var t9 := [Num(7), Op('+'), Op('/')] + t12;
    var t6 := [Op('*'), Num(5), Num(6)] + t9;
    var t3 := [Num(3), Op('^'), Num(4)] + t6;
    var t0 := [Num(1), Num(2), Op('+')] + t3;
    assert rpn == t0;
    TestExpressionValueRun1(ar, t3);
    TestExpressionValueRun2(ar, w1, t6);
    TestExpressionValueRun3(ar, w2, ar.lit(4), t9);
    TestExpressionValueRun4(ar, w3, ar.lit(5), ar.lit(6), t12);
    TestExpressionValueRun5(ar, w3, w5, t15);
    TestExpressionValueRun6(ar, w3, w5, w6, t17);
    assert Run(ar, [w8], t17) == Ok([w8]);
  }

  lemma TestExpressionValueRun1<V>(ar: Arith<V>, t: seq<Token>)
    ensures Run(ar, [], [Num(1), Num(2), Op('+')] + t) == Run(ar, [ar.add(ar.lit(1), ar.lit(2))], t)
  {
    var u3 := t;
    var u2 := [Op('+')] + u3;
    var u1 := [Num(2)] + u2;
    var u0 := [Num(1)] + u1;
    assert [Num(1), Num(2), Op('+')] + t == u0;
    assert Run(ar, [], u0) == Run(ar, [ar.lit(1)], u1) by {
      RunCons(ar, [], Num(1), u1);
      assert [] + [ar.lit(1)] == [ar.lit(1)];
    }
    assert Run(ar, [ar.lit(1)], u1) == Run(ar, [ar.lit(1), ar.lit(2)], u2) by {
      RunCons(ar, [ar.lit(1)], Num(2), u2);
      assert [ar.lit(1)] + [ar.lit(2)] == [ar.lit(1), ar.lit(2)];
    }
    assert Run(ar, [ar.lit(1), ar.lit(2)], u2) == Run(ar, [ar.add(ar.lit(1), ar.lit(2))], u3) by {
      RunCons(ar, [ar.lit(1), ar.lit(2)], Op('+'), u3);
      assert [ar.lit(1), ar.lit(2)][..0] + [ar.add(ar.lit(1), ar.lit(2))] == [ar.add(ar.lit(1), ar.lit(2))];
    }
  }

  lemma TestExpressionValueRun2<V>(ar: Arith<V>, x0: V, t: seq<Token>)
    ensures Run(ar, [x0], [Num(3), Op('^'), Num(4)] + t) == Run(ar, [ar.pow(x0, ar.lit(3)), ar.lit(4)], t)
  {
    var u6 := t;
    var u5 := [Num(4)] + u6;
    var u4 := [Op('^')] + u5;
    var u3 := [Num(3)] + u4;
    assert [Num(3), Op('^'), Num(4)] + t == u3;
    assert Run(ar, [x0], u3) == Run(ar, [x0, ar.lit(3)], u4) by {
      RunCons(ar, [x0], Num(3), u4);
      assert [x0] + [ar.lit(3)] == [x0, ar.lit(3)];
    }
    assert Run(ar, [x0, ar.lit(3)], u4) == Run(ar, [ar.pow(x0, ar.lit(3))], u5) by {
      RunCons(ar, [x0, ar.lit(3)], Op('^'), u5);
      assert [x0, ar.lit(3)][..0] + [ar.pow(x0, ar.lit(3))] == [ar.pow(x0, ar.lit(3))];
    }
    assert Run(ar, [ar.pow(x0, ar.lit(3))], u5) == Run(ar, [ar.pow(x0, ar.lit(3)), ar.lit(4)], u6) by {
      RunCons(ar, [ar.pow(x0, ar.lit(3))], Num(4), u6);
      assert [ar.pow(x0, ar.lit(3))] + [ar.lit(4)] == [ar.pow(x0, ar.lit(3)), ar.lit(4)];
    }
  }

  lemma TestExpressionValueRun3<V>(ar: Arith<V>, x0: V, x1: V, t: seq<Token>)
    ensures Run(ar, [x0, x1], [Op('*'), Num(5), Num(6)] + t) == Run(ar, [ar.mul(x0, x1), ar.lit(5), ar.lit(6)], t)
  {
    var u9 := t;
    var u8 := [Num(6)] + u9;
    var u7 := [Num(5)] + u8;
    var u6 := [Op('*')] + u7;
    assert [Op('*'), Num(5), Num(6)] + t == u6;
    assert Run(ar, [x0, x1], u6) == Run(ar, [ar.mul(x0, x1)], u7) by {
      RunCons(ar, [x0, x1], Op('*'), u7);
      assert [x0, x1][..0] + [ar.mul(x0, x1)] == [ar.mul(x0, x1)];
    }
    assert Run(ar, [ar.mul(x0, x1)], u7) == Run(ar, [ar.mul(x0, x1), ar.lit(5)], u8) by {
      RunCons(ar, [ar.mul(x0, x1)], Num(5), u8);
      assert [ar.mul(x0, x1)] + [ar.lit(5)] == [ar.mul(x0, x1), ar.lit(5)];
    }
    assert Run(ar, [ar.mul(x0, x1), ar.lit(5)], u8) == Run(ar, [ar.mul(x0, x1), ar.lit(5), ar.lit(6)], u9) by {
      RunCons(ar, [ar.mul(x0, x1), ar.lit(5)], Num(6), u9);
      assert [ar.mul(x0, x1), ar.lit(5)] + [ar.lit(6)] == [ar.mul(x0, x1), ar.lit(5), ar.lit(6)];
    }
  }

  lemma TestExpressionValueRun4<V>(ar: Arith<V>, x0: V, x1: V, x2: V, t: seq<Token>)
    ensures Run(ar, [x0, x1, x2], [Num(7), Op('+'), Op('/')] + t) == Run(ar, [x0, ar.div(x1, ar.add(x2, ar.lit(7)))], t)
  {
    var u12 := t;
    var u11 := [Op('/')] + u12;
    var u10 := [Op('+')] + u11;
    var u9 := [Num(7)] + u10;
    assert [Num(7), Op('+'), Op('/')] + t == u9;
    assert Run(ar, [x0, x1, x2], u9) == Run(ar, [x0, x1, x2, ar.lit(7)], u10) by {
      RunCons(ar, [x0, x1, x2], Num(7), u10);
      assert [x0, x1, x2] + [ar.lit(7)] == [x0, x1, x2, ar.lit(7)];
    }
    assert Run(ar, [x0, x1, x2, ar.lit(7)], u10) == Run(ar, [x0, x1, ar.add(x2, ar.lit(7))], u11) by {
      RunCons(ar, [x0, x1, x2, ar.lit(7)], Op('+'), u11);
      assert [x0, x1, x2, ar.lit(7)][..2] + [ar.add(x2, ar.lit(7))] == [x0, x1, ar.add(x2, ar.lit(7))];
    }
    assert Run(ar, [x0, x1, ar.add(x2, ar.lit(7))], u11) == Run(ar, [x0, ar.div(x1, ar.add(x2, ar.lit(7)))], u12) by {
      RunCons(ar, [x0, x1, ar.add(x2, ar.lit(7))], Op('/'), u12);
      assert [x0, x1, ar.add(x2, ar.lit(7))][..1] + [ar.div(x1, ar.add(x2, ar.lit(7)))] == [x0, ar.div(x1, ar.add(x2, ar.lit(7)))];
    }
  }

  lemma TestExpressionValueRun5<V>(ar: Arith<V>, x0: V, x1: V, t: seq<Token>)
    ensures Run(ar, [x0, x1], [Num(8), Num(9), Op('^')] + t) == Run(ar, [x0, x1, ar.pow(ar.lit(8), ar.lit(9))], t)
  {
    var u15 := t;
    var u14 := [Op('^')] + u15;
    var u13 := [Num(9)] + u14;
    var u12 := [Num(8)] + u13;
    assert [Num(8), Num(9), Op('^')] + t == u12;
    assert Run(ar, [x0, x1], u12) == Run(ar, [x0, x1, ar.lit(8)], u13) by {
      RunCons(ar, [x0, x1], Num(8), u13);
      assert [x0, x1] + [ar.lit(8)] == [x0, x1, ar.lit(8)];
    }
    assert Run(ar, [x0, x1, ar.lit(8)], u13) == Run(ar, [x0, x1, ar.lit(8), ar.lit(9)], u14) by {
      RunCons(ar, [x0, x1, ar.lit(8)], Num(9), u14);
      assert [x0, x1, ar.lit(8)] + [ar.lit(9)] == [x0, x1, ar.lit(8), ar.lit(9)];
    }
    assert Run(ar, [x0, x1, ar.lit(8), ar.lit(9)], u14) == Run(ar, [x0, x1, ar.pow(ar.lit(8), ar.lit(9))], u15) by {
      RunCons(ar, [x0, x1, ar.lit(8), ar.lit(9)], Op('^'), u15);
      assert [x0, x1, ar.lit(8), ar.lit(9)][..2] + [ar.pow(ar.lit(8), ar.lit(9))] == [x0, x1, ar.pow(ar.lit(8), ar.lit(9))];
    }
  }

  lemma TestExpressionValueRun6<V>(ar: Arith<V>, x0: V, x1: V, x2: V, t: seq<Token>)
    ensures Run(ar, [x0, x1, x2], [Op('*'), Op('-')] + t) == Run(ar, [ar.sub(x0, ar.mul(x1, x2))], t)
  {
    var u17 := t;
    var u16 := [Op('-')] + u17;
    var u15 := [Op('*')] + u16;
    assert [Op('*'), Op('-')] + t == u15;
    assert Run(ar, [x0, x1, x2], u15) == Run(ar, [x0, ar.mul(x1, x2)], u16) by {
      RunCons(ar, [x0, x1, x2], Op('*'), u16);
      assert [x0, x1, x2][..1] + [ar.mul(x1, x2)] == [x0, ar.mul(x1, x2)];
    }
    assert Run(ar, [x0, ar.mul(x1, x2)], u16) == Run(ar, [ar.sub(x0, ar.mul(x1, x2))], u17) by {
      RunCons(ar, [x0, ar.mul(x1, x2)], Op('-'), u17);
      assert [x0, ar.mul(x1, x2)][..0] + [ar.sub(x0, ar.mul(x1, x2))] == [ar.sub(x0, ar.mul(x1, x2))];
    }
  }

  /** `()` leaves the value stack empty: the source indexes past its
      end. */
  lemma EmptyParensHaveNoValue<V>(ar: Arith<V>, s: string)
    requires s == "()"
    ensures Calculate(ar, s) == Err(IndexOutOfRange)
  {
    ConverterExamples.EmptyParensVanish(s);
    var u0: seq<Token> := [];
    assert Run(ar, [], u0) == Ok([]);
    assert [] == u0;
  }

  /** Two numbers and no operator leave two values: invalid syntax. */
  lemma LeftoverValues<V>(ar: Arith<V>, s: string)
    requires s == "1 2"
    ensures Calculate(ar, s) == Err(InvalidSyntax)
  {
    ConverterExamples.SpaceSplitsNumbers(s);
    var u2: seq<Token> := [];
    var u1 := [Num(2)] + u2;
    var u0 := [Num(1)] + u1;
    assert Run(ar, [], u0) == Run(ar, [ar.lit(1)], u1) by {
      RunCons(ar, [], Num(1), u1);
      assert [] + [ar.lit(1)] == [ar.lit(1)];
    }
    assert Run(ar, [ar.lit(1)], u1) == Run(ar, [ar.lit(1), ar.lit(2)], u2) by {
      RunCons(ar, [ar.lit(1)], Num(2), u2);
      assert [ar.lit(1)] + [ar.lit(2)] == [ar.lit(1), ar.lit(2)];
    }
    assert Run(ar, [ar.lit(1), ar.lit(2)], u2) == Ok([ar.lit(1), ar.lit(2)]);
    assert [Num(1), Num(2)] == u0;
  }

  /** An operator with one value beneath it: invalid syntax. */
  lemma MissingOperand<V>(ar: Arith<V>, s: string)
    requires s == "1 +"
    ensures Calculate(ar, s) == Err(InvalidSyntax)
  {
    ConverterExamples.TrailingOperator(s);
    var u2: seq<Token> := [];
    var u1 := [Op('+')] + u2;
    var u0 := [Num(1)] + u1;
    assert Run(ar, [], u0) == Run(ar, [ar.lit(1)], u1) by {
      RunCons(ar, [], Num(1), u1);
      assert [] + [ar.lit(1)] == [ar.lit(1)];
    }
    assert Run(ar, [ar.lit(1)], u1) == Err(InvalidSyntax) by {
      RunCons(ar, [ar.lit(1)], Op('+'), u2);
    }
    assert [Num(1), Op('+')] == u0;
  }

  /** A flushed `(` reaches the evaluator with two values beneath it and
      is an unknown operator there. */
  lemma UnmatchedParenIsUnknownOperator<V>(ar: Arith<V>, s: string)
    requires s == "(1 2"
    ensures Calculate(ar, s) == Err(UnknownOperator('('))
  {
    ConverterExamples.UnmatchedParenIsEmitted(s);
    var u3: seq<Token> := [];
    var u2 := [Op('(')] + u3;
    var u1 := [Num(2)] + u2;
    var u0 := [Num(1)] + u1;
    assert Run(ar, [], u0) == Run(ar, [ar.lit(1)], u1) by {
      RunCons(ar, [], Num(1), u1);
      assert [] + [ar.lit(1)] == [ar.lit(1)];
    }
    assert Run(ar, [ar.lit(1)], u1) == Run(ar, [ar.lit(1), ar.lit(2)], u2) by {
      RunCons(ar, [ar.lit(1)], Num(2), u2);
      assert [ar.lit(1)] + [ar.lit(2)] == [ar.lit(1), ar.lit(2)];
    }
    assert Run(ar, [ar.lit(1), ar.lit(2)], u2) == Err(UnknownOperator('(')) by {
      RunCons(ar, [ar.lit(1), ar.lit(2)], Op('('), u3);
    }
    assert [Num(1), Num(2), Op('(')] == u0;
  }
}
