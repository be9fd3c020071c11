/** Worked examples of the converter: the expressions of the source's doc
    comment and unit tests, and small inputs that show one rule each. */
module ConverterExamples {
  import opened Tokens
  import opened Converter
  import opened ConverterProps



  /** The example of the source's doc comment and unit test. */
  lemma DocExample(s: string)
    requires s == "(3 + 4) * 5 - 2 * (3 + 9)"
    ensures Generate(s) == Ok([Num(3), Num(4), Op('+'), Num(5), Op('*'), Num(2), Num(3), Num(9), Op('+'), Op('*'), Op('-')])
  {
    DocExampleScan(s);
    DocExampleFinish(ScanState([Num(3), Num(4), Op('+'), Num(5), Op('*'), Num(2), Num(3), Num(9), Op('+')], ['-', '*'], 0, false));
  }

  lemma DocExampleScan(s: string)
    requires s == "(3 + 4) * 5 - 2 * (3 + 9)"
    ensures Scan(s, 0, Init) == Ok(ScanState([Num(3), Num(4), Op('+'), Num(5), Op('*'), Num(2), Num(3), Num(9), Op('+')], ['-', '*'], 0, false))
  {
    var t25: string := [];
    var t18 := "(3 + 9)" + t25;
    var t10 := "5 - 2 * " + t18;
    var t0 := "(3 + 4) * " + t10;
    var o0: seq<Token> := [];
    var o10 := o0 + [Num(3), Num(4), Op('+')];
    var o18 := o10 + [Num(5), Op('*'), Num(2)];
    assert o10 == [Num(3), Num(4), Op('+')];
    assert o18 == [Num(3), Num(4), Op('+'), Num(5), Op('*'), Num(2)];
    assert o18 + [Num(3), Num(9), Op('+')] == [Num(3), Num(4), Op('+'), Num(5), Op('*'), Num(2), Num(3), Num(9), Op('+')];
    assert s == t0;
    DocExampleGroup1(o0, t10);
    DocExampleGroup2(o10, t18);
    DocExampleGroup3(o18, t25);
  }

  lemma DocExampleFinish(q: ScanState)
    requires q == ScanState([Num(3), Num(4), Op('+'), Num(5), Op('*'), Num(2), Num(3), Num(9), Op('+')], ['-', '*'], 0, false)
    ensures Finish(q) == [Num(3), Num(4), Op('+'), Num(5), Op('*'), Num(2), Num(3), Num(9), Op('+'), Op('*'), Op('-')]
  {
    assert Flushed(q) == ScanState([Num(3), Num(4), Op('+'), Num(5), Op('*'), Num(2), Num(3), Num(9), Op('+')], ['-', '*'], 0, false);
    assert ['-', '*'][..1] == ['-'];
    assert ['-'][..0] == [];
    assert Lifo(['-', '*']) == [Op('*'), Op('-')];
  }

  lemma DocExamplePart1(o: seq<Token>, t: string)
    ensures Scan("(3 " + t, 0, ScanState(o, [], 0, false)) == Scan(t, 3, ScanState(o + [Num(3)], ['('], 0, false))
  {
    var q0 := ScanState(o, [], 0, false);
    var q1 := ScanState(o, ['('], 0, false);
    var q2 := ScanState(o, ['('], 3, true);
    var q3 := ScanState(o + [Num(3)], ['('], 0, false);
    var u3 := t;
    var u2 := [' '] + u3;
    var u1 := ['3'] + u2;
    var u0 := ['('] + u1;
    assert "(3 " + t == u0;
    assert Scan(u0, 0, q0) == Scan(u1, 1, q1) by {
      assert Step(q0, 0, '(') == Ok(q1) by {
        assert Flushed(q0) == ScanState(o, [], 0, false);
        assert [] + ['('] == ['('];
      }
      ScanCons('(', u1, 0, q0);
    }
    assert Scan(u1, 1, q1) == Scan(u2, 2, q2) by {
      assert Step(q1, 1, '3') == Ok(q2);
      ScanCons('3', u2, 1, q1);
    }
    assert Scan(u2, 2, q2) == Scan(u3, 3, q3) by {
      assert Step(q2, 2, ' ') == Ok(q3) by {
        assert Flushed(q2) == q3;
      }
      ScanCons(' ', u3, 2, q2);
    }
  }

  lemma DocExamplePart2(o: seq<Token>, t: string)
    ensures Scan("+ 4" + t, 3, ScanState(o, ['('], 0, false)) == Scan(t, 6, ScanState(o, ['(', '+'], 4, true))
  {
    var q3 := ScanState(o, ['('], 0, false);
    var q4 := ScanState(o, ['(', '+'], 0, false);
    var q6 := ScanState(o, ['(', '+'], 4, true);
    var u6 := t;
    var u5 := ['4'] + u6;
    var u4 := [' '] + u5;
    var u3 := ['+'] + u4;
    assert "+ 4" + t == u3;
    assert Scan(u3, 3, q3) == Scan(u4, 4, q4) by {
      assert Step(q3, 3, '+') == Ok(q4) by {
        assert Flushed(q3) == ScanState(o, ['('], 0, false);
        PopStop(o, ['('], '+');
        assert ['('] + ['+'] == ['(', '+'];
        assert PushOperator(ScanState(o, ['('], 0, false), '+') == q4;
      }
      ScanCons('+', u4, 3, q3);
    }
    assert Scan(u4, 4, q4) == Scan(u5, 5, q4) by {
      assert Step(q4, 4, ' ') == Ok(q4) by {
        assert Flushed(q4) == q4;
      }
      ScanCons(' ', u5, 4, q4);
    }
    assert Scan(u5, 5, q4) == Scan(u6, 6, q6) by {
      assert Step(q4, 5, '4') == Ok(q6);
      ScanCons('4', u6, 5, q4);
    }
  }

  lemma DocExamplePart3(o: seq<Token>, t: string)
    ensures Scan(")" + t, 6, ScanState(o, ['(', '+'], 4, true)) == Scan(t, 7, ScanState(o + [Num(4), Op('+')], [], 0, false))
  {
    var q6 := ScanState(o, ['(', '+'], 4, true);
    var q7 := ScanState(o + [Num(4), Op('+')], [], 0, false);
    var u7 := t;
    var u6 := [')'] + u7;
    assert ")" + t == u6;
    assert Scan(u6, 6, q6) == Scan(u7, 7, q7) by {
      assert Step(q6, 6, ')') == Ok(q7) by {
        assert Flushed(q6) == ScanState(o + [Num(4)], ['(', '+'], 0, false);
        PopOne(o + [Num(4)], ['(', '+'], ')');
        assert ['(', '+'][..1] == ['('];
        PopStop(o + [Num(4), Op('+')], ['('], ')');
        assert ['('][..0] == [];
        assert CloseParen(ScanState(o + [Num(4)], ['(', '+'], 0, false)) == q7;
      }
      ScanCons(')', u7, 6, q6);
    }
  }

  lemma DocExamplePart4(o: seq<Token>, t: string)
    ensures Scan(" * " + t, 7, ScanState(o, [], 0, false)) == Scan(t, 10, ScanState(o, ['*'], 0, false))
  {
    var q7 := ScanState(o, [], 0, false);
    var q9 := ScanState(o, ['*'], 0, false);
    var u10 := t;
    var u9 := [' '] + u10;
    var u8 := ['*'] + u9;
    var u7 := [' '] + u8;
    assert " * " + t == u7;
    assert Scan(u7, 7, q7) == Scan(u8, 8, q7) by {
      assert Step(q7, 7, ' ') == Ok(q7) by {
        assert Flushed(q7) == q7;
      }
      ScanCons(' ', u8, 7, q7);
    }
    assert Scan(u8, 8, q7) == Scan(u9, 9, q9) by {
      assert Step(q7, 8, '*') == Ok(q9) by {
        assert Flushed(q7) == ScanState(o, [], 0, false);
        PopStop(o, [], '*');
        assert [] + ['*'] == ['*'];
        assert PushOperator(ScanState(o, [], 0, false), '*') == q9;
      }
      ScanCons('*', u9, 8, q7);
    }
    assert Scan(u9, 9, q9) == Scan(u10, 10, q9) by {
      assert Step(q9, 9, ' ') == Ok(q9) by {
        assert Flushed(q9) == q9;
      }
      ScanCons(' ', u10, 9, q9);
    }
  }

  lemma DocExamplePart5(o: seq<Token>, t: string)
    ensures Scan("5 " + t, 10, ScanState(o, ['*'], 0, false)) == Scan(t, 12, ScanState(o + [Num(5)], ['*'], 0, false))
  {
    var q10 := ScanState(o, ['*'], 0, false);
    var q11 := ScanState(o, ['*'], 5, true);
    var q12 := ScanState(o + [Num(5)], ['*'], 0, false);
    var u12 := t;
    var u11 := [' '] + u12;
    var u10 := ['5'] + u11;
    assert "5 " + t == u10;
    assert Scan(u10, 10, q10) == Scan(u11, 11, q11) by {
      assert Step(q10, 10, '5') == Ok(q11);
      ScanCons('5', u11, 10, q10);
    }
    assert Scan(u11, 11, q11) == Scan(u12, 12, q12) by {
      assert Step(q11, 11, ' ') == Ok(q12) by {
        assert Flushed(q11) == q12;
      }
      ScanCons(' ', u12, 11, q11);
    }
  }

  lemma DocExamplePart6(o: seq<Token>, t: string)
    ensures Scan("-" + t, 12, ScanState(o, ['*'], 0, false)) == Scan(t, 13, ScanState(o + [Op('*')], ['-'], 0, false))
  {
    var q12 := ScanState(o, ['*'], 0, false);
    var q13 := ScanState(o + [Op('*')], ['-'], 0, false);
    var u13 := t;
    var u12 := ['-'] + u13;
    assert "-" + t == u12;
    assert Scan(u12, 12, q12) == Scan(u13, 13, q13) by {
      assert Step(q12, 12, '-') == Ok(q13) by {
        assert Flushed(q12) == ScanState(o, ['*'], 0, false);
        PopOne(o, ['*'], '-');
        assert ['*'][..0] == [];
        PopStop(o + [Op('*')], [], '-');
        assert [] + ['-'] == ['-'];
        assert PushOperator(ScanState(o, ['*'], 0, false), '-') == q13;
      }
      ScanCons('-', u13, 12, q12);
    }
  }

  lemma DocExamplePart7(o: seq<Token>, t: string)
    ensures Scan(" 2 " + t, 13, ScanState(o, ['-'], 0, false)) == Scan(t, 16, ScanState(o + [Num(2)], ['-'], 0, false))
  {
    var q13 := ScanState(o, ['-'], 0, false);
    var q15 := ScanState(o, ['-'], 2, true);
    var q16 := ScanState(o + [Num(2)], ['-'], 0, false);
    var u16 := t;
    var u15 := [' '] + u16;
    var u14 := ['2'] + u15;
    var u13 := [' '] + u14;
    assert " 2 " + t == u13;
    assert Scan(u13, 13, q13) == Scan(u14, 14, q13) by {
      assert Step(q13, 13, ' ') == Ok(q13) by {
        assert Flushed(q13) == q13;
      }
      ScanCons(' ', u14, 13, q13);
    }
    assert Scan(u14, 14, q13) == Scan(u15, 15, q15) by {
      assert Step(q13, 14, '2') == Ok(q15);
      ScanCons('2', u15, 14, q13);
    }
    assert Scan(u15, 15, q15) == Scan(u16, 16, q16) by {
      assert Step(q15, 15, ' ') == Ok(q16) by {
        assert Flushed(q15) == q16;
      }
      ScanCons(' ', u16, 15, q15);
    }
  }

  lemma DocExamplePart8(o: seq<Token>, t: string)
    ensures Scan("* " + t, 16, ScanState(o, ['-'], 0, false)) == Scan(t, 18, ScanState(o, ['-', '*'], 0, false))
  {
    var q16 := ScanState(o, ['-'], 0, false);
    var q17 := ScanState(o, ['-', '*'], 0, false);
    var u18 := t;
    var u17 := [' '] + u18;
    var u16 := ['*'] + u17;
    assert "* " + t == u16;
    assert Scan(u16, 16, q16) == Scan(u17, 17, q17) by {
      assert Step(q16, 16, '*') == Ok(q17) by {
        assert Flushed(q16) == ScanState(o, ['-'], 0, false);
        PopStop(o, ['-'], '*');
        assert ['-'] + ['*'] == ['-', '*'];
        assert PushOperator(ScanState(o, ['-'], 0, false), '*') == q17;
      }
      ScanCons('*', u17, 16, q16);
    }
    assert Scan(u17, 17, q17) == Scan(u18, 18, q17) by {
      assert Step(q17, 17, ' ') == Ok(q17) by {
        assert Flushed(q17) == q17;
      }
      ScanCons(' ', u18, 17, q17);
    }
  }

  lemma DocExamplePart9(o: seq<Token>, t: string)
    ensures Scan("(3 " + t, 18, ScanState(o, ['-', '*'], 0, false)) == Scan(t, 21, ScanState(o + [Num(3)], ['-', '*', '('], 0, false))
  {
    var q18 := ScanState(o, ['-', '*'], 0, false);
    var q19 := ScanState(o, ['-', '*', '('], 0, false);
    var q20 := ScanState(o, ['-', '*', '('], 3, true);
    var q21 := ScanState(o + [Num(3)], ['-', '*', '('], 0, false);
    var u21 := t;
    var u20 := [' '] + u21;
    var u19 := ['3'] + u20;
    var u18 := ['('] + u19;
    assert "(3 " + t == u18;
    assert Scan(u18, 18, q18) == Scan(u19, 19, q19) by {
      assert Step(q18, 18, '(') == Ok(q19) by {
        assert Flushed(q18) == ScanState(o, ['-', '*'], 0, false);
        assert ['-', '*'] + ['('] == ['-', '*', '('];
      }
      ScanCons('(', u19, 18, q18);
    }
    assert Scan(u19, 19, q19) == Scan(u20, 20, q20) by {
      assert Step(q19, 19, '3') == Ok(q20);
      ScanCons('3', u20, 19, q19);
    }
    assert Scan(u20, 20, q20) == Scan(u21, 21, q21) by {
      assert Step(q20, 20, ' ') == Ok(q21) by {
        assert Flushed(q20) == q21;
      }
      ScanCons(' ', u21, 20, q20);
    }
  }

  lemma DocExamplePart10(o: seq<Token>, t: string)
    ensures Scan("+ 9" + t, 21, ScanState(o, ['-', '*', '('], 0, false)) == Scan(t, 24, ScanState(o, ['-', '*', '(', '+'], 9, true))
  {
    var q21 := ScanState(o, ['-', '*', '('], 0, false);
    var q22 := ScanState(o, ['-', '*', '(', '+'], 0, false);
    var q24 := ScanState(o, ['-', '*', '(', '+'], 9, true);
    var u24 := t;
    var u23 := ['9'] + u24;
    var u22 := [' '] + u23;
    var u21 := ['+'] + u22;
    assert "+ 9" + t == u21;
    assert Scan(u21, 21, q21) == Scan(u22, 22, q22) by {
      assert Step(q21, 21, '+') == Ok(q22) by {
        assert Flushed(q21) == ScanState(o, ['-', '*', '('], 0, false);
        PopStop(o, ['-', '*', '('], '+');
        assert ['-', '*', '('] + ['+'] == ['-', '*', '(', '+'];
        assert PushOperator(ScanState(o, ['-', '*', '('], 0, false), '+') == q22;
      }
      ScanCons('+', u22, 21, q21);
    }
    assert Scan(u22, 22, q22) == Scan(u23, 23, q22) by {
      assert Step(q22, 22, ' ') == Ok(q22) by {
        assert Flushed(q22) == q22;
      }
      ScanCons(' ', u23, 22, q22);
    }
    assert Scan(u23, 23, q22) == Scan(u24, 24, q24) by {
      assert Step(q22, 23, '9') == Ok(q24);
      ScanCons('9', u24, 23, q22);
    }
  }

  lemma DocExamplePart11(o: seq<Token>, t: string)
    ensures Scan(")" + t, 24, ScanState(o, ['-', '*', '(', '+'], 9, true)) == Scan(t, 25, ScanState(o + [Num(9), Op('+')], ['-', '*'], 0, false))
  {
    var q24 := ScanState(o, ['-', '*', '(', '+'], 9, true);
    var q25 := ScanState(o + [Num(9), Op('+')], ['-', '*'], 0, false);
    var u25 := t;
    var u24 := [')'] + u25;
    assert ")" + t == u24;
    assert Scan(u24, 24, q24) == Scan(u25, 25, q25) by {
      assert Step(q24, 24, ')') == Ok(q25) by {
        assert Flushed(q24) == ScanState(o + [Num(9)], ['-', '*', '(', '+'], 0, false);
        PopOne(o + [Num(9)], ['-', '*', '(', '+'], ')');
        assert ['-', '*', '(', '+'][..3] == ['-', '*', '('];
        PopStop(o + [Num(9), Op('+')], ['-', '*', '('], ')');
        assert ['-', '*', '('][..2] == ['-', '*'];
        assert CloseParen(ScanState(o + [Num(9)], ['-', '*', '(', '+'], 0, false)) == q25;
      }
      ScanCons(')', u25, 24, q24);
    }
  }

  lemma DocExampleGroup1(o: seq<Token>, t: string)
    ensures Scan("(3 + 4) * " + t, 0, ScanState(o, [], 0, false)) == Scan(t, 10, ScanState(o + [Num(3), Num(4), Op('+')], ['*'], 0, false))
  {
    var t10 := t;
    var t7 := " * " + t10;
    var t6 := ")" + t7;
    var t3 := "+ 4" + t6;
    var t0 := "(3 " + t3;
    var o3 := o + [Num(3)];
    var o7 := o3 + [Num(4), Op('+')];
    assert o7 == o + [Num(3), Num(4), Op('+')];
    assert "(3 + 4) * " + t == t0;
    DocExamplePart1(o, t3);
    DocExamplePart2(o3, t6);
    DocExamplePart3(o3, t7);
    DocExamplePart4(o7, t10);
  }

  lemma DocExampleGroup2(o: seq<Token>, t: string)
    ensures Scan("5 - 2 * " + t, 10, ScanState(o, ['*'], 0, false)) == Scan(t, 18, ScanState(o + [Num(5), Op('*'), Num(2)], ['-', '*'], 0, false))
  {
    var t18 := t;
    var t16 := "* " + t18;
    var t13 := " 2 " + t16;
    var t12 := "-" + t13;
    var t10 := "5 " + t12;
    var o12 := o + [Num(5)];
    var o13 := o12 + [Op('*')];
    var o16 := o13 + [Num(2)];
    assert o16 == o + [Num(5), Op('*'), Num(2)];
    assert "5 - 2 * " + t == t10;
    DocExamplePart5(o, t12);
    DocExamplePart6(o12, t13);
    DocExamplePart7(o13, t16);
    DocExamplePart8(o16, t18);
  }

  lemma DocExampleGroup3(o: seq<Token>, t: string)
    ensures Scan("(3 + 9)" + t, 18, ScanState(o, ['-', '*'], 0, false)) == Scan(t, 25, ScanState(o + [Num(3), Num(9), Op('+')], ['-', '*'], 0, false))
  {
    var t25 := t;
    var t24 := ")" + t25;
    var t21 := "+ 9" + t24;
    var t18 := "(3 " + t21;
    var o21 := o + [Num(3)];
    assert o21 + [Num(9), Op('+')] == o + [Num(3), Num(9), Op('+')];
    assert "(3 + 9)" + t == t18;
    DocExamplePart9(o, t21);
    DocExamplePart10(o21, t24);
    DocExamplePart11(o21, t25);
  }

  /** `^` associates to the left: `2^3^2` is read as `(2^3)^2`. */
  lemma PowerIsLeftAssociative(s: string)
    requires s == "2^3^2"
    ensures Generate(s) == Ok([Num(2), Num(3), Op('^'), Num(2), Op('^')])
  {
    TwoOperators(2, 3, 2, '^', '^');
    assert s == Digits(2) + ['^'] + Digits(3) + ['^'] + Digits(2);
  }

  /** An unmatched `(` is flushed into the output, and a space ends a
      number, so `1 2` gives two numbers. */
  lemma UnmatchedParenIsEmitted(s: string)
    requires s == "(1 2"
    ensures Generate(s) == Ok([Num(1), Num(2), Op('(')])
  {
    UnmatchedParenIsEmittedScan(s);
    UnmatchedParenIsEmittedFinish(ScanState([Num(1)], ['('], 2, true));
  }

  lemma UnmatchedParenIsEmittedScan(s: string)
    requires s == "(1 2"
    ensures Scan(s, 0, Init) == Ok(ScanState([Num(1)], ['('], 2, true))
  {
    var t4: string := [];
    var t3 := "2" + t4;
    var t0 := "(1 " + t3;
    var o0: seq<Token> := [];
    var o3 := o0 + [Num(1)];
    assert o3 == [Num(1)];
    assert s == t0;
    UnmatchedParenIsEmittedPart1(o0, t3);
    UnmatchedParenIsEmittedPart2(o3, t4);
  }

  lemma UnmatchedParenIsEmittedFinish(q: ScanState)
    requires q == ScanState([Num(1)], ['('], 2, true)
    ensures Finish(q) == [Num(1), Num(2), Op('(')]
  {
    assert Flushed(q) == ScanState([Num(1), Num(2)], ['('], 0, false);
    assert ['('][..0] == [];
    assert Lifo(['(']) == [Op('(')];
  }

  lemma UnmatchedParenIsEmittedPart1(o: seq<Token>, t: string)
    ensures Scan("(1 " + t, 0, ScanState(o, [], 0, false)) == Scan(t, 3, ScanState(o + [Num(1)], ['('], 0, false))
  {
    var q0 := ScanState(o, [], 0, false);
    var q1 := ScanState(o, ['('], 0, false);
    var q2 := ScanState(o, ['('], 1, true);
    var q3 := ScanState(o + [Num(1)], ['('], 0, false);
    var u3 := t;
    var u2 := [' '] + u3;
    var u1 := ['1'] + u2;
    var u0 := ['('] + u1;
    assert "(1 " + t == u0;
    assert Scan(u0, 0, q0) == Scan(u1, 1, q1) by {
      assert Step(q0, 0, '(') == Ok(q1) by {
        assert Flushed(q0) == ScanState(o, [], 0, false);
        assert [] + ['('] == ['('];
      }
      ScanCons('(', u1, 0, q0);
    }
    assert Scan(u1, 1, q1) == Scan(u2, 2, q2) by {
      assert Step(q1, 1, '1') == Ok(q2);
      ScanCons('1', u2, 1, q1);
    }
    assert Scan(u2, 2, q2) == Scan(u3, 3, q3) by {
      assert Step(q2, 2, ' ') == Ok(q3) by {
        assert Flushed(q2) == q3;
      }
      ScanCons(' ', u3, 2, q2);
    }
  }

  lemma UnmatchedParenIsEmittedPart2(o: seq<Token>, t: string)
    ensures Scan("2" + t, 3, ScanState(o, ['('], 0, false)) == Scan(t, 4, ScanState(o, ['('], 2, true))
  {
    var q3 := ScanState(o, ['('], 0, false);
    var q4 := ScanState(o, ['('], 2, true);
    var u4 := t;
    var u3 := ['2'] + u4;
    assert "2" + t == u3;
    assert Scan(u3, 3, q3) == Scan(u4, 4, q4) by {
      assert Step(q3, 3, '2') == Ok(q4);
      ScanCons('2', u4, 3, q3);
    }
  }

  /** The expression of the source's `calculate` test: `^` binds tighter
      than `*` and `/`, which bind tighter than `-`. */
  lemma TestExpressionConversion(s: string)
    requires s == "(1 + 2)^3 * 4 - 5/(6 + 7) * 8^9"
    ensures Generate(s) == Ok([Num(1), Num(2), Op('+'), Num(3), Op('^'), Num(4), Op('*'), Num(5), Num(6), Num(7), Op('+'), Op('/'), Num(8), Num(9), Op('^'), Op('*'), Op('-')])
  {
    TestExpressionConversionScan(s);
    TestExpressionConversionFinish(ScanState([Num(1), Num(2), Op('+'), Num(3), Op('^'), Num(4), Op('*'), Num(5), Num(6), Num(7), Op('+'), Op('/'), Num(8)], ['-', '*', '^'], 9, true));
  }

  lemma TestExpressionConversionScan(s: string)
    requires s == "(1 + 2)^3 * 4 - 5/(6 + 7) * 8^9"
    ensures Scan(s, 0, Init) == Ok(ScanState([Num(1), Num(2), Op('+'), Num(3), Op('^'), Num(4), Op('*'), Num(5), Num(6), Num(7), Op('+'), Op('/'), Num(8)], ['-', '*', '^'], 9, true))
  {
    var t31: string := [];
    var t26 := "* 8^9" + t31;
    var t18 := "(6 + 7) " + t26;
    var t10 := "* 4 - 5/" + t18;
    var t0 := "(1 + 2)^3 " + t10;
    var o0: seq<Token> := [];
    var o10 := o0 + [Num(1), Num(2), Op('+'), Num(3)];
    var o18 := o10 + [Op('^'), Num(4), Op('*'), Num(5)];
    var o26 := o18 + [Num(6), Num(7), Op('+')];
    assert o10 == [Num(1), Num(2), Op('+'), Num(3)];
    assert o18 == [Num(1), Num(2), Op('+'), Num(3), Op('^'), Num(4), Op('*'), Num(5)];
    assert o26 == [Num(1), Num(2), Op('+'), Num(3), Op('^'), Num(4), Op('*'), Num(5), Num(6), Num(7), Op('+')];
    assert o26 + [Op('/'), Num(8)] == [Num(1), Num(2), Op('+'), Num(3), Op('^'), Num(4), Op('*'), Num(5), Num(6), Num(7), Op('+'), Op('/'), Num(8)];
    assert s == t0;
    TestExpressionConversionGroup1(o0, t10);
    TestExpressionConversionGroup2(o10, t18);
    TestExpressionConversionGroup3(o18, t26);
    TestExpressionConversionGroup4(o26, t31);
  }

  lemma TestExpressionConversionFinish(q: ScanState)
    requires q == ScanState([Num(1), Num(2), Op('+'), Num(3), Op('^'), Num(4), Op('*'), Num(5), Num(6), Num(7), Op('+'), Op('/'), Num(8)], ['-', '*', '^'], 9, true)
    ensures Finish(q) == [Num(1), Num(2), Op('+'), Num(3), Op('^'), Num(4), Op('*'), Num(5), Num(6), Num(7), Op('+'), Op('/'), Num(8), Num(9), Op('^'), Op('*'), Op('-')]
  {
    assert Flushed(q) == ScanState([Num(1), Num(2), Op('+'), Num(3), Op('^'), Num(4), Op('*'), Num(5), Num(6), Num(7), Op('+'), Op('/'), Num(8), Num(9)], ['-', '*', '^'], 0, false);
    assert ['-', '*', '^'][..2] == ['-', '*'];
    assert ['-', '*'][..1] == ['-'];
    assert ['-'][..0] == [];
    assert Lifo(['-', '*', '^']) == [Op('^'), Op('*'), Op('-')];
  }

  lemma TestExpressionConversionPart1(o: seq<Token>, t: string)
    ensures Scan("+ 2" + t, 3, ScanState(o, ['('], 0, false)) == Scan(t, 6, ScanState(o, ['(', '+'], 2, true))
  {
    var q3 := ScanState(o, ['('], 0, false);
    var q4 := ScanState(o, ['(', '+'], 0, false);
    var q6 := ScanState(o, ['(', '+'], 2, true);
    var u6 := t;
    var u5 := ['2'] + u6;
    var u4 := [' '] + u5;
    var u3 := ['+'] + u4;
    assert "+ 2" + t == u3;
    assert Scan(u3, 3, q3) == Scan(u4, 4, q4) by {
      assert Step(q3, 3, '+') == Ok(q4) by {
        assert Flushed(q3) == ScanState(o, ['('], 0, false);
        PopStop(o, ['('], '+');
        assert ['('] + ['+'] == ['(', '+'];
        assert PushOperator(ScanState(o, ['('], 0, false), '+') == q4;
      }
      ScanCons('+', u4, 3, q3);
    }
    assert Scan(u4, 4, q4) == Scan(u5, 5, q4) by {
      assert Step(q4, 4, ' ') == Ok(q4) by {
        assert Flushed(q4) == q4;
      }
      ScanCons(' ', u5, 4, q4);
    }
    assert Scan(u5, 5, q4) == Scan(u6, 6, q6) by {
      assert Step(q4, 5, '2') == Ok(q6);
      ScanCons('2', u6, 5, q4);
    }
  }

  lemma TestExpressionConversionPart2(o: seq<Token>, t: string)
    ensures Scan(")" + t, 6, ScanState(o, ['(', '+'], 2, true)) == Scan(t, 7, ScanState(o + [Num(2), Op('+')], [], 0, false))
  {
    var q6 := ScanState(o, ['(', '+'], 2, true);
    var q7 := ScanState(o + [Num(2), Op('+')], [], 0, false);
    var u7 := t;
    var u6 := [')'] + u7;
    assert ")" + t == u6;
    assert Scan(u6, 6, q6) == Scan(u7, 7, q7) by {
      assert Step(q6, 6, ')') == Ok(q7) by {
        assert Flushed(q6) == ScanState(o + [Num(2)], ['(', '+'], 0, false);
        PopOne(o + [Num(2)], ['(', '+'], ')');
        assert ['(', '+'][..1] == ['('];
        PopStop(o + [Num(2), Op('+')], ['('], ')');
        assert ['('][..0] == [];
        assert CloseParen(ScanState(o + [Num(2)], ['(', '+'], 0, false)) == q7;
      }
      ScanCons(')', u7, 6, q6);
    }
  }

  lemma TestExpressionConversionPart3(o: seq<Token>, t: string)
    ensures Scan("^3 " + t, 7, ScanState(o, [], 0, false)) == Scan(t, 10, ScanState(o + [Num(3)], ['^'], 0, false))
  {
    var q7 := ScanState(o, [], 0, false);
    var q8 := ScanState(o, ['^'], 0, false);
    var q9 := ScanState(o, ['^'], 3, true);
    var q10 := ScanState(o + [Num(3)], ['^'], 0, false);
    var u10 := t;
    var u9 := [' '] + u10;
    var u8 := ['3'] + u9;
    var u7 := ['^'] + u8;
    assert "^3 " + t == u7;
    assert Scan(u7, 7, q7) == Scan(u8, 8, q8) by {
      assert Step(q7, 7, '^') == Ok(q8) by {
        assert Flushed(q7) == ScanState(o, [], 0, false);
        PopStop(o, [], '^');
        assert [] + ['^'] == ['^'];
        assert PushOperator(ScanState(o, [], 0, false), '^') == q8;
      }
      ScanCons('^', u8, 7, q7);
    }
    assert Scan(u8, 8, q8) == Scan(u9, 9, q9) by {
      assert Step(q8, 8, '3') == Ok(q9);
      ScanCons('3', u9, 8, q8);
    }
    assert Scan(u9, 9, q9) == Scan(u10, 10, q10) by {
      assert Step(q9, 9, ' ') == Ok(q10) by {
        assert Flushed(q9) == q10;
      }
      ScanCons(' ', u10, 9, q9);
    }
  }

  lemma TestExpressionConversionPart4(o: seq<Token>, t: string)
    ensures Scan("*" + t, 10, ScanState(o, ['^'], 0, false)) == Scan(t, 11, ScanState(o + [Op('^')], ['*'], 0, false))
  {
    var q10 := ScanState(o, ['^'], 0, false);
    var q11 := ScanState(o + [Op('^')], ['*'], 0, false);
    var u11 := t;
    var u10 := ['*'] + u11;
    assert "*" + t == u10;
    assert Scan(u10, 10, q10) == Scan(u11, 11, q11) by {
      assert Step(q10, 10, '*') == Ok(q11) by {
        assert Flushed(q10) == ScanState(o, ['^'], 0, false);
        PopOne(o, ['^'], '*');
        assert ['^'][..0] == [];
        PopStop(o + [Op('^')], [], '*');
        assert [] + ['*'] == ['*'];
        assert PushOperator(ScanState(o, ['^'], 0, false), '*') == q11;
      }
      ScanCons('*', u11, 10, q10);
    }
  }

  lemma TestExpressionConversionPart5(o: seq<Token>, t: string)
    ensures Scan(" 4 " + t, 11, ScanState(o, ['*'], 0, false)) == Scan(t, 14, ScanState(o + [Num(4)], ['*'], 0, false))
  {
    var q11 := ScanState(o, ['*'], 0, false);
    var q13 := ScanState(o, ['*'], 4, true);
    var q14 := ScanState(o + [Num(4)], ['*'], 0, false);
    var u14 := t;
    var u13 := [' '] + u14;
    var u12 := ['4'] + u13;
    var u11 := [' '] + u12;
    assert " 4 " + t == u11;
    assert Scan(u11, 11, q11) == Scan(u12, 12, q11) by {
      assert Step(q11, 11, ' ') == Ok(q11) by {
        assert Flushed(q11) == q11;
      }
      ScanCons(' ', u12, 11, q11);
    }
    assert Scan(u12, 12, q11) == Scan(u13, 13, q13) by {
      assert Step(q11, 12, '4') == Ok(q13);
      ScanCons('4', u13, 12, q11);
    }
    assert Scan(u13, 13, q13) == Scan(u14, 14, q14) by {
      assert Step(q13, 13, ' ') == Ok(q14) by {
        assert Flushed(q13) == q14;
      }
      ScanCons(' ', u14, 13, q13);
    }
  }

  lemma TestExpressionConversionPart6(o: seq<Token>, t: string)
    ensures Scan("-" + t, 14, ScanState(o, ['*'], 0, false)) == Scan(t, 15, ScanState(o + [Op('*')], ['-'], 0, false))
  {
    var q14 := ScanState(o, ['*'], 0, false);
    var q15 := ScanState(o + [Op('*')], ['-'], 0, false);
    var u15 := t;
    var u14 := ['-'] + u15;
    assert "-" + t == u14;
    assert Scan(u14, 14, q14) == Scan(u15, 15, q15) by {
      assert Step(q14, 14, '-') == Ok(q15) by {
        assert Flushed(q14) == ScanState(o, ['*'], 0, false);
        PopOne(o, ['*'], '-');
        assert ['*'][..0] == [];
        PopStop(o + [Op('*')], [], '-');
        assert [] + ['-'] == ['-'];
        assert PushOperator(ScanState(o, ['*'], 0, false), '-') == q15;
      }
      ScanCons('-', u15, 14, q14);
    }
  }

  lemma TestExpressionConversionPart7(o: seq<Token>, t: string)
    ensures Scan(" 5/" + t, 15, ScanState(o, ['-'], 0, false)) == Scan(t, 18, ScanState(o + [Num(5)], ['-', '/'], 0, false))
  {
    var q15 := ScanState(o, ['-'], 0, false);
    var q17 := ScanState(o, ['-'], 5, true);
    var q18 := ScanState(o + [Num(5)], ['-', '/'], 0, false);
    var u18 := t;
    var u17 := ['/'] + u18;
    var u16 := ['5'] + u17;
    var u15 := [' '] + u16;
    assert " 5/" + t == u15;
    assert Scan(u15, 15, q15) == Scan(u16, 16, q15) by {
      assert Step(q15, 15, ' ') == Ok(q15) by {
        assert Flushed(q15) == q15;
      }
      ScanCons(' ', u16, 15, q15);
    }
    assert Scan(u16, 16, q15) == Scan(u17, 17, q17) by {
      assert Step(q15, 16, '5') == Ok(q17);
      ScanCons('5', u17, 16, q15);
    }
    assert Scan(u17, 17, q17) == Scan(u18, 18, q18) by {
      assert Step(q17, 17, '/') == Ok(q18) by {
        assert Flushed(q17) == ScanState(o + [Num(5)], ['-'], 0, false);
        PopStop(o + [Num(5)], ['-'], '/');
        assert ['-'] + ['/'] == ['-', '/'];
        assert PushOperator(ScanState(o + [Num(5)], ['-'], 0, false), '/') == q18;
      }
      ScanCons('/', u18, 17, q17);
    }
  }

  lemma TestExpressionConversionPart8(o: seq<Token>, t: string)
    ensures Scan("(6 " + t, 18, ScanState(o, ['-', '/'], 0, false)) == Scan(t, 21, ScanState(o + [Num(6)], ['-', '/', '('], 0, false))
  {
    var q18 := ScanState(o, ['-', '/'], 0, false);
    var q19 := ScanState(o, ['-', '/', '('], 0, false);
    var q20 := ScanState(o, ['-', '/', '('], 6, true);
    var q21 := ScanState(o + [Num(6)], ['-', '/', '('], 0, false);
    var u21 := t;
    var u20 := [' '] + u21;
    var u19 := ['6'] + u20;
    var u18 := ['('] + u19;
    assert "(6 " + t == u18;
    assert Scan(u18, 18, q18) == Scan(u19, 19, q19) by {
      assert Step(q18, 18, '(') == Ok(q19) by {
        assert Flushed(q18) == ScanState(o, ['-', '/'], 0, false);
        assert ['-', '/'] + ['('] == ['-', '/', '('];
      }
      ScanCons('(', u19, 18, q18);
    }
    assert Scan(u19, 19, q19) == Scan(u20, 20, q20) by {
      assert Step(q19, 19, '6') == Ok(q20);
      ScanCons('6', u20, 19, q19);
    }
    assert Scan(u20, 20, q20) == Scan(u21, 21, q21) by {
      assert Step(q20, 20, ' ') == Ok(q21) by {
        assert Flushed(q20) == q21;
      }
      ScanCons(' ', u21, 20, q20);
    }
  }

  lemma TestExpressionConversionPart9(o: seq<Token>, t: string)
    ensures Scan("+ 7" + t, 21, ScanState(o, ['-', '/', '('], 0, false)) == Scan(t, 24, ScanState(o, ['-', '/', '(', '+'], 7, true))
  {
    var q21 := ScanState(o, ['-', '/', '('], 0, false);
    var q22 := ScanState(o, ['-', '/', '(', '+'], 0, false);
    var q24 := ScanState(o, ['-', '/', '(', '+'], 7, true);
    var u24 := t;
    var u23 := ['7'] + u24;
    var u22 := [' '] + u23;
    var u21 := ['+'] + u22;
    assert "+ 7" + t == u21;
    assert Scan(u21, 21, q21) == Scan(u22, 22, q22) by {
      assert Step(q21, 21, '+') == Ok(q22) by {
        assert Flushed(q21) == ScanState(o, ['-', '/', '('], 0, false);
        PopStop(o, ['-', '/', '('], '+');
        assert ['-', '/', '('] + ['+'] == ['-', '/', '(', '+'];
        assert PushOperator(ScanState(o, ['-', '/', '('], 0, false), '+') == q22;
      }
      ScanCons('+', u22, 21, q21);
    }
    assert Scan(u22, 22, q22) == Scan(u23, 23, q22) by {
      assert Step(q22, 22, ' ') == Ok(q22) by {
        assert Flushed(q22) == q22;
      }
      ScanCons(' ', u23, 22, q22);
    }
    assert Scan(u23, 23, q22) == Scan(u24, 24, q24) by {
      assert Step(q22, 23, '7') == Ok(q24);
      ScanCons('7', u24, 23, q22);
    }
  }

  lemma TestExpressionConversionPart10(o: seq<Token>, t: string)
    ensures Scan(")" + t, 24, ScanState(o, ['-', '/', '(', '+'], 7, true)) == Scan(t, 25, ScanState(o + [Num(7), Op('+')], ['-', '/'], 0, false))
  {
    var q24 := ScanState(o, ['-', '/', '(', '+'], 7, true);
    var q25 := ScanState(o + [Num(7), Op('+')], ['-', '/'], 0, false);
    var u25 := t;
    var u24 := [')'] + u25;
    assert ")" + t == u24;
    assert Scan(u24, 24, q24) == Scan(u25, 25, q25) by {
      assert Step(q24, 24, ')') == Ok(q25) by {
        assert Flushed(q24) == ScanState(o + [Num(7)], ['-', '/', '(', '+'], 0, false);
        PopOne(o + [Num(7)], ['-', '/', '(', '+'], ')');
        assert ['-', '/', '(', '+'][..3] == ['-', '/', '('];
        PopStop(o + [Num(7), Op('+')], ['-', '/', '('], ')');
        assert ['-', '/', '('][..2] == ['-', '/'];
        assert CloseParen(ScanState(o + [Num(7)], ['-', '/', '(', '+'], 0, false)) == q25;
      }
      ScanCons(')', u25, 24, q24);
    }
  }

  lemma TestExpressionConversionPart11(o: seq<Token>, t: string)
    ensures Scan(" " + t, 25, ScanState(o, ['-', '/'], 0, false)) == Scan(t, 26, ScanState(o, ['-', '/'], 0, false))
  {
    var q25 := ScanState(o, ['-', '/'], 0, false);
    var u26 := t;
    var u25 := [' '] + u26;
    assert " " + t == u25;
    assert Scan(u25, 25, q25) == Scan(u26, 26, q25) by {
      assert Step(q25, 25, ' ') == Ok(q25) by {
        assert Flushed(q25) == q25;
      }
      ScanCons(' ', u26, 25, q25);
    }
  }

  lemma TestExpressionConversionPart12(o: seq<Token>, t: string)
    ensures Scan("*" + t, 26, ScanState(o, ['-', '/'], 0, false)) == Scan(t, 27, ScanState(o + [Op('/')], ['-', '*'], 0, false))
  {
    var q26 := ScanState(o, ['-', '/'], 0, false);
    var q27 := ScanState(o + [Op('/')], ['-', '*'], 0, false);
    var u27 := t;
    var u26 := ['*'] + u27;
    assert "*" + t == u26;
    assert Scan(u26, 26, q26) == Scan(u27, 27, q27) by {
      assert Step(q26, 26, '*') == Ok(q27) by {
        assert Flushed(q26) == ScanState(o, ['-', '/'], 0, false);
        PopOne(o, ['-', '/'], '*');
        assert ['-', '/'][..1] == ['-'];
        PopStop(o + [Op('/')], ['-'], '*');
        assert ['-'] + ['*'] == ['-', '*'];
        assert PushOperator(ScanState(o, ['-', '/'], 0, false), '*') == q27;
      }
      ScanCons('*', u27, 26, q26);
    }
  }

  lemma TestExpressionConversionPart13(o: seq<Token>, t: string)
    ensures Scan(" 8^" + t, 27, ScanState(o, ['-', '*'], 0, false)) == Scan(t, 30, ScanState(o + [Num(8)], ['-', '*', '^'], 0, false))
  {
    var q27 := ScanState(o, ['-', '*'], 0, false);
    var q29 := ScanState(o, ['-', '*'], 8, true);
    var q30 := ScanState(o + [Num(8)], ['-', '*', '^'], 0, false);
    var u30 := t;
    var u29 := ['^'] + u30;
    var u28 := ['8'] + u29;
    var u27 := [' '] + u28;
    assert " 8^" + t == u27;
    assert Scan(u27, 27, q27) == Scan(u28, 28, q27) by {
      assert Step(q27, 27, ' ') == Ok(q27) by {
        assert Flushed(q27) == q27;
      }
      ScanCons(' ', u28, 27, q27);
    }
    assert Scan(u28, 28, q27) == Scan(u29, 29, q29) by {
      assert Step(q27, 28, '8') == Ok(q29);
      ScanCons('8', u29, 28, q27);
    }
    assert Scan(u29, 29, q29) == Scan(u30, 30, q30) by {
      assert Step(q29, 29, '^') == Ok(q30) by {
        assert Flushed(q29) == ScanState(o + [Num(8)], ['-', '*'], 0, false);
        PopStop(o + [Num(8)], ['-', '*'], '^');
        assert ['-', '*'] + ['^'] == ['-', '*', '^'];
        assert PushOperator(ScanState(o + [Num(8)], ['-', '*'], 0, false), '^') == q30;
      }
      ScanCons('^', u30, 29, q29);
    }
  }

  lemma TestExpressionConversionPart14(o: seq<Token>, t: string)
    ensures Scan("9" + t, 30, ScanState(o, ['-', '*', '^'], 0, false)) == Scan(t, 31, ScanState(o, ['-', '*', '^'], 9, true))
  {
    var q30 := ScanState(o, ['-', '*', '^'], 0, false);
    var q31 := ScanState(o, ['-', '*', '^'], 9, true);
    var u31 := t;
    var u30 := ['9'] + u31;
    assert "9" + t == u30;
    assert Scan(u30, 30, q30) == Scan(u31, 31, q31) by {
      assert Step(q30, 30, '9') == Ok(q31);
      ScanCons('9', u31, 30, q30);
    }
  }

  lemma TestExpressionConversionGroup1(o: seq<Token>, t: string)
    ensures Scan("(1 + 2)^3 " + t, 0, ScanState(o, [], 0, false)) == Scan(t, 10, ScanState(o + [Num(1), Num(2), Op('+'), Num(3)], ['^'], 0, false))
  {
    var t10 := t;
    var t7 := "^3 " + t10;
    var t6 := ")" + t7;
    var t3 := "+ 2" + t6;
    var t0 := "(1 " + t3;
    var o3 := o + [Num(1)];
    var o7 := o3 + [Num(2), Op('+')];
    assert o7 + [Num(3)] == o + [Num(1), Num(2), Op('+'), Num(3)];
    assert "(1 + 2)^3 " + t == t0;
    UnmatchedParenIsEmittedPart1(o, t3);
    TestExpressionConversionPart1(o3, t6);
    TestExpressionConversionPart2(o3, t7);
    TestExpressionConversionPart3(o7, t10);
  }

  lemma TestExpressionConversionGroup2(o: seq<Token>, t: string)
    ensures Scan("* 4 - 5/" + t, 10, ScanState(o, ['^'], 0, false)) == Scan(t, 18, ScanState(o + [Op('^'), Num(4), Op('*'), Num(5)], ['-', '/'], 0, false))
  {
    var t18 := t;
    var t15 := " 5/" + t18;
    var t14 := "-" + t15;
    var t11 := " 4 " + t14;
    var t10 := "*" + t11;
    var o11 := o + [Op('^')];
    var o14 := o11 + [Num(4)];
    var o15 := o14 + [Op('*')];
    assert o15 + [Num(5)] == o + [Op('^'), Num(4), Op('*'), Num(5)];
    assert "* 4 - 5/" + t == t10;
    TestExpressionConversionPart4(o, t11);
    TestExpressionConversionPart5(o11, t14);
    TestExpressionConversionPart6(o14, t15);
    TestExpressionConversionPart7(o15, t18);
  }

  lemma TestExpressionConversionGroup3(o: seq<Token>, t: string)
    ensures Scan("(6 + 7) " + t, 18, ScanState(o, ['-', '/'], 0, false)) == Scan(t, 26, ScanState(o + [Num(6), Num(7), Op('+')], ['-', '/'], 0, false))
  {
    var t26 := t;
    var t25 := " " + t26;
    var t24 := ")" + t25;
    var t21 := "+ 7" + t24;
    var t18 := "(6 " + t21;
    var o21 := o + [Num(6)];
    var o25 := o21 + [Num(7), Op('+')];
    assert o25 == o + [Num(6), Num(7), Op('+')];
    assert "(6 + 7) " + t == t18;
    TestExpressionConversionPart8(o, t21);
    TestExpressionConversionPart9(o21, t24);
    TestExpressionConversionPart10(o21, t25);
    TestExpressionConversionPart11(o25, t26);
  }

  lemma TestExpressionConversionGroup4(o: seq<Token>, t: string)
    ensures Scan("* 8^9" + t, 26, ScanState(o, ['-', '/'], 0, false)) == Scan(t, 31, ScanState(o + [Op('/'), Num(8)], ['-', '*', '^'], 9, true))
  {
    var t31 := t;
    var t30 := "9" + t31;
    var t27 := " 8^" + t30;
    var t26 := "*" + t27;
    var o27 := o + [Op('/')];
    var o30 := o27 + [Num(8)];
    assert o30 == o + [Op('/'), Num(8)];
    assert "* 8^9" + t == t26;
    TestExpressionConversionPart12(o, t27);
    TestExpressionConversionPart13(o27, t30);
    TestExpressionConversionPart14(o30, t31);
  }

  /** A matched pair of parentheses leaves nothing behind. */
  lemma EmptyParensVanish(s: string)
    requires s == "()"
    ensures Generate(s) == Ok([])
  {
    EmptyParensVanishScan(s);
    EmptyParensVanishFinish(ScanState([], [], 0, false));
  }

  lemma EmptyParensVanishScan(s: string)
    requires s == "()"
    ensures Scan(s, 0, Init) == Ok(ScanState([], [], 0, false))
  {
    var t2: string := [];
    var t0 := "()" + t2;
    var o0: seq<Token> := [];
    assert s == t0;
    EmptyParensVanishPart1(o0, t2);
  }

  lemma EmptyParensVanishFinish(q: ScanState)
    requires q == ScanState([], [], 0, false)
    ensures Finish(q) == []
  {
    assert Flushed(q) == ScanState([], [], 0, false);
    assert Lifo([]) == [];
  }

  lemma EmptyParensVanishPart1(o: seq<Token>, t: string)
    ensures Scan("()" + t, 0, ScanState(o, [], 0, false)) == Scan(t, 2, ScanState(o, [], 0, false))
  {
    var q0 := ScanState(o, [], 0, false);
    var q1 := ScanState(o, ['('], 0, false);
    var q2 := ScanState(o, [], 0, false);
    var u2 := t;
    var u1 := [')'] + u2;
    var u0 := ['('] + u1;
    assert "()" + t == u0;
    assert Scan(u0, 0, q0) == Scan(u1, 1, q1) by {
      assert Step(q0, 0, '(') == Ok(q1) by {
        assert Flushed(q0) == ScanState(o, [], 0, false);
        assert [] + ['('] == ['('];
      }
      ScanCons('(', u1, 0, q0);
    }
    assert Scan(u1, 1, q1) == Scan(u2, 2, q2) by {
      assert Step(q1, 1, ')') == Ok(q2) by {
        assert Flushed(q1) == ScanState(o, ['('], 0, false);
        PopStop(o, ['('], ')');
        assert ['('][..0] == [];
        assert CloseParen(ScanState(o, ['('], 0, false)) == q2;
      }
      ScanCons(')', u2, 1, q1);
    }
  }

  /** A space ends a number. */
  lemma SpaceSplitsNumbers(s: string)
    requires s == "1 2"
    ensures Generate(s) == Ok([Num(1), Num(2)])
  {
    SpaceSplitsNumbersScan(s);
    SpaceSplitsNumbersFinish(ScanState([Num(1)], [], 2, true));
  }

  lemma SpaceSplitsNumbersScan(s: string)
    requires s == "1 2"
    ensures Scan(s, 0, Init) == Ok(ScanState([Num(1)], [], 2, true))
  {
    var t3: string := [];
    var t0 := "1 2" + t3;
    var o0: seq<Token> := [];
    assert o0 + [Num(1)] == [Num(1)];
    assert s == t0;
    SpaceSplitsNumbersPart1(o0, t3);
  }

  lemma SpaceSplitsNumbersFinish(q: ScanState)
    requires q == ScanState([Num(1)], [], 2, true)
    ensures Finish(q) == [Num(1), Num(2)]
  {
    assert Flushed(q) == ScanState([Num(1), Num(2)], [], 0, false);
    assert Lifo([]) == [];
  }

  lemma SpaceSplitsNumbersPart1(o: seq<Token>, t: string)
    ensures Scan("1 2" + t, 0, ScanState(o, [], 0, false)) == Scan(t, 3, ScanState(o + [Num(1)], [], 2, true))
  {
    var q0 := ScanState(o, [], 0, false);
    var q1 := ScanState(o, [], 1, true);
    var q2 := ScanState(o + [Num(1)], [], 0, false);
    var q3 := ScanState(o + [Num(1)], [], 2, true);
    var u3 := t;
    var u2 := ['2'] + u3;
    var u1 := [' '] + u2;
    var u0 := ['1'] + u1;
    assert "1 2" + t == u0;
    assert Scan(u0, 0, q0) == Scan(u1, 1, q1) by {
      assert Step(q0, 0, '1') == Ok(q1);
      ScanCons('1', u1, 0, q0);
    }
    assert Scan(u1, 1, q1) == Scan(u2, 2, q2) by {
      assert Step(q1, 1, ' ') == Ok(q2) by {
        assert Flushed(q1) == q2;
      }
      ScanCons(' ', u2, 1, q1);
    }
    assert Scan(u2, 2, q2) == Scan(u3, 3, q3) by {
      assert Step(q2, 2, '2') == Ok(q3);
      ScanCons('2', u3, 2, q2);
    }
  }

  /** An operator without a right operand is still emitted. */
  lemma TrailingOperator(s: string)
    requires s == "1 +"
    ensures Generate(s) == Ok([Num(1), Op('+')])
  {
    TrailingOperatorScan(s);
    TrailingOperatorFinish(ScanState([Num(1)], ['+'], 0, false));
  }

  lemma TrailingOperatorScan(s: string)
    requires s == "1 +"
    ensures Scan(s, 0, Init) == Ok(ScanState([Num(1)], ['+'], 0, false))
  {
    var t3: string := [];
    var t0 := "1 +" + t3;
    var o0: seq<Token> := [];
    assert o0 + [Num(1)] == [Num(1)];
    assert s == t0;
    TrailingOperatorPart1(o0, t3);
  }

  lemma TrailingOperatorFinish(q: ScanState)
    requires q == ScanState([Num(1)], ['+'], 0, false)
    ensures Finish(q) == [Num(1), Op('+')]
  {
    assert Flushed(q) == ScanState([Num(1)], ['+'], 0, false);
    assert ['+'][..0] == [];
    assert Lifo(['+']) == [Op('+')];
  }

  lemma TrailingOperatorPart1(o: seq<Token>, t: string)
    ensures Scan("1 +" + t, 0, ScanState(o, [], 0, false)) == Scan(t, 3, ScanState(o + [Num(1)], ['+'], 0, false))
  {
    var q0 := ScanState(o, [], 0, false);
    var q1 := ScanState(o, [], 1, true);
    var q2 := ScanState(o + [Num(1)], [], 0, false);
    var q3 := ScanState(o + [Num(1)], ['+'], 0, false);
    var u3 := t;
    var u2 := ['+'] + u3;
    var u1 := [' '] + u2;
    var u0 := ['1'] + u1;
    assert "1 +" + t == u0;
    assert Scan(u0, 0, q0) == Scan(u1, 1, q1) by {
      assert Step(q0, 0, '1') == Ok(q1);
      ScanCons('1', u1, 0, q0);
    }
    assert Scan(u1, 1, q1) == Scan(u2, 2, q2) by {
      assert Step(q1, 1, ' ') == Ok(q2) by {
        assert Flushed(q1) == q2;
      }
      ScanCons(' ', u2, 1, q1);
    }
    assert Scan(u2, 2, q2) == Scan(u3, 3, q3) by {
      assert Step(q2, 2, '+') == Ok(q3) by {
        assert Flushed(q2) == ScanState(o + [Num(1)], [], 0, false);
        PopStop(o + [Num(1)], [], '+');
        assert [] + ['+'] == ['+'];
        assert PushOperator(ScanState(o + [Num(1)], [], 0, false), '+') == q3;
      }
      ScanCons('+', u3, 2, q2);
    }
  }

  /** The invalid expression of the source's unit test. */
  lemma LettersAreRejected(s: string)
    requires s == "(1 + 2) * abc"
    ensures Generate(s) == Err(UnknownChar(10, 'a'))
  {
    GenerateRejectsFirstBad(s, 10);
  }
}
