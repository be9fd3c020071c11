/** The postfix evaluator (`calculateRPN`): a left-to-right fold of the token
    list over a value stack whose last element is the top. The value type is
    a parameter; the five operators are supplied as total functions. */
module Evaluator {
  import opened Tokens

  /** The arithmetic the evaluator applies: how a number literal becomes a
      value, and one function per operator symbol. */
  datatype Arith<!V> = Arith(
    lit: nat -> V,
    add: (V, V) -> V,
    sub: (V, V) -> V,
    mul: (V, V) -> V,
    div: (V, V) -> V,
    pow: (V, V) -> V)

  /** The operator symbol `c` applied to `a` (second from the top) and `b`
      (the top); a symbol outside `+ - * / ^` is an error. */
  function Apply<V>(ar: Arith<V>, c: char, a: V, b: V): (r: Result<V>)
    ensures r.Ok? <==> IsBinaryOp(c)
    ensures r.Err? ==> r.error == UnknownOperator(c)
  {
    if c == '+' then Ok(ar.add(a, b))
    else if c == '-' then Ok(ar.sub(a, b))
    else if c == '*' then Ok(ar.mul(a, b))
    else if c == '/' then Ok(ar.div(a, b))
    else if c == '^' then Ok(ar.pow(a, b))
    else Err(UnknownOperator(c))
  }

  /** How a token changes the height of the value stack. */
  function Delta(t: Token): int {
    if t.Num? then 1 else -1
  }

  /** The height change of a whole token list: one up per number, one down
      per operator. */
  function Net(ts: seq<Token>): int {
    |NumsOf(ts)| - |OpsOf(ts)|
  }

  /** Token `j` of `ts` stops an evaluation that starts from a stack of
      height `h`: it is an operator and either fewer than two values are on
      the stack when it is reached, or it is not one of the five symbols. */
  predicate Bad(h: int, ts: seq<Token>, j: nat)
    requires j < |ts|
  {
    ts[j].Op? && (h + Net(ts[..j]) < 2 || !IsBinaryOp(ts[j].c))
  }

  /** No token of `ts` stops an evaluation from height `h`. */
  predicate Clean(h: int, ts: seq<Token>) {
    forall j :: 0 <= j < |ts| ==> !Bad(h, ts, j)
  }

  /** The fold over `rpn` from the value stack `stack`: a number is pushed;
      an operator first needs two values, then replaces them by its result. */
  function Run<V>(ar: Arith<V>, stack: seq<V>, rpn: seq<Token>): (r: Result<seq<V>>)
    ensures r.Ok? ==> |r.value| == |stack| + Net(rpn)
    ensures r.Err? ==> r.error == InvalidSyntax || r.error.UnknownOperator?
    decreases |rpn|
  {
    if |rpn| == 0 then
      Ok(stack)
    else
      NetCons(rpn);
      match rpn[0]
      case Num(n) =>
        Run(ar, stack + [ar.lit(n)], rpn[1..])
      case Op(c) =>
        if |stack| < 2 then
          Err(InvalidSyntax)
        else
          match Apply(ar, c, stack[|stack| - 2], stack[|stack| - 1])
          case Err(e) => Err(e)
          case Ok(v) => Run(ar, stack[..|stack| - 2] + [v], rpn[1..])
  }

  /** `calculateRPN`: the single value left on the stack. More than one value
      left is invalid syntax; none left is the source's out-of-range index. */
  function Evaluate<V>(ar: Arith<V>, rpn: seq<Token>): (r: Result<V>)
    ensures r.Ok? ==> Net(rpn) == 1
    ensures r.Err? ==> !r.error.UnknownChar?
  {
    match Run(ar, [], rpn)
    case Err(e) => Err(e)
    case Ok(stack) =>
      if |stack| > 1 then Err(InvalidSyntax)
      else if |stack| == 0 then Err(IndexOutOfRange)
      else Ok(stack[0])
  }

  lemma NetCons(ts: seq<Token>)
    requires |ts| > 0
    ensures Net(ts) == Delta(ts[0]) + Net(ts[1..])
  {
    assert ts == [ts[0]] + ts[1..];
    FiltersOfAppend([ts[0]], ts[1..]);
    FiltersOfSingleton(ts[0]);
  }

  lemma NetAppend(a: seq<Token>, b: seq<Token>)
    ensures Net(a + b) == Net(a) + Net(b)
  {
    FiltersOfAppend(a, b);
  }

  /** Dropping the first token shifts every later position down by one and
      starts from the height the first token leaves. */
  lemma BadShift(h: int, ts: seq<Token>, j: nat)
    requires j + 1 < |ts|
    ensures Bad(h, ts, j + 1) == Bad(h + Delta(ts[0]), ts[1..], j)
  {
    assert ts[..j + 1] == [ts[0]] + ts[1..][..j];
    NetAppend([ts[0]], ts[1..][..j]);
    NetCons([ts[0]]);
    assert [ts[0]][1..] == [];
  }

  lemma CleanCons(h: int, ts: seq<Token>)
    requires |ts| > 0
    ensures Clean(h, ts) <==> !Bad(h, ts, 0) && Clean(h + Delta(ts[0]), ts[1..])
  {
    assert ts[..0] == [];
    var h', rest := h + Delta(ts[0]), ts[1..];
    if Clean(h, ts) {
      forall j | 0 <= j < |rest|
        ensures !Bad(h', rest, j)
      {
        BadShift(h, ts, j);
      }
    }
    if !Bad(h, ts, 0) && Clean(h', rest) {
      forall j | 0 <= j < |ts|
        ensures !Bad(h, ts, j)
      {
        if j > 0 {
          BadShift(h, ts, j - 1);
        }
      }
    }
  }

  /** The fold succeeds exactly when no token stops it. */
  lemma {:induction false} RunOkIff<V>(ar: Arith<V>, stack: seq<V>, rpn: seq<Token>)
    ensures Run(ar, stack, rpn).Ok? <==> Clean(|stack|, rpn)
    decreases |rpn|
  {
    if |rpn| > 0 {
      CleanCons(|stack|, rpn);
      assert rpn[..0] == [];
      match rpn[0]
      case Num(n) =>
        RunOkIff(ar, stack + [ar.lit(n)], rpn[1..]);
      case Op(c) =>
        if |stack| >= 2 && IsBinaryOp(c) {
          var v := Apply(ar, c, stack[|stack| - 2], stack[|stack| - 1]).value;
          RunOkIff(ar, stack[..|stack| - 2] + [v], rpn[1..]);
        }
    }
  }

  /** The error is decided by the first token that stops the fold: too few
      operands there is invalid syntax, which the source checks before it
      looks at the symbol; otherwise the symbol is unknown. */
  lemma {:induction false} RunFailsAtFirstBad<V>(ar: Arith<V>, stack: seq<V>, rpn: seq<Token>, j: nat)
    requires j < |rpn| && Bad(|stack|, rpn, j)
    requires forall i :: 0 <= i < j ==> !Bad(|stack|, rpn, i)
    ensures Run(ar, stack, rpn)
      == Err(if |stack| + Net(rpn[..j]) < 2 then InvalidSyntax else UnknownOperator(rpn[j].c))
    decreases j
  {
    assert rpn[..0] == [];
    if j > 0 {
      var h' := |stack| + Delta(rpn[0]);
      forall i | 0 <= i < j - 1
        ensures !Bad(h', rpn[1..], i)
      {
        BadShift(|stack|, rpn, i);
      }
      BadShift(|stack|, rpn, j - 1);
      assert rpn[..j] == [rpn[0]] + rpn[1..][..j - 1];
      NetAppend([rpn[0]], rpn[1..][..j - 1]);
      NetCons([rpn[0]]);
      assert [rpn[0]][1..] == [];
      match rpn[0]
      case Num(n) =>
        RunFailsAtFirstBad(ar, stack + [ar.lit(n)], rpn[1..], j - 1);
      case Op(c) =>
        assert !Bad(|stack|, rpn, 0);
        var v := Apply(ar, c, stack[|stack| - 2], stack[|stack| - 1]).value;
        RunFailsAtFirstBad(ar, stack[..|stack| - 2] + [v], rpn[1..], j - 1);
    }
  }

  /** Running two lists one after the other is running their concatenation;
      an error in the first stops the whole run. */
  lemma {:induction false} RunAppend<V>(ar: Arith<V>, stack: seq<V>, a: seq<Token>, b: seq<Token>)
    ensures Run(ar, stack, a + b) == match Run(ar, stack, a)
      case Err(e) => Err(e)
      case Ok(s') => Run(ar, s', b)
    decreases |a|
  {
    if |a| == 0 {
      assert a + b == b;
    } else {
      assert (a + b)[0] == a[0];
      assert (a + b)[1..] == a[1..] + b;
      match a[0]
      case Num(n) =>
        RunAppend(ar, stack + [ar.lit(n)], a[1..], b);
      case Op(c) =>
        if |stack| >= 2 && IsBinaryOp(c) {
          var v := Apply(ar, c, stack[|stack| - 2], stack[|stack| - 1]).value;
          RunAppend(ar, stack[..|stack| - 2] + [v], a[1..], b);
        }
    }
  }

  /** One token of the fold. */
  lemma RunCons<V>(ar: Arith<V>, stack: seq<V>, t: Token, rest: seq<Token>)
    ensures Run(ar, stack, [t] + rest) == match t
      case Num(n) => Run(ar, stack + [ar.lit(n)], rest)
      case Op(c) =>
        if |stack| < 2 then Err(InvalidSyntax)
        else match Apply(ar, c, stack[|stack| - 2], stack[|stack| - 1])
          case Err(e) => Err(e)
          case Ok(v) => Run(ar, stack[..|stack| - 2] + [v], rest)
  {
  }

  /** An operator takes `a`, the second value from the top, as its left
      operand and `b`, the top, as its right one; the values below are left
      as they are and the stack shrinks by one. */
  lemma OperatorReplacesTopTwo<V>(ar: Arith<V>, stack: seq<V>, c: char)
    requires |stack| >= 2 && IsBinaryOp(c)
    ensures var a, b := stack[|stack| - 2], stack[|stack| - 1];
      Run(ar, stack, [Op(c)]) == Ok(stack[..|stack| - 2] + [Apply(ar, c, a, b).value])
  {
  }

  /** The outcome of `calculateRPN` in terms of the token list alone: a value
      exactly when the fold never stops and leaves one value; the
      out-of-range index exactly when it leaves none; invalid syntax when it
      leaves more, or when an operator lacks operands. */
  lemma EvaluateOutcome<V>(ar: Arith<V>, rpn: seq<Token>)
    ensures Evaluate(ar, rpn).Ok? <==> Clean(0, rpn) && Net(rpn) == 1
    ensures Evaluate(ar, rpn) == Err(IndexOutOfRange) <==> Clean(0, rpn) && Net(rpn) == 0
    ensures Clean(0, rpn) && Net(rpn) > 1 ==> Evaluate(ar, rpn) == Err(InvalidSyntax)
    ensures Clean(0, rpn) && Net(rpn) == 1 ==> Evaluate(ar, rpn) == Ok(Run(ar, [], rpn).value[0])
  {
    RunOkIff(ar, [], rpn);
  }
}
