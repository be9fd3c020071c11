/** Tokens, errors and character classes shared by the infix-to-postfix
    converter and the postfix evaluator of the `suan` calculator. */
module Tokens {

  /** An item of the reverse-Polish list: a number literal or an operator
      symbol. The source keeps operators as one-character strings; an
      unmatched `(` can reach the list, so `Op` is not restricted to the five
      arithmetic symbols. */
  datatype Token = Num(n: nat) | Op(c: char)

  /** The failures of one evaluation call. */
  datatype Error =
    | UnknownChar(pos: nat, ch: char)   // converter: character outside the alphabet
    | InvalidSyntax                     // evaluator: too few operands, or values left over
    | UnknownOperator(op: char)         // evaluator: symbol outside + - * / ^
    | IndexOutOfRange                   // evaluator: empty final stack (a runtime panic in the source)

  datatype Result<+T> = Ok(value: T) | Err(error: Error)

  predicate IsDigit(c: char) {
    '0' <= c <= '9'
  }

  function DigitValue(c: char): nat
    requires IsDigit(c)
  {
    (c as int) - ('0' as int)
  }

  predicate IsBinaryOp(c: char) {
    c == '+' || c == '-' || c == '*' || c == '/' || c == '^'
  }

  /** Every character the converter accepts. */
  predicate Allowed(c: char) {
    IsDigit(c) || c == ' ' || IsBinaryOp(c) || c == '(' || c == ')'
  }

  /** Every character of `s` is one the converter accepts. */
  predicate AllAllowed(s: string) {
    forall j :: 0 <= j < |s| ==> Allowed(s[j])
  }

  /** Binding strength of the arithmetic operators: `^` over `* /` over `+ -`. */
  function Prec(c: char): nat
    requires IsBinaryOp(c)
  {
    if c == '^' then 3 else if c == '*' || c == '/' then 2 else 1
  }

  /** Does an incoming `incoming` pop a stacked `top` off the operator stack?
      Each binary operator carries its own list of poppable symbols; `)` pops
      anything that is not `(`. */
  function Pops(incoming: char, top: char): (r: bool)
    ensures r ==> top != '(' && (incoming == ')' || IsBinaryOp(incoming))
    ensures incoming == ')' ==> (r <==> top != '(')
    ensures IsBinaryOp(incoming) && r ==> IsBinaryOp(top)
  {
    if incoming == '^' then top == '^'
    else if incoming == '*' || incoming == '/' then top == '^' || top == '*' || top == '/'
    else if incoming == '+' || incoming == '-' then IsBinaryOp(top)
    else if incoming == ')' then top != '('
    else false
  }

  /** The numbers of a token list, in order. */
  function NumsOf(ts: seq<Token>): seq<nat>
  {
    if |ts| == 0 then []
    else NumsOf(ts[..|ts| - 1]) + (if ts[|ts| - 1].Num? then [ts[|ts| - 1].n] else [])
  }

  /** The operator symbols of a token list, in order. */
  function OpsOf(ts: seq<Token>): seq<char>
  {
    if |ts| == 0 then []
    else OpsOf(ts[..|ts| - 1]) + (if ts[|ts| - 1].Op? then [ts[|ts| - 1].c] else [])
  }

  /** How often the symbol `c` occurs as an operator token in `ts`. */
  function OpCount(ts: seq<Token>, c: char): nat
  {
    multiset(OpsOf(ts))[c]
  }

  lemma FiltersOfSingleton(t: Token)
    ensures NumsOf([t]) == (if t.Num? then [t.n] else [])
    ensures OpsOf([t]) == (if t.Op? then [t.c] else [])
  {
    assert [t][..0] == [];
  }

  lemma {:induction false} FiltersOfAppend(a: seq<Token>, b: seq<Token>)
    ensures NumsOf(a + b) == NumsOf(a) + NumsOf(b)
    ensures OpsOf(a + b) == OpsOf(a) + OpsOf(b)
    decreases |b|
  {
    if |b| == 0 {
      assert a + b == a;
    } else {
      var b' := b[..|b| - 1];
      assert (a + b)[..|a + b| - 1] == a + b';
      FiltersOfAppend(a, b');
    }
  }
}
