/** The infix-to-postfix converter (`generateRPN`): a single left-to-right
    Shunting-Yard pass over the expression with an output list and an
    operator stack. Stacks are sequences whose last element is the top. */
module Converter {
  import opened Tokens

  /** Scanner state: the postfix output so far, the pending operators, and
      the number being accumulated (`foundNum` says whether a digit run is
      open). */
  datatype ScanState = ScanState(output: seq<Token>, ops: seq<char>, acc: nat, foundNum: bool)

  const Init := ScanState([], [], 0, false)

  /** The operator tokens of a stack in the order they are popped: top first. */
  function Lifo(s: seq<char>): (r: seq<Token>)
    ensures |r| == |s|
  {
    if |s| == 0 then [] else [Op(s[|s| - 1])] + Lifo(s[..|s| - 1])
  }

  /** Position by position, the stack's bottom element comes out last. */
  lemma {:induction false} LifoOrder(s: seq<char>)
    ensures forall j :: 0 <= j < |s| ==> Lifo(s)[|s| - 1 - j] == Op(s[j])
    decreases |s|
  {
    if |s| > 0 {
      LifoOrder(s[..|s| - 1]);
    }
  }

  /** Popping a stack produces operator tokens only, one per stacked symbol. */
  lemma {:induction false} LifoFilters(s: seq<char>)
    ensures NumsOf(Lifo(s)) == []
    ensures multiset(OpsOf(Lifo(s))) == multiset(s)
    decreases |s|
  {
    if |s| > 0 {
      var top := s[|s| - 1];
      assert s == s[..|s| - 1] + [top];
      LifoFilters(s[..|s| - 1]);
      FiltersOfSingleton(Op(top));
      FiltersOfAppend([Op(top)], Lifo(s[..|s| - 1]));
    }
  }

  /** Pops operators from the top of `ops` onto `out` for as long as the top
      is one the incoming symbol pops. The result is the new output and the
      stack that remains. */
  function PopWhile(out: seq<Token>, ops: seq<char>, incoming: char): (r: (seq<Token>, seq<char>))
    // what remains is a bottom part of the stack, whose top the rule stops at
    ensures |r.1| <= |ops| && r.1 == ops[..|r.1|]
    ensures |r.1| > 0 ==> !Pops(incoming, r.1[|r.1| - 1])
    // everything above it was poppable, and went to the output top first
    ensures forall j :: |r.1| <= j < |ops| ==> Pops(incoming, ops[j])
    ensures r.0 == out + Lifo(ops[|r.1|..])
    decreases |ops|
  {
    if |ops| > 0 && Pops(incoming, ops[|ops| - 1]) then
      var top := ops[|ops| - 1];
      var below := ops[..|ops| - 1];
      var r := PopWhile(out + [Op(top)], below, incoming);
      assert r.1 == ops[..|r.1|];
      assert ops[|r.1|..][..|ops| - |r.1| - 1] == below[|r.1|..];
      r
    else
      (out, ops)
  }

  /** Popping moves operators and nothing else: numbers are untouched and
      the popped symbols are exactly the part of the stack that went away. */
  lemma PopWhileConserves(out: seq<Token>, ops: seq<char>, incoming: char)
    ensures var r := PopWhile(out, ops, incoming);
      && NumsOf(r.0) == NumsOf(out)
      && multiset(OpsOf(r.0)) == multiset(OpsOf(out)) + multiset(ops[|r.1|..])
  {
    var r := PopWhile(out, ops, incoming);
    FiltersOfAppend(out, Lifo(ops[|r.1|..]));
    LifoFilters(ops[|r.1|..]);
  }

  /** The end-of-input flush: the whole operator stack is moved to the
      output, top first, unmatched `(` included. */
  function Flush(out: seq<Token>, ops: seq<char>): (r: seq<Token>)
    ensures r == out + Lifo(ops)
    decreases |ops|
  {
    if |ops| == 0 then out
    else
      var top := ops[|ops| - 1];
      assert out + Lifo(ops) == out + [Op(top)] + Lifo(ops[..|ops| - 1]);
      Flush(out + [Op(top)], ops[..|ops| - 1])
  }

  lemma FlushConserves(out: seq<Token>, ops: seq<char>)
    ensures NumsOf(Flush(out, ops)) == NumsOf(out)
    ensures multiset(OpsOf(Flush(out, ops))) == multiset(OpsOf(out)) + multiset(ops)
  {
    FiltersOfAppend(out, Lifo(ops));
    LifoFilters(ops);
  }

  /** Closes an open digit run: its value goes to the output. */
  function Flushed(st: ScanState): (r: ScanState)
    ensures !r.foundNum && r.ops == st.ops
    ensures r.output == st.output + (if st.foundNum then [Num(st.acc)] else [])
    ensures !st.foundNum ==> r == st
  {
    if st.foundNum then st.(output := st.output + [Num(st.acc)], acc := 0, foundNum := false)
    else st
  }

  /** An arithmetic operator: pop what its rule allows, then push it. */
  function PushOperator(f: ScanState, c: char): ScanState
  {
    var (out, ops) := PopWhile(f.output, f.ops, c);
    f.(output := out, ops := ops + [c])
  }

  /** The operator lands on top of the bottom part of the stack that its pop
      loop kept; every symbol above that part was poppable and went to the
      output, top first. */
  lemma PushOperatorLands(f: ScanState, c: char)
    ensures var r := PushOperator(f, c);
      && 0 < |r.ops| <= |f.ops| + 1 && r.ops[|r.ops| - 1] == c
      && r.ops[..|r.ops| - 1] == f.ops[..|r.ops| - 1]
      && (|r.ops| > 1 ==> !Pops(c, r.ops[|r.ops| - 2]))
      && (forall j :: |r.ops| - 1 <= j < |f.ops| ==> Pops(c, f.ops[j]))
      && r.output == f.output + Lifo(f.ops[|r.ops| - 1..])
      && r.acc == f.acc && r.foundNum == f.foundNum
  {
  }

  /** A `)`: pop down to the topmost `(` and drop that one `(`; with no `(`
      on the stack the stack is emptied. */
  function CloseParen(f: ScanState): ScanState
  {
    var (out, ops) := PopWhile(f.output, f.ops, ')');
    var ops' := if |ops| > 0 && ops[|ops| - 1] == '(' then ops[..|ops| - 1] else ops;
    f.(output := out, ops := ops')
  }

  /** A `)` keeps a bottom part of the stack. Above it sits the topmost `(`,
      which is dropped while everything above that `(` goes to the output,
      top first; with no `(` on the stack, the whole stack goes out. */
  lemma CloseParenSplits(f: ScanState)
    ensures var r := CloseParen(f);
      && |r.ops| <= |f.ops| && r.ops == f.ops[..|r.ops|]
      && (forall j :: |r.ops| < j < |f.ops| ==> f.ops[j] != '(')
      && (|r.ops| < |f.ops| && f.ops[|r.ops|] == '(' ==>
            r.output == f.output + Lifo(f.ops[|r.ops| + 1..]))
      && (|r.ops| == |f.ops| || f.ops[|r.ops|] != '(' ==>
            r.ops == [] && r.output == f.output + Lifo(f.ops))
      && r.acc == f.acc && r.foundNum == f.foundNum
  {
  }

  /** One character of the scan; `pos` is its position in the expression. */
  function Step(st: ScanState, pos: nat, c: char): (r: Result<ScanState>)
    ensures r.Err? <==> !Allowed(c)
    ensures r.Err? ==> r.error == UnknownChar(pos, c)
    ensures r.Ok? && IsDigit(c) ==> r.value.foundNum && r.value.output == st.output && r.value.ops == st.ops
    ensures r.Ok? && !IsDigit(c) ==> !r.value.foundNum
  {
    if IsDigit(c) then
      Ok(st.(acc := (if st.foundNum then st.acc else 0) * 10 + DigitValue(c), foundNum := true))
    else
      var f := Flushed(st);
      if c == ' ' then
        Ok(f)
      else if IsBinaryOp(c) then
        Ok(PushOperator(f, c))
      else if c == '(' then
        Ok(f.(ops := f.ops + [c]))
      else if c == ')' then
        Ok(CloseParen(f))
      else
        Err(UnknownChar(pos, c))
  }

  /** The scan over the characters `rest`, the first of which sits at `pos`. */
  function Scan(rest: string, pos: nat, st: ScanState): (r: Result<ScanState>)
    ensures r.Ok? <==> AllAllowed(rest)
    ensures r.Err? ==> r.error.UnknownChar?
    decreases |rest|
  {
    if |rest| == 0 then Ok(st)
    else
      match Step(st, pos, rest[0])
      case Err(e) => Err(e)
      case Ok(st') => Scan(rest[1..], pos + 1, st')
  }

  /** End of input: a pending number is emitted, then the operator stack is
      flushed. */
  function Finish(st: ScanState): (r: seq<Token>)
    ensures r == st.output + (if st.foundNum then [Num(st.acc)] else []) + Lifo(st.ops)
  {
    var f := Flushed(st);
    Flush(f.output, f.ops)
  }

  /** `generateRPN`: the postfix token list of an infix expression, or the
      first character the converter does not accept, with its position. */
  function Generate(s: string): (r: Result<seq<Token>>)
    ensures r.Ok? <==> AllAllowed(s)
    ensures r.Err? ==> r.error.UnknownChar?
  {
    match Scan(s, 0, Init)
    case Err(e) => Err(e)
    case Ok(st) => Ok(Finish(st))
  }
}
