/** Properties of the converter: the popping rules, the rejection of
    foreign characters, where every operator symbol ends up, and how digit
    runs become numbers. */
module ConverterProps {
  import opened Tokens
  import opened Converter

  // ---------------------------------------------------------------------
  // Popping rules
  // ---------------------------------------------------------------------

  /** For an arithmetic operator, the symbol lists of the source are the
      precedence rule "pop while the stacked operator binds at least as
      tightly": equal precedence pops too, so every operator, `^` included,
      associates to the left. */
  lemma PopRuleIsPrecedence(incoming: char, top: char)
    requires IsBinaryOp(incoming)
    ensures Pops(incoming, top) <==> IsBinaryOp(top) && Prec(top) >= Prec(incoming)
  {
  }

  /** No rule pops an open parenthesis. */
  lemma ParenIsNeverPopped(incoming: char)
    ensures !Pops(incoming, '(')
  {
  }

  // ---------------------------------------------------------------------
  // Rejection
  // ---------------------------------------------------------------------

  /** The scan stops at the first character outside the alphabet and
      reports it with its own position. */
  lemma {:induction false} ScanStopsAtFirstBad(rest: string, pos: nat, st: ScanState, i: nat)
    requires i < |rest| && !Allowed(rest[i])
    requires forall j :: 0 <= j < i ==> Allowed(rest[j])
    ensures Scan(rest, pos, st) == Err(UnknownChar(pos + i, rest[i]))
    decreases i
  {
    if i > 0 {
      var st' := Step(st, pos, rest[0]).value;
      ScanStopsAtFirstBad(rest[1..], pos + 1, st', i - 1);
    }
  }

  /** `generateRPN` fails exactly at the first character that is not a
      digit, a space, an operator or a parenthesis, naming that character and
      its position; tabs and other white space are not skipped. */
  lemma GenerateRejectsFirstBad(s: string, i: nat)
    requires i < |s| && !Allowed(s[i])
    requires forall j :: 0 <= j < i ==> Allowed(s[j])
    ensures Generate(s) == Err(UnknownChar(i, s[i]))
  {
    ScanStopsAtFirstBad(s, 0, Init, i);
  }

  // ---------------------------------------------------------------------
  // Where the operator symbols go
  // ---------------------------------------------------------------------

  /** Open `(` after one more character: `(` opens one, `)` closes one if
      any is open. */
  function Track(d: nat, ch: char): nat
  {
    if ch == '(' then d + 1 else if ch == ')' && d > 0 then d - 1 else d
  }

  /** The number of `(` left open after reading `s`, starting from `d`
      open ones. */
  function DepthAfter(d: nat, s: string): nat
    decreases |s|
  {
    if |s| == 0 then d else DepthAfter(Track(d, s[0]), s[1..])
  }

  /** The `(` of `s` that no `)` closes. */
  function Unmatched(s: string): nat
  {
    DepthAfter(0, s)
  }

  /** Closing a digit run emits a number and no operator. */
  lemma FlushedFilters(st: ScanState)
    ensures OpsOf(Flushed(st).output) == OpsOf(st.output)
    ensures NumsOf(Flushed(st).output) == NumsOf(st.output) + (if st.foundNum then [st.acc] else [])
    ensures Flushed(st).ops == st.ops && !Flushed(st).foundNum
  {
    if st.foundNum {
      FiltersOfAppend(st.output, [Num(st.acc)]);
      FiltersOfSingleton(Num(st.acc));
    }
  }

  /** What a pop loop removes is the top part of the stack, and it holds no
      `(`. */
  lemma PopWhileSplits(out: seq<Token>, ops: seq<char>, incoming: char)
    ensures var r := PopWhile(out, ops, incoming);
      && multiset(ops) == multiset(r.1) + multiset(ops[|r.1|..])
      && '(' !in ops[|r.1|..]
  {
    var r := PopWhile(out, ops, incoming);
    assert ops == r.1 + ops[|r.1|..];
    ParenIsNeverPopped(incoming);
  }

  /** A pop loop moves symbols from the stack to the output, never a `(`. */
  lemma PopCounts(out: seq<Token>, ops: seq<char>, incoming: char, c: char)
    ensures var r := PopWhile(out, ops, incoming);
      && OpCount(r.0, c) + multiset(r.1)[c] == OpCount(out, c) + multiset(ops)[c]
      && OpCount(r.0, '(') == OpCount(out, '(')
  {
    PopWhileSplits(out, ops, incoming);
    PopWhileConserves(out, ops, incoming);
  }

  /** The loop of `)` stops right under the topmost `(` when there is one,
      and leaves every `(` on the stack. */
  lemma CloseStopsAtParen(out: seq<Token>, ops: seq<char>)
    ensures var r := PopWhile(out, ops, ')');
      && multiset(r.1)['('] == multiset(ops)['(']
      && (multiset(ops)['('] > 0 ==> |r.1| > 0 && r.1[|r.1| - 1] == '(')
  {
    PopWhileSplits(out, ops, ')');
  }

  /** An arithmetic operator's pop loop leaves every `(` on the stack. */
  lemma OperatorKeepsParens(out: seq<Token>, ops: seq<char>, incoming: char)
    requires IsBinaryOp(incoming)
    ensures multiset(PopWhile(out, ops, incoming).1)['('] == multiset(ops)['(']
  {
    PopWhileSplits(out, ops, incoming);
  }

  /** A `)` with a `(` on the stack: everything above the topmost `(`
      (at index `k`) goes to the output, top first, and that `(` is
      removed; the stack below it is untouched. */
  lemma CloseParenMatches(f: ScanState, k: nat)
    requires k < |f.ops| && f.ops[k] == '('
    requires forall j :: k < j < |f.ops| ==> f.ops[j] != '('
    ensures CloseParen(f).ops == f.ops[..k]
    ensures CloseParen(f).output == f.output + Lifo(f.ops[k + 1..])
  {
  }

  /** A `)` with no `(` on the stack empties the stack into the output. */
  lemma CloseParenUnmatched(f: ScanState)
    requires forall j :: 0 <= j < |f.ops| ==> f.ops[j] != '('
    ensures CloseParen(f).ops == []
    ensures CloseParen(f).output == f.output + Lifo(f.ops)
  {
  }

  /** The counting facts of one step from `st` to `st'` reading `ch`: the
      symbols other than `(` move between stack and output, plus the symbol
      read when it is an arithmetic operator; `(` never reaches the output;
      the `(` on the stack follow `Track`. */
  predicate CountsKept(st: ScanState, st': ScanState, ch: char, c: char) {
    && (c != '(' ==>
          OpCount(st'.output, c) + multiset(st'.ops)[c]
          == OpCount(st.output, c) + multiset(st.ops)[c] + (if ch == c && IsBinaryOp(c) then 1 else 0))
    && OpCount(st'.output, '(') == OpCount(st.output, '(')
    && multiset(st'.ops)['('] == Track(multiset(st.ops)['('], ch)
  }

  /** Every step keeps the counts. */
  lemma StepCounts(st: ScanState, pos: nat, ch: char, c: char)
    requires Step(st, pos, ch).Ok?
    ensures CountsKept(st, Step(st, pos, ch).value, ch, c)
  {
    if IsBinaryOp(ch) {
      StepOperatorCounts(st, pos, ch, c);
    } else if ch == ')' {
      StepCloseCounts(st, pos, c);
    } else if ch == '(' {
      StepOpenCounts(st, pos, c);
    } else {
      StepOtherCounts(st, pos, ch, c);
    }
  }

  lemma StepOtherCounts(st: ScanState, pos: nat, ch: char, c: char)
    requires Step(st, pos, ch).Ok? && !IsBinaryOp(ch) && ch != '(' && ch != ')'
    ensures CountsKept(st, Step(st, pos, ch).value, ch, c)
  {
    if !IsDigit(ch) {
      FlushedFilters(st);
    }
  }

  lemma StepOpenCounts(st: ScanState, pos: nat, c: char)
    ensures CountsKept(st, Step(st, pos, '(').value, '(', c)
  {
    var f := Flushed(st);
    FlushedFilters(st);
    assert Step(st, pos, '(').value == f.(ops := f.ops + ['(']);
  }

  lemma StepOperatorCounts(st: ScanState, pos: nat, ch: char, c: char)
    requires IsBinaryOp(ch)
    ensures CountsKept(st, Step(st, pos, ch).value, ch, c)
  {
    var f := Flushed(st);
    FlushedFilters(st);
    assert Step(st, pos, ch).value == PushOperator(f, ch);
    PushOperatorCounts(f, ch, c);
  }

  lemma StepCloseCounts(st: ScanState, pos: nat, c: char)
    ensures CountsKept(st, Step(st, pos, ')').value, ')', c)
  {
    var f := Flushed(st);
    FlushedFilters(st);
    assert Step(st, pos, ')').value == CloseParen(f);
    CloseParenCounts(f, c);
  }

  lemma PushOperatorCounts(f: ScanState, ch: char, c: char)
    requires IsBinaryOp(ch)
    ensures CountsKept(f, PushOperator(f, ch), ch, c)
  {
    PopCounts(f.output, f.ops, ch, c);
    OperatorKeepsParens(f.output, f.ops, ch);
    PushOperatorPushes(f, ch);
  }

  /** An operator pops its loop and then lands on the stack. */
  lemma PushOperatorPushes(f: ScanState, ch: char)
    ensures var r := PopWhile(f.output, f.ops, ch);
      && PushOperator(f, ch).output == r.0
      && multiset(PushOperator(f, ch).ops) == multiset(r.1) + multiset{ch}
  {
  }

  /** A `)` pops its loop and then drops one `(` exactly when one is on the
      stack. */
  lemma CloseParenDropsOne(f: ScanState)
    ensures var r := PopWhile(f.output, f.ops, ')');
      && CloseParen(f).output == r.0
      && multiset(r.1) == multiset(CloseParen(f).ops)
           + (if multiset(f.ops)['('] > 0 then multiset{'('} else multiset{})
  {
    var r := PopWhile(f.output, f.ops, ')');
    var ops' := CloseParen(f).ops;
    CloseStopsAtParen(f.output, f.ops);
    if |r.1| > 0 && r.1[|r.1| - 1] == '(' {
      assert r.1 == ops' + ['('];
    }
  }

  lemma CloseParenCounts(f: ScanState, c: char)
    ensures CountsKept(f, CloseParen(f), ')', c)
  {
    PopCounts(f.output, f.ops, ')', c);
    CloseStopsAtParen(f.output, f.ops);
    CloseParenDropsOne(f);
  }

  /** Over a whole scan: every arithmetic symbol read is either still on the
      stack or in the output, `(` never reaches the output, and the `(` on
      the stack are the ones left open. */
  lemma {:induction false} ScanCounts(rest: string, pos: nat, st: ScanState, c: char)
    requires Scan(rest, pos, st).Ok?
    ensures var st' := Scan(rest, pos, st).value;
      && (c != '(' ==>
            OpCount(st'.output, c) + multiset(st'.ops)[c]
            == OpCount(st.output, c) + multiset(st.ops)[c] + (if IsBinaryOp(c) then multiset(rest)[c] else 0))
      && OpCount(st'.output, '(') == OpCount(st.output, '(')
      && multiset(st'.ops)['('] == DepthAfter(multiset(st.ops)['('], rest)
    decreases |rest|
  {
    if |rest| > 0 {
      var st1 := Step(st, pos, rest[0]).value;
      StepCounts(st, pos, rest[0], c);
      StepCounts(st, pos, rest[0], '(');
      ScanCounts(rest[1..], pos + 1, st1, c);
      assert rest == [rest[0]] + rest[1..];
    }
  }

  /** Token conservation for `generateRPN`: each of `+ - * / ^` is emitted
      exactly as often as it is written, `(` is emitted once per unmatched
      `(` (by the end-of-input flush), and no other symbol, `)` included,
      is ever emitted. */
  lemma GenerateOperatorCounts(s: string, c: char)
    requires Generate(s).Ok?
    ensures OpCount(Generate(s).value, c)
         == if IsBinaryOp(c) then multiset(s)[c] else if c == '(' then Unmatched(s) else 0
  {
    var st := Scan(s, 0, Init).value;
    var f := Flushed(st);
    ScanCounts(s, 0, Init, c);
    ScanCounts(s, 0, Init, '(');
    FlushConserves(f.output, f.ops);
    FlushedFilters(st);
  }

  // ---------------------------------------------------------------------
  // Numbers
  // ---------------------------------------------------------------------

  /** Length of the maximal run of digits at the front of `s`. */
  function RunLength(s: string): (k: nat)
    ensures k <= |s|
    ensures forall j :: 0 <= j < k ==> IsDigit(s[j])
    ensures k < |s| ==> !IsDigit(s[k])
    decreases |s|
  {
    if |s| == 0 || !IsDigit(s[0]) then 0 else 1 + RunLength(s[1..])
  }

  /** Decimal value of a digit string, read most significant digit first,
      continuing from an already accumulated value `acc`. */
  function Horner(acc: nat, ds: string): nat
    requires forall j :: 0 <= j < |ds| ==> IsDigit(ds[j])
    decreases |ds|
  {
    if |ds| == 0 then acc else Horner(acc * 10 + DigitValue(ds[0]), ds[1..])
  }

  /** The decimal values of the maximal digit runs of `s`, in order. */
  function Runs(s: string): seq<nat>
    decreases |s|
  {
    if |s| == 0 then []
    else if !IsDigit(s[0]) then Runs(s[1..])
    else
      var k := RunLength(s);
      [Horner(0, s[..k])] + Runs(s[k..])
  }

  /** The runs of `t` when a run is already open with value `acc` (if
      `open`): the leading digits of `t` continue it. */
  function RunsFrom(acc: nat, open: bool, t: string): seq<nat>
  {
    if open then
      var k := RunLength(t);
      [Horner(acc, t[..k])] + Runs(t[k..])
    else Runs(t)
  }

  lemma RunsFromDigit(acc: nat, open: bool, ch: char, t: string)
    requires IsDigit(ch)
    ensures RunsFrom(acc, open, [ch] + t) == RunsFrom((if open then acc else 0) * 10 + DigitValue(ch), true, t)
  {
    var s := [ch] + t;
    assert s[1..] == t;
    var k := RunLength(s);
    assert k == 1 + RunLength(t);
    assert s[..k][1..] == t[..k - 1];
    assert s[k..] == t[k - 1..];
  }

  lemma RunsFromNonDigit(acc: nat, open: bool, ch: char, t: string)
    requires !IsDigit(ch)
    ensures RunsFrom(acc, open, [ch] + t) == (if open then [acc] else []) + Runs(t)
  {
    var s := [ch] + t;
    assert s[1..] == t;
    assert s[..0] == [] && s[0..] == s;
  }

  /** A non-digit closes an open run; no other number is emitted. */
  lemma StepNumbers(st: ScanState, pos: nat, ch: char)
    requires Step(st, pos, ch).Ok? && !IsDigit(ch)
    ensures NumsOf(Step(st, pos, ch).value.output) == NumsOf(st.output) + (if st.foundNum then [st.acc] else [])
  {
    var f := Flushed(st);
    FlushedFilters(st);
    if IsBinaryOp(ch) || ch == ')' {
      PopWhileConserves(f.output, f.ops, ch);
    }
  }

  /** At the end of the input only the pending number is left to emit. */
  lemma NumbersAtEnd(st: ScanState)
    ensures NumsOf(Flushed(st).output) == NumsOf(st.output) + RunsFrom(st.acc, st.foundNum, [])
  {
    var e: string := [];
    assert RunsFrom(st.acc, st.foundNum, e) == (if st.foundNum then [st.acc] else []) by {
      assert RunLength(e) == 0 && e[..0] == e && e[0..] == e;
      assert Runs(e) == [] && Horner(st.acc, e) == st.acc;
    }
    FlushedFilters(st);
  }

  /** One character moves the numbers between the output and the runs still
      to be read without changing their sequence. */
  lemma StepRuns(st: ScanState, pos: nat, ch: char, t: string)
    requires Step(st, pos, ch).Ok?
    ensures var st1 := Step(st, pos, ch).value;
      NumsOf(st1.output) + RunsFrom(st1.acc, st1.foundNum, t)
      == NumsOf(st.output) + RunsFrom(st.acc, st.foundNum, [ch] + t)
  {
    var st1 := Step(st, pos, ch).value;
    if IsDigit(ch) {
      assert st1 == st.(acc := (if st.foundNum then st.acc else 0) * 10 + DigitValue(ch), foundNum := true);
      RunsFromDigit(st.acc, st.foundNum, ch, t);
    } else {
      var closed := if st.foundNum then [st.acc] else [];
      assert RunsFrom(st1.acc, st1.foundNum, t) == Runs(t);
      RunsFromNonDigit(st.acc, st.foundNum, ch, t);
      StepNumbers(st, pos, ch);
      assert NumsOf(st1.output) + Runs(t) == NumsOf(st.output) + (closed + Runs(t));
    }
  }

  /** Over a whole scan, the numbers emitted (counting the pending one) are
      the digit runs read, the first of which may continue an open run. */
  lemma {:induction false} ScanNumbers(rest: string, pos: nat, st: ScanState)
    requires Scan(rest, pos, st).Ok?
    ensures NumsOf(Flushed(Scan(rest, pos, st).value).output)
         == NumsOf(st.output) + RunsFrom(st.acc, st.foundNum, rest)
    decreases |rest|
  {
    if |rest| == 0 {
      NumbersAtEnd(st);
      assert rest == [];
    } else {
      var st1 := Step(st, pos, rest[0]).value;
      assert Scan(rest, pos, st) == Scan(rest[1..], pos + 1, st1);
      ScanNumbers(rest[1..], pos + 1, st1);
      StepRuns(st, pos, rest[0], rest[1..]);
      assert rest == [rest[0]] + rest[1..];
    }
  }

  /** Number tokens of `generateRPN` are the maximal digit runs of the
      expression, each read as a decimal number, in input order; a space or
      any other non-digit ends a run. */
  lemma GenerateNumbers(s: string)
    requires Generate(s).Ok?
    ensures NumsOf(Generate(s).value) == Runs(s)
  {
    var f := Flushed(Scan(s, 0, Init).value);
    assert Generate(s).value == f.output + Lifo(f.ops);
    assert NumsOf(f.output) == Runs(s) by {
      ScanNumbers(s, 0, Init);
    }
    FiltersOfAppend(f.output, Lifo(f.ops));
    LifoFilters(f.ops);
  }

  function DigitChar(d: nat): (c: char)
    requires d < 10
    ensures IsDigit(c) && DigitValue(c) == d
  {
    (('0' as int) + d) as char
  }

  /** The decimal numeral of `n`, without leading zeros. */
  function Digits(n: nat): (r: string)
    ensures |r| > 0
    ensures forall j :: 0 <= j < |r| ==> IsDigit(r[j])
  {
    if n < 10 then [DigitChar(n)] else Digits(n / 10) + [DigitChar(n % 10)]
  }

  lemma {:induction false} HornerAppend(acc: nat, a: string, b: string)
    requires forall j :: 0 <= j < |a| ==> IsDigit(a[j])
    requires forall j :: 0 <= j < |b| ==> IsDigit(b[j])
    ensures forall j :: 0 <= j < |a + b| ==> IsDigit((a + b)[j])
    ensures Horner(acc, a + b) == Horner(Horner(acc, a), b)
    decreases |a|
  {
    if |a| > 0 {
      assert (a + b)[1..] == a[1..] + b;
      HornerAppend(acc * 10 + DigitValue(a[0]), a[1..], b);
    } else {
      assert a + b == b;
    }
  }

  /** The numeral reads back as the number: the converter's accumulation
      inverts `Digits`. */
  lemma {:induction false} DigitsRoundTrip(n: nat)
    ensures Horner(0, Digits(n)) == n
  {
    if n >= 10 {
      DigitsRoundTrip(n / 10);
      HornerAppend(0, Digits(n / 10), [DigitChar(n % 10)]);
      assert [DigitChar(n % 10)][1..] == [];
    } else {
      assert [DigitChar(n)][1..] == [];
    }
  }

  // ---------------------------------------------------------------------
  // Scanning piece by piece
  // ---------------------------------------------------------------------

  /** One step of a scan. */
  lemma ScanCons(c: char, t: string, pos: nat, st: ScanState)
    ensures Scan([c] + t, pos, st) == match Step(st, pos, c)
      case Err(e) => Err(e)
      case Ok(st') => Scan(t, pos + 1, st')
  {
    assert ([c] + t)[1..] == t;
  }

  lemma PopOne(out: seq<Token>, ops: seq<char>, incoming: char)
    requires |ops| > 0 && Pops(incoming, ops[|ops| - 1])
    ensures PopWhile(out, ops, incoming) == PopWhile(out + [Op(ops[|ops| - 1])], ops[..|ops| - 1], incoming)
  {
  }

  lemma PopStop(out: seq<Token>, ops: seq<char>, incoming: char)
    requires |ops| == 0 || !Pops(incoming, ops[|ops| - 1])
    ensures PopWhile(out, ops, incoming) == (out, ops)
  {
  }

  /** Scanning a concatenation is scanning its halves in turn. */
  lemma {:induction false} ScanAppend(a: string, b: string, pos: nat, st: ScanState)
    ensures Scan(a + b, pos, st) == match Scan(a, pos, st)
      case Err(e) => Err(e)
      case Ok(st') => Scan(b, pos + |a|, st')
    decreases |a|
  {
    if |a| == 0 {
      assert a + b == b;
    } else {
      assert (a + b)[0] == a[0];
      assert (a + b)[1..] == a[1..] + b;
      match Step(st, pos, a[0])
      case Err(_) =>
      case Ok(st') =>
        ScanAppend(a[1..], b, pos + 1, st');
    }
  }

  /** Scanning continues from where a first part left off. */
  lemma ScanThen(a: string, b: string, pos: nat, st: ScanState, mid: ScanState)
    requires Scan(a, pos, st) == Ok(mid)
    ensures Scan(a + b, pos, st) == Scan(b, pos + |a|, mid)
  {
    ScanAppend(a, b, pos, st);
  }

  /** A numeral opens a run and leaves its value in the accumulator. */
  lemma {:induction false} ScanDigits(n: nat, pos: nat, st: ScanState)
    requires !st.foundNum
    ensures Scan(Digits(n), pos, st) == Ok(st.(acc := n, foundNum := true))
    decreases n
  {
    if n < 10 {
      ScanCons(DigitChar(n), [], pos, st);
      assert [DigitChar(n)] + [] == Digits(n);
    } else {
      var d := DigitChar(n % 10);
      ScanAppend(Digits(n / 10), [d], pos, st);
      ScanDigits(n / 10, pos, st);
      ScanCons(d, [], pos + |Digits(n / 10)|, st.(acc := n / 10, foundNum := true));
      assert [d] + [] == [d];
    }
  }

  /** No digit run open and nothing accumulated. */
  predicate Idle(st: ScanState) {
    !st.foundNum && st.acc == 0
  }

  /** The text between two operands closes the left operand's numeral, if
      any, and pushes the operator over the `(` that opened its operation;
      nothing is popped. */
  lemma ScanOperator(op: char, pos: nat, st: ScanState, f: ScanState)
    requires IsBinaryOp(op) && Flushed(st) == f && Idle(f)
    requires |f.ops| > 0 && f.ops[|f.ops| - 1] == '('
    ensures Scan([' ', op, ' '], pos, st) == Ok(f.(ops := f.ops + [op]))
  {
    PopStop(f.output, f.ops, op);
    assert Step(st, pos, ' ') == Ok(f);
    assert Step(f, pos + 1, op) == Ok(f.(ops := f.ops + [op]));
    var f' := f.(ops := f.ops + [op]);
    assert Step(f', pos + 2, ' ') == Ok(f');
    ScanCons(' ', [op, ' '], pos, st);
    ScanCons(op, [' '], pos + 1, f);
    ScanCons(' ', [], pos + 2, f');
    assert [' ', op, ' '] == [' '] + [op, ' '];
    assert [op, ' '] == [op] + [' '];
    assert [' '] == [' '] + [];
  }

  /** The closing parenthesis of an operation emits its operator and
      removes the `(` beneath it. */
  lemma ScanClose(op: char, pos: nat, st: ScanState, f: ScanState)
    requires Flushed(st) == f
    requires |f.ops| >= 2 && f.ops[|f.ops| - 1] == op && f.ops[|f.ops| - 2] == '(' && op != '('
    ensures Scan(")", pos, st) == Ok(f.(output := f.output + [Op(op)], ops := f.ops[..|f.ops| - 2]))
  {
    PopOne(f.output, f.ops, ')');
    PopStop(f.output + [Op(op)], f.ops[..|f.ops| - 1], ')');
    assert f.ops[..|f.ops| - 1][..|f.ops| - 2] == f.ops[..|f.ops| - 2];
    ScanCons(')', [], pos, st);
    assert ")" == [')'] + [];
  }

  /** An opening parenthesis is pushed, then the operand after it is
      scanned. */
  lemma ScanOpen(pl: string, pos: nat, st: ScanState, r1: ScanState)
    requires !st.foundNum
    requires Scan(pl, pos + 1, st.(ops := st.ops + ['('])) == Ok(r1)
    ensures Scan("(" + pl, pos, st) == Ok(r1)
  {
    assert Step(st, pos, '(') == Ok(st.(ops := st.ops + ['(']));
    ScanCons('(', pl, pos, st);
  }

  /** The opening parenthesis, the left operand and the operator of an
      operation. */
  lemma ScanLeft(op: char, pl: string, tl: seq<Token>, pos: nat, st: ScanState)
    requires IsBinaryOp(op) && Idle(st)
    requires var s1 := st.(ops := st.ops + ['(']);
      Scan(pl, pos + 1, s1).Ok? && Flushed(Scan(pl, pos + 1, s1).value) == s1.(output := st.output + tl)
    ensures Scan("(" + pl + [' ', op, ' '], pos, st) == Ok(st.(output := st.output + tl, ops := st.ops + ['('] + [op]))
  {
    var s1 := st.(ops := st.ops + ['(']);
    var r1 := Scan(pl, pos + 1, s1).value;
    var f1 := s1.(output := st.output + tl);
    var a := "(" + pl;
    assert Scan(a, pos, st) == Ok(r1) by {
      ScanOpen(pl, pos, st, r1);
    }
    assert Scan([' ', op, ' '], pos + |a|, r1) == Ok(f1.(ops := f1.ops + [op])) by {
      ScanOperator(op, pos + 1 + |pl|, r1, f1);
    }
    ScanThen(a, [' ', op, ' '], pos, st, r1);
  }

  // ---------------------------------------------------------------------
  // Precedence and associativity
  // ---------------------------------------------------------------------

  /** A numeral followed by an operator, read from a state with no digit run
      open: the number is emitted and the operator goes through its pop
      loop. */
  lemma NumberThenOperator(out: seq<Token>, ops: seq<char>, n: nat, pos: nat, p: char)
    requires IsBinaryOp(p)
    ensures Scan(Digits(n) + [p], pos, ScanState(out, ops, 0, false))
         == Ok(PushOperator(ScanState(out + [Num(n)], ops, 0, false), p))
  {
    var st := ScanState(out, ops, 0, false);
    var mid := ScanState(out, ops, n, true);
    ScanDigits(n, pos, st);
    ScanThen(Digits(n), [p], pos, st, mid);
    ScanCons(p, [], pos + |Digits(n)|, mid);
    assert [p] + [] == [p];
  }

  /** The first operand and operator of `x p y q z`. */
  lemma FirstOperand(x: nat, p: char)
    requires IsBinaryOp(p)
    ensures Scan(Digits(x) + [p], 0, Init) == Ok(ScanState([Num(x)], [p], 0, false))
  {
    NumberThenOperator([], [], x, 0, p);
    PopStop([Num(x)], [], p);
    assert [] + [Num(x)] == [Num(x)] && [] + [p] == [p];
  }

  /** The second operand and operator of `x p y q z`: `q` pops `p` exactly
      when its rule says so. */
  lemma SecondOperand(x: nat, y: nat, p: char, q: char, pos: nat)
    requires IsBinaryOp(p) && IsBinaryOp(q)
    ensures Scan(Digits(y) + [q], pos, ScanState([Num(x)], [p], 0, false))
         == Ok(if Pops(q, p) then ScanState([Num(x), Num(y), Op(p)], [q], 0, false)
               else ScanState([Num(x), Num(y)], [p, q], 0, false))
  {
    var f := ScanState([Num(x), Num(y)], [p], 0, false);
    assert Scan(Digits(y) + [q], pos, ScanState([Num(x)], [p], 0, false)) == Ok(PushOperator(f, q)) by {
      NumberThenOperator([Num(x)], [p], y, pos, q);
      assert [Num(x)] + [Num(y)] == [Num(x), Num(y)];
    }
    PushOverOne([Num(x), Num(y)], p, q);
    assert [Num(x), Num(y)] + [Op(p)] == [Num(x), Num(y), Op(p)];
  }

  /** An operator arriving over a one-symbol stack either pops it or is
      stacked above it. */
  lemma PushOverOne(out: seq<Token>, p: char, q: char)
    ensures PushOperator(ScanState(out, [p], 0, false), q)
         == if Pops(q, p) then ScanState(out + [Op(p)], [q], 0, false)
            else ScanState(out, [p, q], 0, false)
  {
    if Pops(q, p) {
      PopOne(out, [p], q);
      PopStop(out + [Op(p)], [], q);
      assert [p][..0] == [] && [] + [q] == [q];
    } else {
      PopStop(out, [p], q);
      assert [p] + [q] == [p, q];
    }
  }

  /** The scan of `x p y q z`. */
  lemma TwoOperatorsScan(x: nat, y: nat, z: nat, p: char, q: char)
    requires IsBinaryOp(p) && IsBinaryOp(q)
    ensures Scan(Digits(x) + [p] + Digits(y) + [q] + Digits(z), 0, Init)
         == Ok(if Pops(q, p) then ScanState([Num(x), Num(y), Op(p)], [q], z, true)
               else ScanState([Num(x), Num(y)], [p, q], z, true))
  {
    var u := Digits(x) + [p] + (Digits(y) + [q]);
    var st := if Pops(q, p) then ScanState([Num(x), Num(y), Op(p)], [q], 0, false)
              else ScanState([Num(x), Num(y)], [p, q], 0, false);
    TwoOperands(x, y, p, q);
    ThenNumber(u, st, z);
    assert u + Digits(z) == Digits(x) + [p] + Digits(y) + [q] + Digits(z);
  }

  /** `x p y q` leaves `x y` output and either `p` popped by `q` or both stacked. */
  lemma TwoOperands(x: nat, y: nat, p: char, q: char)
    requires IsBinaryOp(p) && IsBinaryOp(q)
    ensures Scan(Digits(x) + [p] + (Digits(y) + [q]), 0, Init)
         == Ok(if Pops(q, p) then ScanState([Num(x), Num(y), Op(p)], [q], 0, false)
               else ScanState([Num(x), Num(y)], [p, q], 0, false))
  {
    var a := Digits(x) + [p];
    FirstOperand(x, p);
    SecondOperand(x, y, p, q, |a|);
    ScanThen(a, Digits(y) + [q], 0, Init, ScanState([Num(x)], [p], 0, false));
  }

  /** A numeral read after a scanned prefix that left no digit run open. */
  lemma ThenNumber(u: string, st: ScanState, n: nat)
    requires Scan(u, 0, Init) == Ok(st) && !st.foundNum
    ensures Scan(u + Digits(n), 0, Init) == Ok(st.(acc := n, foundNum := true))
  {
    ScanDigits(n, |u|, st);
    ScanThen(u, Digits(n), 0, Init, st);
  }

  /** Precedence and associativity over all inputs: in `x p y q z` the
      first operator is applied first (emitted before `z`) exactly when it
      binds at least as tightly as the second, so operators of equal
      precedence, `^` included, associate to the left. */
  lemma TwoOperators(x: nat, y: nat, z: nat, p: char, q: char)
    requires IsBinaryOp(p) && IsBinaryOp(q)
    ensures Generate(Digits(x) + [p] + Digits(y) + [q] + Digits(z))
         == Ok(if Prec(p) >= Prec(q) then [Num(x), Num(y), Op(p), Num(z), Op(q)]
               else [Num(x), Num(y), Num(z), Op(q), Op(p)])
  {
    TwoOperatorsByRule(x, y, z, p, q);
    PopRuleIsPrecedence(q, p);
  }

  /** The same, stated through the popping rule of `q`. */
  lemma TwoOperatorsByRule(x: nat, y: nat, z: nat, p: char, q: char)
    requires IsBinaryOp(p) && IsBinaryOp(q)
    ensures Generate(Digits(x) + [p] + Digits(y) + [q] + Digits(z))
         == Ok(if Pops(q, p) then [Num(x), Num(y), Op(p), Num(z), Op(q)]
               else [Num(x), Num(y), Num(z), Op(q), Op(p)])
  {
    TwoOperatorsScan(x, y, z, p, q);
    TwoOperatorsFinish(Digits(x) + [p] + Digits(y) + [q] + Digits(z), x, y, z, p, q);
  }

  /** The end-of-input flush of the two states `x p y q z` can scan to. */
  lemma TwoOperatorsFinish(s: string, x: nat, y: nat, z: nat, p: char, q: char)
    requires Scan(s, 0, Init)
          == Ok(if Pops(q, p) then ScanState([Num(x), Num(y), Op(p)], [q], z, true)
                else ScanState([Num(x), Num(y)], [p, q], z, true))
    ensures Generate(s)
         == Ok(if Pops(q, p) then [Num(x), Num(y), Op(p), Num(z), Op(q)]
               else [Num(x), Num(y), Num(z), Op(q), Op(p)])
  {
    if Pops(q, p) {
      GenerateOf(s, ScanState([Num(x), Num(y), Op(p)], [q], z, true));
      assert Lifo([q]) == [Op(q)] by {
        assert [q][..0] == [];
      }
      assert [Num(x), Num(y), Op(p)] + [Num(z)] + [Op(q)] == [Num(x), Num(y), Op(p), Num(z), Op(q)];
    } else {
      GenerateOf(s, ScanState([Num(x), Num(y)], [p, q], z, true));
      assert Lifo([p, q]) == [Op(q), Op(p)] by {
        assert [p, q][..1] == [p] && [p][..0] == [];
      }
      assert [Num(x), Num(y)] + [Num(z)] + [Op(q), Op(p)] == [Num(x), Num(y), Num(z), Op(q), Op(p)];
    }
  }

  /** A successful scan is finished into the token list. */
  lemma GenerateOf(s: string, st: ScanState)
    requires Scan(s, 0, Init) == Ok(st)
    ensures Generate(s) == Ok(st.output + (if st.foundNum then [Num(st.acc)] else []) + Lifo(st.ops))
  {
  }
}
