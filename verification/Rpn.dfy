/** The stack machine of `eval_complex`, over any arithmetic: complex floating-point
    operations are parameters, so every statement holds whatever they compute. */
module Rpn {

  datatype Operation = Plus | Minus | Times | Div | Pow | Rem

  datatype Token<N> =
    | Number(n: N)
    | Var(name: string)
    | Binary(op: Operation)
    | Unary(op: Operation)
    | Unsupported // parentheses, commas, functions

  datatype Arithmetic<!N, !C> = Arithmetic(
    number: N -> C,
    i: C,
    plus: (C, C) -> C,
    minus: (C, C) -> C,
    times: (C, C) -> C,
    div: (C, C) -> C,
    pow: (C, C) -> C,
    rem: (C, C) -> C,
    neg: C -> C)

  datatype Failure = UnknownVar(name: string) | Underflow | UnsupportedUnary | UnsupportedToken | NoResult

  datatype Outcome<C> = Ok(value: C) | Err(why: Failure)

  function Apply2<N, C>(a: Arithmetic<N, C>, op: Operation, x: C, y: C): C {
    match op
    case Plus => a.plus(x, y)
    case Minus => a.minus(x, y)
    case Times => a.times(x, y)
    case Div => a.div(x, y)
    case Pow => a.pow(x, y)
    case Rem => a.rem(x, y)
  }

  /** One token on a stack whose last element is the top. */
  function Step<N, C>(a: Arithmetic<N, C>, stack: seq<C>, t: Token<N>): Outcome<seq<C>> {
    var n := |stack|;
    match t
    case Number(x) => Ok(stack + [a.number(x)])
    case Var(name) => if name == "i" then Ok(stack + [a.i]) else Err(UnknownVar(name))
    case Binary(op) =>
      if n < 2 then Err(Underflow) else Ok(stack[..n - 2] + [Apply2(a, op, stack[n - 2], stack[n - 1])])
    case Unary(op) =>
      if n < 1 then Err(Underflow)
      else if op == Plus then Ok(stack)
      else if op == Minus then Ok(stack[..n - 1] + [a.neg(stack[n - 1])])
      else Err(UnsupportedUnary)
    case Unsupported => Err(UnsupportedToken)
  }

  function Run<N, C>(a: Arithmetic<N, C>, stack: seq<C>, ts: seq<Token<N>>): Outcome<seq<C>>
    decreases |ts|
  {
    if ts == [] then Ok(stack)
    else
      match Step(a, stack, ts[0])
      case Err(why) => Err(why)
      case Ok(stack') => Run(a, stack', ts[1..])
  }

  function Eval<N, C>(a: Arithmetic<N, C>, ts: seq<Token<N>>): Outcome<C> {
    match Run(a, [], ts)
    case Err(why) => Err(why)
    case Ok(stack) => if stack == [] then Err(NoResult) else Ok(stack[|stack| - 1])
  }

  /** The loop of `eval_complex`. */
  method EvalComplex<N, C>(a: Arithmetic<N, C>, ts: seq<Token<N>>) returns (r: Outcome<C>)
    ensures r == Eval(a, ts)
  {
    var stack: seq<C> := [];
    for k := 0 to |ts|
      invariant Run(a, [], ts) == Run(a, stack, ts[k..])
    {
      var t := ts[k];
      ghost var before := stack;
      assert ts[k..][0] == t && ts[k..][1..] == ts[k + 1..];
      match t {
        case Number(x) => stack := stack + [a.number(x)];
        case Var(name) =>
          if name != "i" {
            return Err(UnknownVar(name));
          }
          stack := stack + [a.i];
        case Binary(op) =>
          if |stack| == 0 {
            return Err(Underflow);
          }
          var y := stack[|stack| - 1];
          stack := stack[..|stack| - 1];
          if |stack| == 0 {
            return Err(Underflow);
          }
          var x := stack[|stack| - 1];
          stack := stack[..|stack| - 1];
          assert stack == before[..|before| - 2];
          stack := stack + [Apply2(a, op, x, y)];
          assert Step(a, before, t) == Ok(stack);
        case Unary(op) =>
          if |stack| == 0 {
            return Err(Underflow);
          }
          var x := stack[|stack| - 1];
          if op == Minus {
            stack := stack[..|stack| - 1] + [a.neg(x)];
          } else if op != Plus {
            return Err(UnsupportedUnary);
          }
        case Unsupported => return Err(UnsupportedToken);
      }
    }
    if |stack| == 0 {
      return Err(NoResult);
    }
    r := Ok(stack[|stack| - 1]);
  }

  // ---------- expression trees ----------

  datatype Expr<N> =
    | Num(n: N)
    | Imaginary
    | Sum(left: Expr<N>, right: Expr<N>)
    | Difference(left: Expr<N>, right: Expr<N>)
    | Product(left: Expr<N>, right: Expr<N>)
    | Quotient(left: Expr<N>, right: Expr<N>)
    | Power(left: Expr<N>, right: Expr<N>)
    | Remainder(left: Expr<N>, right: Expr<N>)
    | Positive(e: Expr<N>)
    | Negative(e: Expr<N>)

  /** What an expression means. */
  function Value<N, C>(a: Arithmetic<N, C>, e: Expr<N>): C {
    match e
    case Num(n) => a.number(n)
    case Imaginary => a.i
    case Sum(l, r) => a.plus(Value(a, l), Value(a, r))
    case Difference(l, r) => a.minus(Value(a, l), Value(a, r))
    case Product(l, r) => a.times(Value(a, l), Value(a, r))
    case Quotient(l, r) => a.div(Value(a, l), Value(a, r))
    case Power(l, r) => a.pow(Value(a, l), Value(a, r))
    case Remainder(l, r) => a.rem(Value(a, l), Value(a, r))
    case Positive(x) => Value(a, x)
    case Negative(x) => a.neg(Value(a, x))
  }

  /** How an expression is written: operands first, left before right. */
  function Postfix<N>(e: Expr<N>): seq<Token<N>> {
    match e
    case Num(n) => [Number(n)]
    case Imaginary => [Var("i")]
    case Sum(l, r) => Postfix(l) + Postfix(r) + [Binary(Plus)]
    case Difference(l, r) => Postfix(l) + Postfix(r) + [Binary(Minus)]
    case Product(l, r) => Postfix(l) + Postfix(r) + [Binary(Times)]
    case Quotient(l, r) => Postfix(l) + Postfix(r) + [Binary(Div)]
    case Power(l, r) => Postfix(l) + Postfix(r) + [Binary(Pow)]
    case Remainder(l, r) => Postfix(l) + Postfix(r) + [Binary(Rem)]
    case Positive(x) => Postfix(x) + [Unary(Plus)]
    case Negative(x) => Postfix(x) + [Unary(Minus)]
  }

  function TreeOf<N>(op: Operation, l: Expr<N>, r: Expr<N>): Expr<N> {
    match op
    case Plus => Sum(l, r)
    case Minus => Difference(l, r)
    case Times => Product(l, r)
    case Div => Quotient(l, r)
    case Pow => Power(l, r)
    case Rem => Remainder(l, r)
  }

  function OperatorOf<N>(e: Expr<N>): Operation {
    match e
    case Difference(_, _) => Minus
    case Product(_, _) => Times
    case Quotient(_, _) => Div
    case Power(_, _) => Pow
    case Remainder(_, _) => Rem
    case _ => Plus
  }

  lemma PostfixOf<N>(op: Operation, l: Expr<N>, r: Expr<N>)
    ensures Postfix(TreeOf(op, l, r)) == Postfix(l) + Postfix(r) + [Binary(op)]
  {
  }

  /** The machine's operators mean what the trees say. */
  lemma OperatorsMean<N, C>(a: Arithmetic<N, C>, op: Operation, l: Expr<N>, r: Expr<N>)
    ensures Value(a, TreeOf(op, l, r)) == Apply2(a, op, Value(a, l), Value(a, r))
  {
  }

  lemma {:induction false} RunAppend<N, C>(a: Arithmetic<N, C>, stack: seq<C>, ts: seq<Token<N>>, us: seq<Token<N>>)
    ensures Run(a, stack, ts + us) ==
            match Run(a, stack, ts)
            case Err(why) => Err(why)
            case Ok(stack') => Run(a, stack', us)
    decreases |ts|
  {
    if ts == [] {
      assert ts + us == us;
    } else {
      assert (ts + us)[0] == ts[0] && (ts + us)[1..] == ts[1..] + us;
      if Step(a, stack, ts[0]).Ok? {
        RunAppend(a, Step(a, stack, ts[0]).value, ts[1..], us);
      }
    }
  }

  lemma RunOne<N, C>(a: Arithmetic<N, C>, stack: seq<C>, t: Token<N>)
    ensures Run(a, stack, [t]) == Step(a, stack, t)
  {
    if Step(a, stack, t).Ok? {
      assert [t][1..] == [];
    }
  }

  /** Running the postfix form of an expression pushes exactly its value, on any stack. */
  lemma {:induction false} PostfixPushesValue<N, C>(a: Arithmetic<N, C>, e: Expr<N>, stack: seq<C>)
    ensures Run(a, stack, Postfix(e)) == Ok(stack + [Value(a, e)])
  {
    match e
    case Num(n) => RunOne(a, stack, Number(n));
    case Imaginary => RunOne(a, stack, Var("i"));
    case Positive(x) =>
      PostfixPushesValue(a, x, stack);
      RunAppend(a, stack, Postfix(x), [Unary(Plus)]);
      RunOne(a, stack + [Value(a, x)], Unary(Plus));
    case Negative(x) =>
      PostfixPushesValue(a, x, stack);
      RunAppend(a, stack, Postfix(x), [Unary(Minus)]);
      RunOne(a, stack + [Value(a, x)], Unary(Minus));
      assert (stack + [Value(a, x)])[..|stack|] == stack;
    case _ =>
      PostfixPushesValue(a, e.left, stack);
      PostfixPushesValue(a, e.right, stack + [Value(a, e.left)]);
      assert e == TreeOf(OperatorOf(e), e.left, e.right);
      OperatorPushes(a, OperatorOf(e), e.left, e.right, stack);
  }

  lemma OperatorPushes<N, C>(a: Arithmetic<N, C>, op: Operation, l: Expr<N>, r: Expr<N>, stack: seq<C>)
    requires Run(a, stack, Postfix(l)) == Ok(stack + [Value(a, l)])
    requires Run(a, stack + [Value(a, l)], Postfix(r)) == Ok(stack + [Value(a, l)] + [Value(a, r)])
    ensures Run(a, stack, Postfix(TreeOf(op, l, r))) == Ok(stack + [Value(a, TreeOf(op, l, r))])
  {
    var withBoth := stack + [Value(a, l)] + [Value(a, r)];
    OperatorsMean(a, op, l, r);
    PostfixOf(op, l, r);
    RunAppend(a, stack, Postfix(l), Postfix(r));
    RunAppend(a, stack, Postfix(l) + Postfix(r), [Binary(op)]);
    RunOne(a, withBoth, Binary(op));
    hide TreeOf, Apply2, Postfix, Value;
    assert withBoth[..|stack|] == stack;
  }

  lemma PostfixEvaluates<N, C>(a: Arithmetic<N, C>, e: Expr<N>)
    ensures Eval(a, Postfix(e)) == Ok(Value(a, e))
  {
    PostfixPushesValue(a, e, []);
  }

  // ---------- the converse: what is accepted are postfix forms ----------

  /** The same stack machine, building trees instead of computing. */
  function Build<N>(trees: seq<Expr<N>>, t: Token<N>): Outcome<seq<Expr<N>>> {
    var n := |trees|;
    match t
    case Number(x) => Ok(trees + [Num(x)])
    case Var(name) => if name == "i" then Ok(trees + [Imaginary]) else Err(UnknownVar(name))
    case Binary(op) =>
      if n < 2 then Err(Underflow) else Ok(trees[..n - 2] + [TreeOf(op, trees[n - 2], trees[n - 1])])
    case Unary(op) =>
      if n < 1 then Err(Underflow)
      else if op == Plus then Ok(trees[..n - 1] + [Positive(trees[n - 1])])
      else if op == Minus then Ok(trees[..n - 1] + [Negative(trees[n - 1])])
      else Err(UnsupportedUnary)
    case Unsupported => Err(UnsupportedToken)
  }

  function Parse<N>(trees: seq<Expr<N>>, ts: seq<Token<N>>): Outcome<seq<Expr<N>>>
    decreases |ts|
  {
    if ts == [] then Ok(trees)
    else
      match Build(trees, ts[0])
      case Err(why) => Err(why)
      case Ok(trees') => Parse(trees', ts[1..])
  }

  function Values<N, C>(a: Arithmetic<N, C>, trees: seq<Expr<N>>): (r: seq<C>)
    ensures |r| == |trees|
    ensures forall k :: 0 <= k < |r| ==> r[k] == Value(a, trees[k])
  {
    if trees == [] then [] else Values(a, trees[..|trees| - 1]) + [Value(a, trees[|trees| - 1])]
  }

  function Forms<N>(trees: seq<Expr<N>>): seq<Token<N>> {
    if trees == [] then [] else Forms(trees[..|trees| - 1]) + Postfix(trees[|trees| - 1])
  }

  lemma FormsPush<N>(trees: seq<Expr<N>>, e: Expr<N>)
    ensures Forms(trees + [e]) == Forms(trees) + Postfix(e)
  {
    assert (trees + [e])[..|trees|] == trees;
  }

  /** A tree keeps the tokens it was built from. */
  lemma BuildKeepsTokens<N>(trees: seq<Expr<N>>, t: Token<N>)
    requires Build(trees, t).Ok?
    ensures Forms(Build(trees, t).value) == Forms(trees) + [t]
  {
    hide Forms;
    var n := |trees|;
    match t
    case Number(x) => FormsPush(trees, Num(x));
    case Var(name) => FormsPush(trees, Imaginary);
    case Binary(op) =>
      var rest, l, r := trees[..n - 2], trees[n - 2], trees[n - 1];
      assert trees == rest + [l] + [r];
      FormsPush(rest, l);
      FormsPush(rest + [l], r);
      FormsPush(rest, TreeOf(op, l, r));
      PostfixOf(op, l, r);
      assert Forms(rest) + Postfix(TreeOf(op, l, r)) == ((Forms(rest) + Postfix(l)) + Postfix(r)) + [t];
    case Unary(op) =>
      var rest, x := trees[..n - 1], trees[n - 1];
      assert trees == rest + [x];
      FormsPush(rest, x);
      FormsPush(rest, if op == Plus then Positive(x) else Negative(x));
  }

  lemma ValuesPush<N, C>(a: Arithmetic<N, C>, trees: seq<Expr<N>>, k: nat, e: Expr<N>)
    requires k <= |trees|
    ensures Values(a, trees[..k] + [e]) == Values(a, trees)[..k] + [Value(a, e)]
  {
    hide Value;
  }

  /** One step on values is one step on trees. */
  ghost predicate StepsAlike<N, C>(a: Arithmetic<N, C>, trees: seq<Expr<N>>, t: Token<N>) {
    && (Build(trees, t).Err? ==> Step(a, Values(a, trees), t) == Err(Build(trees, t).why))
    && (Build(trees, t).Ok? ==> Step(a, Values(a, trees), t) == Ok(Values(a, Build(trees, t).value)))
  }

  lemma PushBuilds<N, C>(a: Arithmetic<N, C>, trees: seq<Expr<N>>, t: Token<N>)
    requires t.Number? || t.Var? || t.Unsupported?
    ensures StepsAlike(a, trees, t)
  {
    assert trees[..|trees|] == trees && Values(a, trees)[..|trees|] == Values(a, trees);
    hide Values;
    match t
    case Number(x) => ValuesPush(a, trees, |trees|, Num(x));
    case Var(_) => ValuesPush(a, trees, |trees|, Imaginary);
    case _ =>
  }

  lemma BinaryBuilds<N, C>(a: Arithmetic<N, C>, trees: seq<Expr<N>>, op: Operation)
    ensures StepsAlike(a, trees, Binary(op))
  {
    var n := |trees|;
    hide Apply2, Values, TreeOf, Value;
    if n >= 2 {
      OperatorsMean(a, op, trees[n - 2], trees[n - 1]);
      ValuesPush(a, trees, n - 2, TreeOf(op, trees[n - 2], trees[n - 1]));
    }
  }

  lemma UnaryBuilds<N, C>(a: Arithmetic<N, C>, trees: seq<Expr<N>>, op: Operation)
    ensures StepsAlike(a, trees, Unary(op))
  {
    var n, stack := |trees|, Values(a, trees);
    hide Values;
    if n >= 1 {
      ValuesPush(a, trees, n - 1, if op == Plus then Positive(trees[n - 1]) else Negative(trees[n - 1]));
      assert stack[..n - 1] + [stack[n - 1]] == stack;
    }
  }

  lemma StepBuilds<N, C>(a: Arithmetic<N, C>, trees: seq<Expr<N>>, t: Token<N>)
    ensures StepsAlike(a, trees, t)
  {
    match t
    case Binary(op) => BinaryBuilds(a, trees, op);
    case Unary(op) => UnaryBuilds(a, trees, op);
    case _ => PushBuilds(a, trees, t);
  }

  lemma {:induction false} RunParses<N, C>(a: Arithmetic<N, C>, trees: seq<Expr<N>>, ts: seq<Token<N>>)
    ensures Parse(trees, ts).Err? ==> Run(a, Values(a, trees), ts) == Err(Parse(trees, ts).why)
    ensures Parse(trees, ts).Ok? ==>
              && Run(a, Values(a, trees), ts) == Ok(Values(a, Parse(trees, ts).value))
              && Forms(Parse(trees, ts).value) == Forms(trees) + ts
    decreases |ts|
  {
    if ts != [] {
      StepBuilds(a, trees, ts[0]);
      assert StepsAlike(a, trees, ts[0]);
      hide Step, Build, Values, Forms;
      if Build(trees, ts[0]).Ok? {
        BuildKeepsTokens(trees, ts[0]);
        var next := Build(trees, ts[0]).value;
        RunParses(a, next, ts[1..]);
        assert Forms(trees) + ts == (Forms(trees) + [ts[0]]) + ts[1..];
      }
    }
  }

  lemma {:induction false} FormsRun<N, C>(a: Arithmetic<N, C>, trees: seq<Expr<N>>)
    ensures Run(a, [], Forms(trees)) == Ok(Values(a, trees))
  {
    if trees != [] {
      var rest, e := trees[..|trees| - 1], trees[|trees| - 1];
      FormsRun(a, rest);
      RunAppend(a, [], Forms(rest), Postfix(e));
      PostfixPushesValue(a, e, Values(a, rest));
    }
  }

  /** The machine accepts exactly the concatenations of postfix forms, and its stack then holds
      exactly their values. */
  lemma AcceptsExactly<N, C>(a: Arithmetic<N, C>, ts: seq<Token<N>>, stack: seq<C>)
    ensures Run(a, [], ts) == Ok(stack) <==> exists trees :: Forms(trees) == ts && Values(a, trees) == stack
  {
    RunParses(a, [], ts);
    if Run(a, [], ts) == Ok(stack) {
      assert Forms(Parse([], ts).value) == ts;
    }
    if trees :| Forms(trees) == ts && Values(a, trees) == stack {
      FormsRun(a, trees);
    }
  }

  /** The answer is the value of the last expression written, whatever was written before it. */
  lemma AnswersExactly<N, C>(a: Arithmetic<N, C>, ts: seq<Token<N>>, v: C)
    ensures Eval(a, ts) == Ok(v) <==>
            exists trees :: trees != [] && Forms(trees) == ts && Value(a, trees[|trees| - 1]) == v
  {
    if Eval(a, ts) == Ok(v) {
      RunParses(a, [], ts);
      var trees := Parse([], ts).value;
      assert trees != [] && Forms(trees) == ts && Value(a, trees[|trees| - 1]) == v;
    }
    if trees :| trees != [] && Forms(trees) == ts && Value(a, trees[|trees| - 1]) == v {
      FormsRun(a, trees);
    }
  }

  // ---------- errors ----------

  function Arity<N>(t: Token<N>): nat {
    match t case Binary(_) => 2 case Unary(_) => 1 case _ => 0
  }

  /** How many values a token list leaves, counting only pushes and pops. */
  function Depth<N>(ts: seq<Token<N>>): int {
    if ts == [] then 0
    else
      var t := ts[|ts| - 1];
      Depth(ts[..|ts| - 1]) - Arity(t) + (if t.Unsupported? then 0 else 1)
  }

  predicate Supported<N>(t: Token<N>) {
    match t
    case Var(name) => name == "i"
    case Unary(op) => op == Plus || op == Minus
    case Unsupported => false
    case _ => true
  }

  predicate HasOperands<N>(ts: seq<Token<N>>, k: nat)
    requires k < |ts|
  {
    Arity(ts[k]) <= Depth(ts[..k])
  }

  /** The first `k` tokens cause no error. */
  predicate Clean<N>(ts: seq<Token<N>>, k: nat)
    requires k <= |ts|
  {
    forall j: nat :: j < k ==> Supported(ts[j]) && HasOperands(ts, j)
  }

  lemma StepIsClean<N, C>(a: Arithmetic<N, C>, stack: seq<C>, t: Token<N>)
    ensures Step(a, stack, t).Ok? <==> Supported(t) && Arity(t) <= |stack|
    ensures Step(a, stack, t).Ok? ==> |Step(a, stack, t).value| == |stack| - Arity(t) + 1 && !t.Unsupported?
  {
  }

  lemma {:induction false} CleanRuns<N, C>(a: Arithmetic<N, C>, ts: seq<Token<N>>, k: nat)
    requires k <= |ts|
    ensures Run(a, [], ts[..k]).Ok? <==> Clean(ts, k)
    ensures Clean(ts, k) ==> |Run(a, [], ts[..k]).value| == Depth(ts[..k])
  {
    if k > 0 {
      CleanRuns(a, ts, k - 1);
      hide Step, Arity, Supported;
      assert ts[..k] == ts[..k - 1] + [ts[k - 1]] && ts[..k][..k - 1] == ts[..k - 1];
      RunAppend(a, [], ts[..k - 1], [ts[k - 1]]);
      if Clean(ts, k - 1) {
        RunOne(a, Run(a, [], ts[..k - 1]).value, ts[k - 1]);
        StepIsClean(a, Run(a, [], ts[..k - 1]).value, ts[k - 1]);
      }
    }
  }

  lemma {:induction false} FirstError<N, C>(a: Arithmetic<N, C>, ts: seq<Token<N>>, n: nat) returns (k: nat)
    requires n <= |ts| && Run(a, [], ts[..n]).Err?
    ensures k < n && Run(a, [], ts[..k]).Ok?
    ensures Step(a, Run(a, [], ts[..k]).value, ts[k]) == Err(Run(a, [], ts[..n]).why)
  {
    k := n - 1;
    assert ts[..n] == ts[..k] + [ts[k]];
    RunAppend(a, [], ts[..k], [ts[k]]);
    if Run(a, [], ts[..k]).Err? {
      k := FirstError(a, ts, k);
    } else {
      RunOne(a, Run(a, [], ts[..k]).value, ts[k]);
    }
  }

  /** Token `k`, the first one that causes an error, causes this one. */
  predicate AtFault<N>(ts: seq<Token<N>>, k: nat, why: Failure)
    requires k < |ts|
  {
    match ts[k]
    case Number(_) => false
    case Var(name) => name != "i" && why == UnknownVar(name)
    case Binary(_) => Depth(ts[..k]) < 2 && why == Underflow
    case Unary(op) =>
      if Depth(ts[..k]) < 1 then why == Underflow else op != Plus && op != Minus && why == UnsupportedUnary
    case Unsupported => why == UnsupportedToken
  }

  lemma FaultyStep<N, C>(a: Arithmetic<N, C>, stack: seq<C>, ts: seq<Token<N>>, k: nat, why: Failure)
    requires k < |ts| && |stack| == Depth(ts[..k])
    ensures Step(a, stack, ts[k]) == Err(why) <==> AtFault(ts, k, why)
  {
    hide Depth;
  }

  lemma FailsAtOnce<N, C>(a: Arithmetic<N, C>, stack: seq<C>, ts: seq<Token<N>>, why: Failure)
    requires ts != [] && Step(a, stack, ts[0]) == Err(why)
    ensures Run(a, stack, ts) == Err(why)
  {
  }

  /** A token list without errors leaves at least one value, unless it is empty. */
  lemma LeavesSomething<N, C>(a: Arithmetic<N, C>, ts: seq<Token<N>>)
    ensures Run(a, [], ts) == Ok([]) <==> ts == []
  {
    if ts != [] && Run(a, [], ts).Ok? {
      var n := |ts|;
      assert ts[..n] == ts && ts[..n - 1] + [ts[n - 1]] == ts;
      CleanRuns(a, ts, n);
      CleanRuns(a, ts, n - 1);
      RunAppend(a, [], ts[..n - 1], [ts[n - 1]]);
      hide Run, Step;
      RunOne(a, Run(a, [], ts[..n - 1]).value, ts[n - 1]);
      StepIsClean(a, Run(a, [], ts[..n - 1]).value, ts[n - 1]);
    }
  }

  /** Which error is reported: that of the first token that causes one, or that there is no result
      when there are no tokens. */
  lemma ErrorsExactly<N, C>(a: Arithmetic<N, C>, ts: seq<Token<N>>, why: Failure)
    ensures Eval(a, ts) == Err(why) <==>
            || (why == NoResult && ts == [])
            || exists k: nat :: k < |ts| && Clean(ts, k) && AtFault(ts, k, why)
  {
    assert ts[..|ts|] == ts;
    LeavesSomething(a, ts);
    hide Run, Step, AtFault;
    if Run(a, [], ts) == Err(why) {
      var k := FirstError(a, ts, |ts|);
      CleanRuns(a, ts, k);
      FaultyStep(a, Run(a, [], ts[..k]).value, ts, k, why);
      assert k < |ts| && Clean(ts, k) && AtFault(ts, k, why);
    }
    if k: nat :| k < |ts| && Clean(ts, k) && AtFault(ts, k, why) {
      CleanRuns(a, ts, k);
      assert ts == ts[..k] + ts[k..];
      RunAppend(a, [], ts[..k], ts[k..]);
      FaultyStep(a, Run(a, [], ts[..k]).value, ts, k, why);
      FailsAtOnce(a, Run(a, [], ts[..k]).value, ts[k..], why);
    }
  }

  /** Underflow is reported exactly when some operator lacks operands and no token before it
      causes an error of any kind. */
  lemma UnderflowExactly<N, C>(a: Arithmetic<N, C>, ts: seq<Token<N>>)
    ensures Eval(a, ts) == Err(Underflow) <==>
            exists k: nat :: k < |ts| && Clean(ts, k) && !HasOperands(ts, k)
  {
    ErrorsExactly(a, ts, Underflow);
    if k: nat :| k < |ts| && Clean(ts, k) && AtFault(ts, k, Underflow) {
      assert !HasOperands(ts, k);
    }
    if k: nat :| k < |ts| && Clean(ts, k) && !HasOperands(ts, k) {
      CleanRuns(a, ts, k);
      assert AtFault(ts, k, Underflow);
    }
  }
}
