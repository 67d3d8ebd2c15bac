/** What `eval_expression` (src/eval.rs) promises, stated about its
    specification `Eval`: evaluation only ever adds to the state, more stack
    never changes a finished result, and each arm of the `match` does what
    the source says, with the error cases. */
module EvalFacts {
  import opened Prelude
  import opened Parse
  import opened Evaluator

  // ------------------------------------------------- evaluation only adds

  /** `t` is `s` with things added: the output only grows, no function
      disappears, and no variable changes or disappears. */
  predicate Extends(s: State, t: State) {
    && s.output <= t.output
    && s.functions.Keys <= t.functions.Keys
    && forall v :: v in s.variables ==> v in t.variables && t.variables[v] == s.variables[v]
  }

  lemma {:induction false} ExtendsTrans(a: State, b: State, c: State)
    requires Extends(a, b) && Extends(b, c)
    ensures Extends(a, c)
  {
    assert a.output <= c.output by {
      assert a.output == b.output[..|a.output|];
      assert b.output[..|a.output|] == c.output[..|b.output|][..|a.output|];
    }
  }

  lemma {:induction false} ExtendsOutput(s: State, text: string)
    ensures Extends(s, s.(output := s.output + [text]))
  {
    assert s.output == (s.output + [text])[..|s.output|];
  }

  /** Whatever an expression does to the state, the state afterwards extends
      the one before: output is appended to, functions are only added or
      replaced, and a bound variable keeps its value (the first write wins,
      and a call's body runs on a table of its own). */
  lemma {:induction false} EvalExtends(e: Expression, s: State, fuel: nat)
    ensures Extends(s, Eval(e, s, fuel).1)
    decreases fuel, e
  {
    match e
    case Val(_) =>
    case If(c, t, f) =>
      var (rc, s1) := Eval(c, s, fuel);
      EvalExtends(c, s, fuel);
      if rc.Ok? {
        var b := if rc.value != 0 then t else f;
        EvalExtends(b, s1, fuel);
        ExtendsTrans(s, s1, Eval(b, s1, fuel).1);
      }
    case FunctionDef(name, params, body) =>
      if |params| == 0 {
        EvalExtends(body, s, fuel);
      }
    case FunctionCall(name, arg) =>
      CallExtends(name, arg, s, fuel);
    case ListExp(items) =>
      ListExtends(items, s, fuel, 0);
    case TryCatch(tb, cb) =>
      var (rt, s1) := Eval(tb, s, fuel);
      EvalExtends(tb, s, fuel);
      if rt.Err? {
        var s2 := s1.(output := s1.output + [CaughtText(rt.msg)]);
        ExtendsOutput(s1, CaughtText(rt.msg));
        EvalExtends(cb, s2, fuel);
        ExtendsTrans(s, s1, s2);
        ExtendsTrans(s, s2, Eval(cb, s2, fuel).1);
      }
    case PrintChar(x) =>
      var (r, s1) := Eval(x, s, fuel);
      EvalExtends(x, s, fuel);
      if r.Ok? {
        ExtendsOutput(s1, CharText(r.value));
        ExtendsTrans(s, s1, s1.(output := s1.output + [CharText(r.value)]));
      }
    case PrintNum(x) =>
      var (r, s1) := Eval(x, s, fuel);
      EvalExtends(x, s, fuel);
      if r.Ok? {
        ExtendsOutput(s1, Decimal(r.value) + "\n");
        ExtendsTrans(s, s1, s1.(output := s1.output + [Decimal(r.value) + "\n"]));
      }
  }

  lemma {:induction false} CallExtends(name: Var, arg: Expression, s: State, fuel: nat)
    ensures Extends(s, EvalCall(name, arg, s, fuel).1)
    decreases fuel, arg
  {
    if IsBuiltin(name) && arg.ListExp? {
      if |arg.items| == 1 {
        EvalExtends(arg.items[0], s, fuel);
      }
    } else if arg != ListExp([]) && name in s.functions && arg.ListExp? {
      var f := s.functions[name];
      if |arg.items| == |f.args| {
        var (ra, s1) := EvalArgs(arg.items, f.args, s, fuel, map[]);
        ArgsExtends(arg.items, f.args, s, fuel, map[]);
        if ra.Ok? && fuel > 0 {
          var inner := State(s1.functions, ra.value, s1.output);
          EvalExtends(f.body, inner, fuel - 1);
        }
      }
    }
  }

  lemma {:induction false} ListExtends(items: seq<Expression>, s: State, fuel: nat, last: U32)
    ensures Extends(s, EvalList(items, s, fuel, last).1)
    decreases fuel, items
  {
    if items != [] {
      var (r, s1) := Eval(items[0], s, fuel);
      EvalExtends(items[0], s, fuel);
      if r.Ok? {
        ListExtends(items[1..], s1, fuel, r.value);
        ExtendsTrans(s, s1, EvalList(items[1..], s1, fuel, r.value).1);
      }
    }
  }

  lemma {:induction false} ArgsExtends(args: seq<Expression>, params: seq<Var>, s: State, fuel: nat, local: map<Var, U32>)
    requires |args| == |params|
    ensures Extends(s, EvalArgs(args, params, s, fuel, local).1)
    decreases fuel, args
  {
    if args != [] {
      var (r, s1) := Eval(args[0], s, fuel);
      EvalExtends(args[0], s, fuel);
      if r.Ok? {
        var next := local[params[0] := r.value];
        ArgsExtends(args[1..], params[1..], s1, fuel, next);
        ExtendsTrans(s, s1, EvalArgs(args[1..], params[1..], s1, fuel, next).1);
      }
    }
  }

  // ------------------------------------------------------ enough stack

  /** An evaluation that finished without running out of stack finishes the
      same way, with the same state, given more stack. */
  lemma {:induction false} FuelMonotone(e: Expression, s: State, fuel: nat, more: nat)
    requires fuel <= more && !Eval(e, s, fuel).0.Exhausted?
    ensures Eval(e, s, more) == Eval(e, s, fuel)
    decreases fuel, e
  {
    match e
    case Val(_) =>
    case If(c, t, f) =>
      var (rc, s1) := Eval(c, s, fuel);
      FuelMonotone(c, s, fuel, more);
      if rc.Ok? {
        FuelMonotone(if rc.value != 0 then t else f, s1, fuel, more);
      }
    case FunctionDef(name, params, body) =>
      if |params| == 0 {
        FuelMonotone(body, s, fuel, more);
      }
    case FunctionCall(name, arg) =>
      CallFuelMonotone(name, arg, s, fuel, more);
    case ListExp(items) =>
      ListFuelMonotone(items, s, fuel, more, 0);
    case TryCatch(tb, cb) =>
      var (rt, s1) := Eval(tb, s, fuel);
      FuelMonotone(tb, s, fuel, more);
      if rt.Err? {
        FuelMonotone(cb, s1.(output := s1.output + [CaughtText(rt.msg)]), fuel, more);
      }
    case PrintChar(x) =>
      FuelMonotone(x, s, fuel, more);
    case PrintNum(x) =>
      FuelMonotone(x, s, fuel, more);
  }

  lemma {:induction false} CallFuelMonotone(name: Var, arg: Expression, s: State, fuel: nat, more: nat)
    requires fuel <= more && !EvalCall(name, arg, s, fuel).0.Exhausted?
    ensures EvalCall(name, arg, s, more) == EvalCall(name, arg, s, fuel)
    decreases fuel, arg
  {
    if IsBuiltin(name) && arg.ListExp? {
      if |arg.items| == 1 {
        FuelMonotone(arg.items[0], s, fuel, more);
      }
    } else if arg != ListExp([]) && name in s.functions && arg.ListExp? {
      var f := s.functions[name];
      if |arg.items| == |f.args| {
        var (ra, s1) := EvalArgs(arg.items, f.args, s, fuel, map[]);
        ArgsFuelMonotone(arg.items, f.args, s, fuel, more, map[]);
        if ra.Ok? {
          FuelMonotone(f.body, State(s1.functions, ra.value, s1.output), fuel - 1, more - 1);
        }
      }
    }
  }

  lemma {:induction false} ListFuelMonotone(items: seq<Expression>, s: State, fuel: nat, more: nat, last: U32)
    requires fuel <= more && !EvalList(items, s, fuel, last).0.Exhausted?
    ensures EvalList(items, s, more, last) == EvalList(items, s, fuel, last)
    decreases fuel, items
  {
    if items != [] {
      var (r, s1) := Eval(items[0], s, fuel);
      FuelMonotone(items[0], s, fuel, more);
      if r.Ok? {
        ListFuelMonotone(items[1..], s1, fuel, more, r.value);
      }
    }
  }

  lemma {:induction false} ArgsFuelMonotone(args: seq<Expression>, params: seq<Var>, s: State, fuel: nat, more: nat, local: map<Var, U32>)
    requires |args| == |params|
    requires fuel <= more && !EvalArgs(args, params, s, fuel, local).0.Exhausted?
    ensures EvalArgs(args, params, s, more, local) == EvalArgs(args, params, s, fuel, local)
    decreases fuel, args
  {
    if args != [] {
      var (r, s1) := Eval(args[0], s, fuel);
      FuelMonotone(args[0], s, fuel, more);
      if r.Ok? {
        ArgsFuelMonotone(args[1..], params[1..], s1, fuel, more, local[params[0] := r.value]);
      }
    }
  }

  // ---------------------------------------------------------------- If

  /** A non-zero condition: the result is the then branch's, evaluated after
      the condition, and the else branch plays no part. */
  lemma {:induction false} IfNonZero(c: Expression, t: Expression, f: Expression, other: Expression, s: State, fuel: nat)
    requires Eval(c, s, fuel).0.Ok? && Eval(c, s, fuel).0.value != 0
    ensures Eval(If(c, t, f), s, fuel) == Eval(t, Eval(c, s, fuel).1, fuel)
    ensures Eval(If(c, t, f), s, fuel) == Eval(If(c, t, other), s, fuel)
  {
  }

  /** A zero condition: the result is the else branch's, and the then
      branch plays no part. */
  lemma {:induction false} IfZero(c: Expression, t: Expression, f: Expression, other: Expression, s: State, fuel: nat)
    requires Eval(c, s, fuel).0 == Ok(0)
    ensures Eval(If(c, t, f), s, fuel) == Eval(f, Eval(c, s, fuel).1, fuel)
    ensures Eval(If(c, t, f), s, fuel) == Eval(If(c, other, f), s, fuel)
  {
  }

  /** A failing condition is the result, and neither branch is evaluated. */
  lemma {:induction false} IfConditionFails(c: Expression, t: Expression, f: Expression, s: State, fuel: nat)
    requires !Eval(c, s, fuel).0.Ok?
    ensures Eval(If(c, t, f), s, fuel) == Eval(c, s, fuel)
  {
  }

  // -------------------------------------------------------- FunctionDef

  /** A definition without parameters evaluates its body in the current
      tables and returns its value; the variable is bound to it only if it
      was not bound already. */
  lemma {:induction false} DefineVariable(n: Var, body: Expression, s: State, fuel: nat)
    ensures var (rb, s1) := Eval(body, s, fuel);
            var (r, s2) := Eval(FunctionDef(n, [], body), s, fuel);
            && r == rb
            && (rb.Ok? && n !in s1.variables ==> s2 == s1.(variables := s1.variables[n := rb.value]))
            && (!rb.Ok? || n in s1.variables ==> s2 == s1)
  {
  }

  /** The first binding of a variable wins: defining it again, whatever the
      new body computes or does, leaves its value as it was. */
  lemma {:induction false} FirstBindingWins(n: Var, body: Expression, s: State, fuel: nat)
    requires n in s.variables
    ensures var s2 := Eval(FunctionDef(n, [], body), s, fuel).1;
            n in s2.variables && s2.variables[n] == s.variables[n]
  {
    EvalExtends(FunctionDef(n, [], body), s, fuel);
  }

  /** A definition with parameters replaces the table entry, returns 0, and
      neither evaluates the body nor touches the variables or the output. */
  lemma {:induction false} DefineFunction(n: Var, ps: seq<Var>, body: Expression, s: State, fuel: nat)
    requires ps != []
    ensures Eval(FunctionDef(n, ps, body), s, fuel)
         == (Ok(0), State(s.functions[n := Function(ps, body)], s.variables, s.output))
  {
  }

  /** The last definition of a function wins. */
  lemma {:induction false} LastDefinitionWins(n: Var, ps1: seq<Var>, b1: Expression, ps2: seq<Var>, b2: Expression, s: State, fuel: nat)
    requires ps1 != [] && ps2 != []
    ensures var s2 := EvalList([FunctionDef(n, ps1, b1), FunctionDef(n, ps2, b2)], s, fuel, 0).1;
            n in s2.functions && s2.functions[n] == Function(ps2, b2)
  {
    var s1 := Eval(FunctionDef(n, ps1, b1), s, fuel).1;
    assert [FunctionDef(n, ps1, b1), FunctionDef(n, ps2, b2)][1..] == [FunctionDef(n, ps2, b2)];
    assert EvalList([FunctionDef(n, ps2, b2)], s1, fuel, 0) == Eval(FunctionDef(n, ps2, b2), s1, fuel);
  }

  // -------------------------------------------------- the built-in operators

  /** `*` and `&` take exactly one argument; with any other number the
      call fails before anything is evaluated. */
  lemma {:induction false} BuiltinArity(n: Var, items: seq<Expression>, s: State, fuel: nat)
    requires IsBuiltin(n) && |items| != 1
    ensures Eval(FunctionCall(n, ListExp(items)), s, fuel)
         == (Err(n.name + " operator expects exactly one argument, got " + Decimal(|items|)), s)
  {
  }

  /** `*` decrements its argument and fails on 0. */
  lemma {:induction false} Decrement(x: Expression, s: State, fuel: nat)
    ensures var (r, s1) := Eval(x, s, fuel);
            var (d, s2) := Eval(FunctionCall(Var("*"), ListExp([x])), s, fuel);
            && s2 == s1
            && (r.Ok? && r.value > 0 ==> d == Ok(r.value - 1))
            && (r == Ok(0) ==> d == Err("Cannot decrement zero"))
            && (!r.Ok? ==> d == r)
  {
  }

  /** `&` increments its argument, staying at `0xFFFFFFFF`. */
  lemma {:induction false} Increment(x: Expression, s: State, fuel: nat)
    ensures var (r, s1) := Eval(x, s, fuel);
            var (d, s2) := Eval(FunctionCall(Var("&"), ListExp([x])), s, fuel);
            && s2 == s1
            && (r.Ok? && r.value < U32_MAX ==> d == Ok(r.value + 1))
            && (r == Ok(U32_MAX) ==> d == Ok(U32_MAX))
            && (!r.Ok? ==> d == r)
  {
  }

  // ------------------------------------------------------------- calls

  /** A call with an empty argument list reads a variable: it succeeds with
      `v` exactly when the variable is bound to `v`, and changes nothing. */
  lemma {:induction false} VariableRead(n: Var, v: U32, s: State, fuel: nat)
    requires !IsBuiltin(n)
    ensures Eval(FunctionCall(n, ListExp([])), s, fuel).1 == s
    ensures Eval(FunctionCall(n, ListExp([])), s, fuel).0 == Ok(v) <==> n in s.variables && s.variables[n] == v
    ensures n !in s.variables ==> Eval(FunctionCall(n, ListExp([])), s, fuel).0 == Err("Variable " + n.name + " not defined")
  {
  }

  /** Calling an undefined function fails and changes nothing. */
  lemma {:induction false} UndefinedFunction(n: Var, args: seq<Expression>, s: State, fuel: nat)
    requires !IsBuiltin(n) && args != [] && n !in s.functions
    ensures Eval(FunctionCall(n, ListExp(args)), s, fuel) == (Err("Function " + n.name + " not defined"), s)
  {
  }

  /** The number of arguments is checked before any of them is evaluated. */
  lemma {:induction false} ArityCheckedFirst(n: Var, args: seq<Expression>, s: State, fuel: nat)
    requires !IsBuiltin(n) && args != [] && n in s.functions && |args| != |s.functions[n].args|
    ensures Eval(FunctionCall(n, ListExp(args)), s, fuel)
         == (Err("Function " + n.name + " expects " + Decimal(|s.functions[n].args|) + " arguments, got " + Decimal(|args|)), s)
  {
  }

  /** The table built for a call holds exactly the parameter names, added to
      the ones it started with. */
  lemma {:induction false} ArgsKeys(args: seq<Expression>, params: seq<Var>, s: State, fuel: nat, local: map<Var, U32>)
    requires |args| == |params|
    ensures var r := EvalArgs(args, params, s, fuel, local).0;
            r.Ok? ==> r.value.Keys == local.Keys + (set p | p in params)
    decreases args
  {
    if args != [] {
      var (r, s1) := Eval(args[0], s, fuel);
      if r.Ok? {
        var next := local[params[0] := r.value];
        ArgsKeys(args[1..], params[1..], s1, fuel, next);
        assert (set p | p in params) == {params[0]} + (set p | p in params[1..]) by {
          assert params == [params[0]] + params[1..];
        }
      }
    }
  }

  /** The values in the table built for a call: each parameter holds the value
      of its argument, evaluated in the state the arguments before it left; of
      a repeated parameter name the last binding stays. Names that are not
      parameters keep the value they started with. */
  lemma {:induction false} ArgsValues(args: seq<Expression>, params: seq<Var>, s: State, fuel: nat, local: map<Var, U32>)
    requires |args| == |params|
    ensures var r := EvalArgs(args, params, s, fuel, local).0;
            r.Ok? ==>
              && (forall v :: v in local && v !in params ==> v in r.value && r.value[v] == local[v])
              && (forall i :: 0 <= i < |args| && params[i] !in params[i + 1..] ==>
                    && params[i] in r.value
                    && Eval(args[i], EvalArgs(args[..i], params[..i], s, fuel, local).1, fuel).0
                       == Ok(r.value[params[i]]))
    decreases args
  {
    if args != [] {
      var (r0, s1) := Eval(args[0], s, fuel);
      if r0.Ok? {
        var next := local[params[0] := r0.value];
        ArgsValues(args[1..], params[1..], s1, fuel, next);
        var r := EvalArgs(args, params, s, fuel, local).0;
        if r.Ok? {
          forall v | v in local && v !in params
            ensures v in r.value && r.value[v] == local[v]
          {
            assert v != params[0] && v !in params[1..];
          }
          forall i | 0 <= i < |args| && params[i] !in params[i + 1..]
            ensures && params[i] in r.value
                    && Eval(args[i], EvalArgs(args[..i], params[..i], s, fuel, local).1, fuel).0
                       == Ok(r.value[params[i]])
          {
            if i == 0 {
              assert args[..0] == [] && params[..0] == [];
              assert params[0] !in params[1..];
            } else {
              assert args[1..][i - 1] == args[i] && params[1..][i - 1] == params[i];
              assert params[1..][i - 1 + 1..] == params[i + 1..];
              assert args[..i][0] == args[0] && params[..i][0] == params[0];
              assert args[..i][1..] == args[1..][..i - 1] && params[..i][1..] == params[1..][..i - 1];
            }
          }
        }
      }
    }
  }

  /** Arguments are evaluated left to right in the caller's tables, exactly
      as the items of a list are: the same failure and the same state. */
  lemma {:induction false} ArgsAsList(args: seq<Expression>, params: seq<Var>, s: State, fuel: nat, local: map<Var, U32>, last: U32)
    requires |args| == |params|
    ensures EvalArgs(args, params, s, fuel, local).1 == EvalList(args, s, fuel, last).1
    ensures EvalArgs(args, params, s, fuel, local).0.Ok? == EvalList(args, s, fuel, last).0.Ok?
    ensures !EvalList(args, s, fuel, last).0.Ok?
            ==> EvalArgs(args, params, s, fuel, local).0 == Forward(EvalList(args, s, fuel, last).0)
    decreases args
  {
    if args != [] {
      var (r, s1) := Eval(args[0], s, fuel);
      if r.Ok? {
        ArgsAsList(args[1..], params[1..], s1, fuel, local[params[0] := r.value], r.value);
      }
    }
  }

  /** A call of a defined function with the right number of arguments: the
      body runs, with one less level of stack, in a table holding exactly
      the parameters, and the caller's variables afterwards are those left
      by the arguments: the body cannot change them. */
  lemma {:induction false} CallIsolation(n: Var, args: seq<Expression>, s: State, fuel: nat)
    requires !IsBuiltin(n) && args != [] && n in s.functions && |args| == |s.functions[n].args|
    ensures var f := s.functions[n];
            var (ra, s1) := EvalArgs(args, f.args, s, fuel, map[]);
            var (r, s2) := Eval(FunctionCall(n, ListExp(args)), s, fuel);
            && s2.variables == s1.variables
            && (!ra.Ok? ==> r == Forward(ra) && s2 == s1)
            && (ra.Ok? ==> ra.value.Keys == set p | p in f.args)
            && (ra.Ok? && fuel == 0 ==> r == Exhausted)
            && (ra.Ok? && fuel > 0 ==> r == Eval(f.body, State(s1.functions, ra.value, s1.output), fuel - 1).0)
  {
    ArgsKeys(args, s.functions[n].args, s, fuel, map[]);
  }

  // -------------------------------------------------------------- lists

  /** Evaluating the list `a + b` is evaluating `a`, then, if it succeeded,
      `b` in the state it left. */
  lemma {:induction false} ListAppend(a: seq<Expression>, b: seq<Expression>, s: State, fuel: nat, last: U32)
    ensures var (r, s1) := EvalList(a, s, fuel, last);
            EvalList(a + b, s, fuel, last) == if r.Ok? then EvalList(b, s1, fuel, r.value) else (r, s1)
    decreases a
  {
    if a == [] {
      assert a + b == b;
    } else {
      assert (a + b)[0] == a[0] && (a + b)[1..] == a[1..] + b;
      var (r, s1) := Eval(a[0], s, fuel);
      if r.Ok? {
        ListAppend(a[1..], b, s1, fuel, r.value);
      }
    }
  }

  /** A list's value is the value of its last item; the empty list is 0. */
  lemma {:induction false} ListValue(items: seq<Expression>, x: Expression, s: State, fuel: nat)
    ensures EvalList([], s, fuel, 0) == (Ok(0), s)
    ensures var (r, s1) := EvalList(items, s, fuel, 0);
            r.Ok? ==> EvalList(items + [x], s, fuel, 0) == Eval(x, s1, fuel)
  {
    ListAppend(items, [x], s, fuel, 0);
    var (r, s1) := EvalList(items, s, fuel, 0);
    if r.Ok? {
      assert [x][1..] == [];
    }
  }

  // ------------------------------------------------- try/catch and output

  /** A try block that does not fail is the result; a failing one is
      replaced by the catch block, run after exactly one diagnostic. */
  lemma {:induction false} TryCatchSemantics(tb: Expression, cb: Expression, s: State, fuel: nat)
    ensures var (rt, s1) := Eval(tb, s, fuel);
            && (!rt.Err? ==> Eval(TryCatch(tb, cb), s, fuel) == (rt, s1))
            && (rt.Err? ==>
                  Eval(TryCatch(tb, cb), s, fuel) == Eval(cb, s1.(output := s1.output + [CaughtText(rt.msg)]), fuel))
  {
  }

  /** `PrintChar` and `PrintNum` return their argument's value unchanged and,
      when it succeeds, send exactly one string. */
  lemma {:induction false} PrintPassesValue(x: Expression, s: State, fuel: nat)
    ensures Eval(PrintChar(x), s, fuel).0 == Eval(x, s, fuel).0
    ensures Eval(PrintNum(x), s, fuel).0 == Eval(x, s, fuel).0
    ensures var (r, s1) := Eval(x, s, fuel);
            && (r.Ok? ==> Eval(PrintChar(x), s, fuel).1 == s1.(output := s1.output + [CharText(r.value)]))
            && (r.Ok? ==> Eval(PrintNum(x), s, fuel).1 == s1.(output := s1.output + [Decimal(r.value) + "\n"]))
            && (!r.Ok? ==> Eval(PrintChar(x), s, fuel).1 == s1 && Eval(PrintNum(x), s, fuel).1 == s1)
  {
  }

  // ------------------------------------------- programs without constants

  /** Expressions with no literal and no use of `*` or `&`: every
      expression the parser produces is one. */
  predicate NoConstants(e: Expression)
    decreases e
  {
    match e
    case Val(_) => false
    case If(c, t, f) => NoConstants(c) && NoConstants(t) && NoConstants(f)
    case FunctionDef(_, _, body) => NoConstants(body)
    case FunctionCall(n, arg) => !IsBuiltin(n) && NoConstants(arg)
    case ListExp(items) => forall i :: 0 <= i < |items| ==> NoConstants(items[i])
    case TryCatch(tb, cb) => NoConstants(tb) && NoConstants(cb)
    case PrintChar(x) => NoConstants(x)
    case PrintNum(x) => NoConstants(x)
  }

  /** Every variable holds 0 and every function body is without constants. */
  predicate ZeroState(s: State) {
    && (forall v :: v in s.variables ==> s.variables[v] == 0)
    && (forall g :: g in s.functions ==> NoConstants(s.functions[g].body))
  }

  /** An expression without constants, in a state of zeros, can only compute
      0 and leaves a state of zeros. */
  lemma {:induction false} OnlyZero(e: Expression, s: State, fuel: nat)
    requires NoConstants(e) && ZeroState(s)
    ensures var (r, s1) := Eval(e, s, fuel);
            (r.Ok? ==> r.value == 0) && ZeroState(s1)
    decreases fuel, e
  {
    match e
    case If(c, t, f) =>
      var (rc, s1) := Eval(c, s, fuel);
      OnlyZero(c, s, fuel);
      if rc.Ok? {
        OnlyZero(if rc.value != 0 then t else f, s1, fuel);
      }
    case FunctionDef(name, params, body) =>
      if |params| == 0 {
        OnlyZero(body, s, fuel);
      }
    case FunctionCall(name, arg) =>
      CallOnlyZero(name, arg, s, fuel);
    case ListExp(items) =>
      ListOnlyZero(items, s, fuel, 0);
    case TryCatch(tb, cb) =>
      var (rt, s1) := Eval(tb, s, fuel);
      OnlyZero(tb, s, fuel);
      if rt.Err? {
        OnlyZero(cb, s1.(output := s1.output + [CaughtText(rt.msg)]), fuel);
      }
    case PrintChar(x) =>
      OnlyZero(x, s, fuel);
    case PrintNum(x) =>
      OnlyZero(x, s, fuel);
  }

  lemma {:induction false} CallOnlyZero(name: Var, arg: Expression, s: State, fuel: nat)
    requires !IsBuiltin(name) && NoConstants(arg) && ZeroState(s)
    ensures var (r, s1) := EvalCall(name, arg, s, fuel);
            (r.Ok? ==> r.value == 0) && ZeroState(s1)
    decreases fuel, arg
  {
    if arg != ListExp([]) && name in s.functions && arg.ListExp? {
      var f := s.functions[name];
      if |arg.items| == |f.args| {
        var (ra, s1) := EvalArgs(arg.items, f.args, s, fuel, map[]);
        ArgsOnlyZero(arg.items, f.args, s, fuel, map[]);
        if ra.Ok? && fuel > 0 {
          OnlyZero(f.body, State(s1.functions, ra.value, s1.output), fuel - 1);
        }
      }
    }
  }

  lemma {:induction false} ListOnlyZero(items: seq<Expression>, s: State, fuel: nat, last: U32)
    requires (forall i :: 0 <= i < |items| ==> NoConstants(items[i])) && ZeroState(s) && last == 0
    ensures var (r, s1) := EvalList(items, s, fuel, last);
            (r.Ok? ==> r.value == 0) && ZeroState(s1)
    decreases fuel, items
  {
    if items != [] {
      var (r, s1) := Eval(items[0], s, fuel);
      OnlyZero(items[0], s, fuel);
      if r.Ok? {
        assert forall i :: 0 <= i < |items[1..]| ==> items[1..][i] == items[i + 1];
        ListOnlyZero(items[1..], s1, fuel, r.value);
      }
    }
  }

  lemma {:induction false} ArgsOnlyZero(args: seq<Expression>, params: seq<Var>, s: State, fuel: nat, local: map<Var, U32>)
    requires |args| == |params|
    requires (forall i :: 0 <= i < |args| ==> NoConstants(args[i])) && ZeroState(s)
    requires forall v :: v in local ==> local[v] == 0
    ensures var (r, s1) := EvalArgs(args, params, s, fuel, local);
            (r.Ok? ==> forall v :: v in r.value ==> r.value[v] == 0) && ZeroState(s1)
    decreases fuel, args
  {
    if args != [] {
      var (r, s1) := Eval(args[0], s, fuel);
      OnlyZero(args[0], s, fuel);
      if r.Ok? {
        assert forall i :: 0 <= i < |args[1..]| ==> args[1..][i] == args[i + 1];
        ArgsOnlyZero(args[1..], params[1..], s1, fuel, local[params[0] := r.value]);
      }
    }
  }
}
