/** The tree-walking evaluator of src/eval.rs.

    `eval_expression` updates the function table and the variable table in
    place and sends text to the host's `logOutput`. `Eval` below is its
    specification: it threads the same three pieces of state explicitly, as
    a `State`, and returns the state also when evaluation fails, because a
    failure caught by `TryCatch` keeps the updates made before it. The method
    `EvalExpression` does the work on `FunctionTable`, `VarTable` and `Sink`
    objects, with the loops of the Rust code, and is proved to agree with
    `Eval`.

    `fuel`, the number of function calls that may still be nested, models
    the stack overflow of deep function-call recursion: entering a function
    body with no fuel left is `Exhausted`. The stack used by deeply nested
    brackets in call-free expressions is not bounded. */
module Evaluator {
  import opened Prelude
  import opened Parse

  /** A function table entry: its parameter names and its body. */
  datatype Function = Function(args: seq<Var>, body: Expression)

  /** What evaluation reads and writes: the global function table, the
      variable table in scope, and every string sent to the output sink. */
  datatype State = State(functions: map<Var, Function>, variables: map<Var, U32>, output: seq<string>)

  /** `u32::saturating_add(v, 1)`. */
  function SaturatingInc(v: U32): (w: U32)
    ensures v < U32_MAX ==> w == v + 1
    ensures v == U32_MAX ==> w == U32_MAX
  {
    if v == U32_MAX then U32_MAX else v + 1
  }

  /** Code points that `char::from_u32` accepts: the Unicode scalar values. */
  predicate IsScalar(v: int) {
    0 <= v < 0xD800 || 0xE000 <= v < 0x11_0000
  }

  /** The text `PrintChar` emits: the character with that code, or `?`. */
  function CharText(v: U32): string {
    if IsScalar(v) then [v as char] else "?"
  }

  /** The diagnostic `TryCatch` emits for a caught error. */
  function CaughtText(err: string): string {
    "Warning!: Error caught in try block: " + err + "\n"
  }

  predicate IsBuiltin(name: Var) {
    name.name == "*" || name.name == "&"
  }

  /** The result of `eval_expression(e, funcs, vars)` and the tables and
      output afterwards, with `fuel` nested calls allowed. */
  function Eval(e: Expression, s: State, fuel: nat): (Outcome<U32>, State)
    decreases fuel, e
  {
    match e
    case Val(n) => (Ok(n), s)
    case If(c, t, f) =>
      var (rc, s1) := Eval(c, s, fuel);
      if !rc.Ok? then (rc, s1)
      else if rc.value != 0 then Eval(t, s1, fuel)
      else Eval(f, s1, fuel)
    case FunctionDef(name, params, body) =>
      if |params| == 0 then
        var (rb, s1) := Eval(body, s, fuel);
        if !rb.Ok? then (rb, s1)
        else if name in s1.variables then (rb, s1)
        else (rb, s1.(variables := s1.variables[name := rb.value]))
      else (Ok(0), s.(functions := s.functions[name := Function(params, body)]))
    case FunctionCall(name, arg) => EvalCall(name, arg, s, fuel)
    case ListExp(items) => EvalList(items, s, fuel, 0)
    case TryCatch(tryBlock, catchBlock) =>
      var (rt, s1) := Eval(tryBlock, s, fuel);
      if rt.Err? then Eval(catchBlock, s1.(output := s1.output + [CaughtText(rt.msg)]), fuel)
      else (rt, s1)
    case PrintChar(x) =>
      var (r, s1) := Eval(x, s, fuel);
      if r.Ok? then (r, s1.(output := s1.output + [CharText(r.value)])) else (r, s1)
    case PrintNum(x) =>
      var (r, s1) := Eval(x, s, fuel);
      if r.Ok? then (r, s1.(output := s1.output + [Decimal(r.value) + "\n"])) else (r, s1)
  }

  /** The `FunctionCall` arm: the two built-in operators, a variable read,
      or a call of a function from the table. */
  function EvalCall(name: Var, arg: Expression, s: State, fuel: nat): (Outcome<U32>, State)
    decreases fuel, arg
  {
    if IsBuiltin(name) && arg.ListExp? then
      if |arg.items| != 1 then
        (Err(name.name + " operator expects exactly one argument, got " + Decimal(|arg.items|)), s)
      else
        var (r, s1) := Eval(arg.items[0], s, fuel);
        if !r.Ok? then (r, s1)
        else if name.name == "*" then
          if r.value == 0 then (Err("Cannot decrement zero"), s1) else (Ok(r.value - 1), s1)
        else (Ok(SaturatingInc(r.value)), s1)
    else if arg == ListExp([]) then
      if name in s.variables then (Ok(s.variables[name]), s)
      else (Err("Variable " + name.name + " not defined"), s)
    else if name !in s.functions then (Err("Function " + name.name + " not defined"), s)
    else
      var f := s.functions[name];
      if !arg.ListExp? then (Err("Expected a list of arguments for function call"), s)
      else if |arg.items| != |f.args| then
        (Err("Function " + name.name + " expects " + Decimal(|f.args|) + " arguments, got " + Decimal(|arg.items|)), s)
      else
        var (ra, s1) := EvalArgs(arg.items, f.args, s, fuel, map[]);
        if !ra.Ok? then (Forward(ra), s1)
        else if fuel == 0 then (Exhausted, s1)
        else
          var (rb, s2) := Eval(f.body, State(s1.functions, ra.value, s1.output), fuel - 1);
          (rb, State(s2.functions, s1.variables, s2.output))
  }

  /** The loop over the items of a `ListExp` from `items` on, the last value being `last`. */
  function EvalList(items: seq<Expression>, s: State, fuel: nat, last: U32): (Outcome<U32>, State)
    decreases fuel, items
  {
    if items == [] then (Ok(last), s)
    else
      var (r, s1) := Eval(items[0], s, fuel);
      if !r.Ok? then (r, s1) else EvalList(items[1..], s1, fuel, r.value)
  }

  /** The loop building a call's fresh variable table: each argument is
      evaluated in the caller's state and bound to its parameter in `local`. */
  function EvalArgs(args: seq<Expression>, params: seq<Var>, s: State, fuel: nat, local: map<Var, U32>)
    : (Outcome<map<Var, U32>>, State)
    requires |args| == |params|
    decreases fuel, args
  {
    if args == [] then (Ok(local), s)
    else
      var (r, s1) := Eval(args[0], s, fuel);
      if !r.Ok? then (Forward(r), s1)
      else EvalArgs(args[1..], params[1..], s1, fuel, local[params[0] := r.value])
  }

  // ------------------------------------------------------------ the objects

  /** `VarTable`: the variables in scope, updated in place. */
  class VarTable {
    var variables: map<Var, U32>

    constructor ()
      ensures variables == map[]
    {
      variables := map[];
    }
  }

  /** `FunctionTable`: the global function table, updated in place. */
  class FunctionTable {
    var functions: map<Var, Function>

    constructor ()
      ensures functions == map[]
    {
      functions := map[];
    }
  }

  /** The host's `logOutput`: everything it has been sent, in order. */
  class Sink {
    var emitted: seq<string>

    constructor ()
      ensures emitted == []
    {
      emitted := [];
    }

    method Log(text: string)
      modifies this
      ensures emitted == old(emitted) + [text]
    {
      emitted := emitted + [text];
    }
  }

  function Snapshot(funcs: FunctionTable, vars: VarTable, out: Sink): State
    reads funcs, vars, out
  {
    State(funcs.functions, vars.variables, out.emitted)
  }

  /** `eval_expression`. */
  method EvalExpression(exp: Expression, funcs: FunctionTable, vars: VarTable, out: Sink, fuel: nat)
    returns (r: Outcome<U32>)
    modifies funcs, vars, out
    ensures (r, Snapshot(funcs, vars, out)) == Eval(exp, old(Snapshot(funcs, vars, out)), fuel)
    decreases fuel, exp
  {
    match exp {
      case Val(n) =>
        r := Ok(n);
      case If(c, t, f) =>
        var rc := EvalExpression(c, funcs, vars, out, fuel);
        if !rc.Ok? {
          return rc;
        }
        if rc.value != 0 {
          r := EvalExpression(t, funcs, vars, out, fuel);
        } else {
          r := EvalExpression(f, funcs, vars, out, fuel);
        }
      case FunctionDef(name, params, body) =>
        if |params| == 0 {
          r := EvalExpression(body, funcs, vars, out, fuel);
          if !r.Ok? {
            return;
          }
          if name !in vars.variables {
            vars.variables := vars.variables[name := r.value];
          }
        } else {
          funcs.functions := funcs.functions[name := Function(params, body)];
          r := Ok(0);
        }
      case FunctionCall(name, arg) =>
        r := EvalFunctionCall(name, arg, funcs, vars, out, fuel);
      case ListExp(items) =>
        var result: U32 := 0;
        var i := 0;
        while i < |items|
          invariant 0 <= i <= |items|
          invariant EvalList(items, old(Snapshot(funcs, vars, out)), fuel, 0)
                 == EvalList(items[i..], Snapshot(funcs, vars, out), fuel, result)
        {
          assert items[i..][0] == items[i] && items[i..][1..] == items[i + 1..];
          var x := EvalExpression(items[i], funcs, vars, out, fuel);
          if !x.Ok? {
            return x;
          }
          result := x.value;
          i := i + 1;
        }
        r := Ok(result);
      case TryCatch(tryBlock, catchBlock) =>
        r := EvalExpression(tryBlock, funcs, vars, out, fuel);
        if r.Err? {
          out.Log(CaughtText(r.msg));
          r := EvalExpression(catchBlock, funcs, vars, out, fuel);
        }
      case PrintChar(x) =>
        r := EvalExpression(x, funcs, vars, out, fuel);
        if r.Ok? {
          out.Log(CharText(r.value));
        }
      case PrintNum(x) =>
        r := EvalExpression(x, funcs, vars, out, fuel);
        if r.Ok? {
          out.Log(Decimal(r.value) + "\n");
        }
    }
  }

  /** The `FunctionCall` arm of `eval_expression`. */
  method EvalFunctionCall(name: Var, arg: Expression, funcs: FunctionTable, vars: VarTable, out: Sink, fuel: nat)
    returns (r: Outcome<U32>)
    modifies funcs, vars, out
    ensures (r, Snapshot(funcs, vars, out)) == EvalCall(name, arg, old(Snapshot(funcs, vars, out)), fuel)
    decreases fuel, arg
  {
    if IsBuiltin(name) && arg.ListExp? {
      var args := arg.items;
      if |args| != 1 {
        return Err(name.name + " operator expects exactly one argument, got " + Decimal(|args|));
      }
      var v := EvalExpression(args[0], funcs, vars, out, fuel);
      if !v.Ok? {
        return v;
      }
      if name.name == "*" {
        if v.value == 0 {
          return Err("Cannot decrement zero");
        }
        return Ok(v.value - 1);
      }
      return Ok(SaturatingInc(v.value));
    }
    if arg == ListExp([]) {
      if name !in vars.variables {
        return Err("Variable " + name.name + " not defined");
      }
      return Ok(vars.variables[name]);
    }
    if name !in funcs.functions {
      return Err("Function " + name.name + " not defined");
    }
    var f := funcs.functions[name];
    if !arg.ListExp? {
      return Err("Expected a list of arguments for function call");
    }
    var params := arg.items;
    if |params| != |f.args| {
      return Err("Function " + name.name + " expects " + Decimal(|f.args|) + " arguments, got " + Decimal(|params|));
    }
    var failure, local := BindArguments(params, f.args, funcs, vars, out, fuel);
    if !failure.Ok? {
      return failure;
    }
    if fuel == 0 {
      return Exhausted;
    }
    r := EvalExpression(f.body, funcs, local, out, fuel - 1);
  }

  /** The `for` loop of the call arm: each argument is evaluated, in order,
      in the caller's tables, and bound to its parameter in a fresh table;
      the first failure stops the loop and is returned. */
  method BindArguments(args: seq<Expression>, params: seq<Var>, funcs: FunctionTable, vars: VarTable, out: Sink, fuel: nat)
    returns (failure: Outcome<U32>, local: VarTable)
    requires |args| == |params|
    modifies funcs, vars, out
    ensures fresh(local)
    ensures var (ra, s1) := EvalArgs(args, params, old(Snapshot(funcs, vars, out)), fuel, map[]);
            && Snapshot(funcs, vars, out) == s1
            && (ra.Ok? <==> failure.Ok?)
            && (ra.Ok? ==> local.variables == ra.value)
            && (!ra.Ok? ==> Forward(ra) == failure)
    decreases fuel, args
  {
    local := new VarTable();
    var i := 0;
    while i < |args|
      invariant 0 <= i <= |args|
      invariant fresh(local)
      invariant EvalArgs(args, params, old(Snapshot(funcs, vars, out)), fuel, map[])
             == EvalArgs(args[i..], params[i..], Snapshot(funcs, vars, out), fuel, local.variables)
    {
      assert args[i..][0] == args[i] && args[i..][1..] == args[i + 1..];
      assert params[i..][0] == params[i] && params[i..][1..] == params[i + 1..];
      var v := EvalExpression(args[i], funcs, vars, out, fuel);
      if !v.Ok? {
        return v, local;
      }
      local.variables := local.variables[params[i] := v.value];
      i := i + 1;
    }
    failure := Ok(0);
  }
}
