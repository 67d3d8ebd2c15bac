/** The driver of src/lib.rs: `eval_all` tokenizes the source, then parses
    and evaluates one top-level expression at a time against one function
    table and one variable table, keeping the decimal text of the last value;
    `eval_unwrapped` turns an error into a printable string. */
module Lib {
  import opened Prelude
  import opened Parse
  import opened Evaluator

  /** The `while index < tokens.len()` loop of `eval_all` from `index` on,
      with the tables and output in `s` and the last result text `output`. */
  function Run(tokens: seq<Token>, index: nat, s: State, output: string, fuel: nat): (Outcome<string>, State)
    requires index <= |tokens|
    decreases |tokens| - index
  {
    if index == |tokens| then (Ok(output), s)
    else
      var p := NextExpression(tokens, index);
      if !p.Ok? then (Forward(p), s)
      else
        var (x, s1) := Eval(p.value.0, s, fuel);
        if !x.Ok? then (Forward(x), s1)
        else Run(tokens, p.value.1, s1, Decimal(x.value), fuel)
  }

  /** The result of `eval_all(code)` and the output sink's log afterwards,
      `emitted` being what it held before. */
  function EvalAllSpec(code: string, emitted: seq<string>, fuel: nat): (Outcome<string>, seq<string>) {
    var lexed := Lexed(code);
    if !lexed.Ok? then (Forward(lexed), emitted)
    else
      var (r, s) := Run(lexed.value, 0, State(map[], map[], emitted), "", fuel);
      (r, s.output)
  }

  /** `eval_all`. */
  method EvalAll(code: string, out: Sink, fuel: nat) returns (r: Outcome<string>)
    modifies out
    ensures (r, out.emitted) == EvalAllSpec(code, old(out.emitted), fuel)
  {
    var output := "";
    var lexed := Tokenize(code);
    if !lexed.Ok? {
      return Forward(lexed);
    }
    var tokens := lexed.value;
    var funcs := new FunctionTable();
    var vars := new VarTable();
    var index := 0;
    while index < |tokens|
      invariant 0 <= index <= |tokens|
      invariant fresh(funcs) && fresh(vars)
      invariant EvalAllSpec(code, old(out.emitted), fuel)
             == (Run(tokens, index, Snapshot(funcs, vars, out), output, fuel).0,
                 Run(tokens, index, Snapshot(funcs, vars, out), output, fuel).1.output)
      decreases |tokens| - index
    {
      var p := GetNextExpression(tokens, index);
      if !p.Ok? {
        return Forward(p);
      }
      index := p.value.1;
      var x := EvalExpression(p.value.0, funcs, vars, out, fuel);
      if !x.Ok? {
        return Forward(x);
      }
      output := Decimal(x.value);
    }
    return Ok(output);
  }

  /** `eval_unwrapped`'s treatment of the result of `eval_all`: a success is
      returned as it is, an error `e` as the text "Error: " + e. A panic or a
      stack overflow has no text. */
  function Unwrapped(r: Outcome<string>): (u: Outcome<string>)
    ensures !u.Err?
  {
    match r
    case Ok(text) => Ok(text)
    case Err(e) => Ok("Error: " + e)
    case Panic => Panic
    case Exhausted => Exhausted
  }

  /** `eval_unwrapped`. */
  method EvalUnwrapped(code: string, out: Sink, fuel: nat) returns (u: Outcome<string>)
    modifies out
    ensures u == Unwrapped(EvalAllSpec(code, old(out.emitted), fuel).0)
    ensures out.emitted == EvalAllSpec(code, old(out.emitted), fuel).1
  {
    var r := EvalAll(code, out, fuel);
    u := Unwrapped(r);
  }
}
