/** What the driver of src/lib.rs promises: a tokenizer error comes first
    and alone, blank input prints nothing, the tables persist from one
    top-level expression to the next, and, since the parser has no syntax
    for literals or the built-in operators, every successful run prints
    nothing or `0`. */
module LibFacts {
  import opened Prelude
  import opened Parse
  import opened LexFacts
  import opened ParseFacts
  import opened Evaluator
  import opened EvalFacts
  import opened Lib

  /** A character that is not a token and not whitespace is reported, the
      first one of them, before anything is parsed, evaluated or printed. */
  lemma {:induction false} IllegalCharacter(code: string, k: nat, emitted: seq<string>, fuel: nat)
    requires k < |code| && !Legal(code[k])
    requires forall j :: 0 <= j < k ==> Legal(code[j])
    ensures EvalAllSpec(code, emitted, fuel) == (Err("Unexpected character: " + [code[k]]), emitted)
  {
    LexedFirstIllegal(code, k);
  }

  /** `eval_unwrapped` turns that error into the text it returns. */
  lemma {:induction false} UnwrappedIllegal(code: string, k: nat, emitted: seq<string>, fuel: nat)
    requires k < |code| && !Legal(code[k])
    requires forall j :: 0 <= j < k ==> Legal(code[j])
    ensures Unwrapped(EvalAllSpec(code, emitted, fuel).0) == Ok("Error: Unexpected character: " + [code[k]])
  {
    IllegalCharacter(code, k, emitted, fuel);
    assert "Error: " + ("Unexpected character: " + [code[k]]) == "Error: Unexpected character: " + [code[k]];
  }

  /** Empty or blank input succeeds with the empty string and prints nothing. */
  lemma {:induction false} BlankProgram(code: string, emitted: seq<string>, fuel: nat)
    requires forall i :: 0 <= i < |code| ==> IsWhitespace(code[i])
    ensures EvalAllSpec(code, emitted, fuel) == (Ok(""), emitted)
  {
    LexedBlank(code);
  }

  /** A program that starts with `[` and then `(`, such as `[()]`, panics in
      the parser, before anything is evaluated or printed. */
  lemma {:induction false} ParenAfterSquarePanics(code: string, emitted: seq<string>, fuel: nat)
    requires |code| >= 2 && code[0] == '[' && code[1] == '(' && Lexed(code).Ok?
    ensures EvalAllSpec(code, emitted, fuel) == (Panic, emitted)
  {
    var head := code[..2];
    LexRender([OpenSquare, OpenParen]);
    assert Render([OpenSquare, OpenParen]) == head;
    LexedAppend(head, code[2..]);
    assert head + code[2..] == code;
    var tokens := Lexed(code).value;
    assert tokens[..2] == [OpenSquare, OpenParen];
    StrayItemPanics(tokens, 0);
  }

  /** The program `[` is not an error: the end of the tokens closes the list
      it opens, so it is an empty group and the run returns `"0"`. */
  lemma {:induction false} LoneSquareGivesZero(emitted: seq<string>, fuel: nat)
    ensures EvalAllSpec("[", emitted, fuel) == (Ok("0"), emitted)
  {
    LexRender([OpenSquare]);
    assert Render([OpenSquare]) == "[";
    var tokens := [OpenSquare];
    SquareAtEndIsEmptyGroup(tokens);
    var s := State(map[], map[], emitted);
    assert Eval(ListExp([]), s, fuel) == (Ok(0), s);
  }

  /** The tables and the output are shared by all top-level expressions:
      what one of them binds, defines or prints is still there for the
      ones after it and at the end. */
  lemma {:induction false} RunExtends(tokens: seq<Token>, index: nat, s: State, output: string, fuel: nat)
    requires index <= |tokens|
    ensures Extends(s, Run(tokens, index, s, output, fuel).1)
    decreases |tokens| - index
  {
    if index < |tokens| {
      var p := NextExpression(tokens, index);
      if p.Ok? {
        var (x, s1) := Eval(p.value.0, s, fuel);
        EvalExtends(p.value.0, s, fuel);
        if x.Ok? {
          RunExtends(tokens, p.value.1, s1, Decimal(x.value), fuel);
          ExtendsTrans(s, s1, Run(tokens, p.value.1, s1, Decimal(x.value), fuel).1);
        }
      }
    }
  }

  /** An expression that parses, evaluates and reaches the end of the
      tokens gives the decimal text of its value as the result. */
  lemma {:induction false} LastValue(tokens: seq<Token>, index: nat, s: State, output: string, fuel: nat)
    requires index < |tokens| && NextExpression(tokens, index).Ok?
    requires NextExpression(tokens, index).value.1 == |tokens|
    requires Eval(NextExpression(tokens, index).value.0, s, fuel).0.Ok?
    ensures var (x, s1) := Eval(NextExpression(tokens, index).value.0, s, fuel);
            Run(tokens, index, s, output, fuel) == (Ok(Decimal(x.value)), s1)
  {
  }

  /** A parse or evaluation error ends the run with that error; no result
      text survives it. */
  lemma {:induction false} ErrorsAbort(tokens: seq<Token>, index: nat, s: State, output: string, fuel: nat)
    requires index < |tokens|
    ensures var p := NextExpression(tokens, index);
            && (!p.Ok? ==> Run(tokens, index, s, output, fuel) == (Forward(p), s))
            && (p.Ok? && !Eval(p.value.0, s, fuel).0.Ok? ==>
                  Run(tokens, index, s, output, fuel)
                  == (Forward(Eval(p.value.0, s, fuel).0), Eval(p.value.0, s, fuel).1))
  {
  }

  // ------------------------------------------------ parsed programs give 0

  lemma {:induction false} ParenNameNotBuiltin(n: string)
    requires ParenText(n)
    ensures !IsBuiltin(Var(n))
  {
    if |n| > 0 {
      assert n[0] == '(' || n[0] == ')';
    }
  }

  /** Everything the parser builds is free of literals and of `*` and `&`. */
  lemma {:induction false} ParsedNoConstants(tokens: seq<Token>, start: nat)
    requires NextExpression(tokens, start).Ok?
    ensures NoConstants(NextExpression(tokens, start).value.0)
    decreases |tokens| - start, 2
  {
    if tokens[start] == OpenCurly {
      CurlyNoConstants(tokens, start);
    } else {
      SquareNoConstants(tokens, start);
    }
  }

  /** A definition or a call: its name is made of parentheses. */
  lemma {:induction false} CurlyNoConstants(tokens: seq<Token>, start: nat)
    requires start < |tokens| && tokens[start] == OpenCurly && NextExpression(tokens, start).Ok?
    ensures NoConstants(NextExpression(tokens, start).value.0)
    decreases |tokens| - start, 1
  {
    VarNameResult(tokens, start + 1);
    var (name, i) := VarName(tokens, start + 1).value;
    ParenNameNotBuiltin(name);
    if tokens[i + 1] == OpenParen {
      var j := VarList(tokens, i + 1).value.1;
      ListNoConstants(tokens, j);
    } else {
      ListNoConstants(tokens, i + 1);
    }
  }

  /** A group or a conditional: made of expression lists. */
  lemma {:induction false} SquareNoConstants(tokens: seq<Token>, start: nat)
    requires start < |tokens| && tokens[start] == OpenSquare && NextExpression(tokens, start).Ok?
    ensures NoConstants(NextExpression(tokens, start).value.0)
    decreases |tokens| - start, 1
  {
    ListNoConstants(tokens, start);
    var i := ExpressionList(tokens, start).value.1;
    if i < |tokens| - 1 {
      ListNoConstants(tokens, i + 1);
      var j := ExpressionList(tokens, i + 1).value.1;
      if j < |tokens| - 1 && tokens[j] == Pipe {
        ListNoConstants(tokens, j + 1);
      }
    }
  }

  lemma {:induction false} ListNoConstants(tokens: seq<Token>, start: nat)
    requires ExpressionList(tokens, start).Ok?
    ensures var items := ExpressionList(tokens, start).value.0;
            forall i :: 0 <= i < |items| ==> NoConstants(items[i])
    decreases |tokens| - start, 0
  {
    ItemsNoConstants(tokens, start + 1, []);
  }

  lemma {:induction false} ItemsNoConstants(tokens: seq<Token>, index: nat, items: seq<Expression>)
    requires index <= |tokens| && ItemsFrom(tokens, index, items).Ok?
    requires forall i :: 0 <= i < |items| ==> NoConstants(items[i])
    ensures var es := ItemsFrom(tokens, index, items).value.0;
            forall i :: 0 <= i < |es| ==> NoConstants(es[i])
    decreases |tokens| - index, 3
  {
    if index < |tokens| && tokens[index] != CloseSquare {
      var (e, next) := NextExpression(tokens, index).value;
      ParsedNoConstants(tokens, index);
      ItemsNoConstants(tokens, next, items + [e]);
    }
  }

  lemma {:induction false} RunOnlyZero(tokens: seq<Token>, index: nat, s: State, output: string, fuel: nat)
    requires index <= |tokens| && ZeroState(s) && (output == "" || output == "0")
    ensures var r := Run(tokens, index, s, output, fuel).0;
            r.Ok? ==> r.value == "" || r.value == "0"
    decreases |tokens| - index
  {
    if index < |tokens| {
      var p := NextExpression(tokens, index);
      if p.Ok? {
        ParsedNoConstants(tokens, index);
        var (x, s1) := Eval(p.value.0, s, fuel);
        OnlyZero(p.value.0, s, fuel);
        if x.Ok? {
          assert Decimal(x.value) == "0";
          RunOnlyZero(tokens, p.value.1, s1, Decimal(x.value), fuel);
        }
      }
    }
  }

  /** The language as its parser reads it has no way to write a number
      other than 0: a successful run's result is `""` or `"0"`. */
  lemma {:induction false} ProgramsComputeZero(code: string, emitted: seq<string>, fuel: nat)
    ensures var r := EvalAllSpec(code, emitted, fuel).0;
            r.Ok? ==> r.value == "" || r.value == "0"
  {
    var lexed := Lexed(code);
    if lexed.Ok? {
      RunOnlyZero(lexed.value, 0, State(map[], map[], emitted), "", fuel);
    }
  }
}
