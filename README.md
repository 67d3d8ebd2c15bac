# bracket-eso-lang in Dafny

A model of the interpreter of bracket-eso-lang, an esoteric language written
only with the brackets `( ) [ ] { }` and the pipe `|`. The model covers the
three core files:

- `src/parse.rs`: the tokenizer, and the recursive-descent parser. The parser
  reads an identifier as a balanced run of parentheses, calls the parameter
  list of a definition a "variable list", and groups expressions in square
  brackets.
- `src/eval.rs`: the tree-walking evaluator. It works on a global function
  table and a variable table that is replaced by a fresh one on each call. It
  also handles try/catch and two print forms, which write to an output sink.
- `src/lib.rs`: the driver. `eval_all` tokenizes the source, then parses and
  evaluates one top-level expression after another. It returns the decimal
  text of the last value. `eval_unwrapped` turns an error into the text
  `"Error: " + message`.

How the model is built:

- **Spec functions and methods.** Every Rust function becomes a pure
  specification function: `Lexed`, `VarName`, `VarList`, `NextExpression`,
  `ExpressionList`, `Eval`, `EvalCall`, `EvalList`, `EvalArgs` and `Run`.
  Every Rust function is also a method that follows the code step by step.
  The Rust loops become `while` loops, in `Tokenize`, `GetVarName`,
  `GetVarList`, `GetExpressionList`, `EvalExpression`, `BindArguments` and
  `EvalAll`. `GetNextExpression` has no loop of its own: it dispatches on
  the first token and advances a mutable index, as `get_next_expression`
  does. `EvalFunctionCall` is the call case of `EvalExpression`. Each method
  is proved to return exactly what its function says.
- **Mutable tables.** The evaluator's tables, `VarTable` and
  `FunctionTable`, are classes that hold a `map` field. `EvalExpression`,
  `EvalFunctionCall` and `BindArguments` assign these fields in place. The
  output `Sink` is a class whose `Log` method appends what `logOutput`
  receives.
- **Outcomes.** A result is an `Outcome`, one of four:
  - `Ok(value)`;
  - `Err(message)`, a Rust `Err` string;
  - `Panic`, an `.unwrap()` of an `Err`, or an index past the end of the
    tokens;
  - `Exhausted`, when the call-depth budget `fuel` runs out on entering a
    function body. This stands for the host stack overflowing in deep
    function-call recursion. The stack used by deeply nested brackets is not
    bounded, in the parser or in evaluating call-free expressions.
- **Proofs.** The semantic facts are lemmas about the specification
  functions, in modules `LexFacts`, `ParseFacts`, `EvalFacts` and
  `LibFacts`.
- **Printer.** `ParseFacts` defines a printer, `Unparse`, from expressions to
  tokens. The parser is proved to be its inverse on every definition, call
  and three-branch conditional with balanced names whose lists hold the same
  (`Printable`). The two other shapes the parser builds, a plain group at the
  end of the tokens and a conditional without an else branch, have their own
  lemmas (`GroupAtEnd`, `IfWithoutElse`).

Headline results:

- `LexFacts.LexRender`: tokenizing the rendering of any token sequence gives
  that sequence back.
- `ParseFacts.ParseUnparse`: parsing the printed form of an expression gives
  the expression back, plus the index just after it.
- `EvalFacts.CallIsolation`: a call's body never changes the caller's
  variables; only its arguments, evaluated in the caller's scope, can bind
  them.
- `EvalFacts.FirstBindingWins`: re-binding a variable keeps its first value.
- `EvalFacts.LastDefinitionWins`: re-defining a function replaces it.
- `EvalFacts.FuelMonotone`: a result obtained with some fuel does not change
  with more fuel.
- `LibFacts.ProgramsComputeZero`: since the parser never produces a
  constant, every program that succeeds returns `""` or `"0"`.

### Where the code departs from the language as intended (the model follows the code)

- **Characters.** The tokenizer knows seven characters. The language also
  has `*expr` (decrement) and `&expr` (increment) as prefix glyphs, but the
  code rejects `*` and `&` as unexpected characters.
  The built-in decrement and increment are therefore modelled in the
  evaluator, but no parsed program reaches them (`LibFacts.ParenNameNotBuiltin`).
- **Numeric literals.** The language writes the number n as `[`, n pairs
  `()`, `]`, so `[()()()]` would be 3. The parser has no such rule.
  - `[]` is an empty group, whose value is 0.
  - `[()]` panics: `get_next_expression` meets `(` inside a list, and the
    `Err` is unwrapped (`ParseFacts.StrayItemPanics`,
    `LibFacts.ParenAfterSquarePanics`).
  - Hence no program computes anything but 0 (`LibFacts.ProgramsComputeZero`).
- **Unclosed names.** An identifier that is still open when the tokens end
  should be an error. `get_var_name` instead returns that run as the name
  (`ParseFacts.VarNameOpenAtEnd`). `get_var_list` likewise ends without a `)`
  when the tokens run out (`ParseFacts.VarListRunsOut`,
  `ParseFacts.VarListOpenName`).
- **Panics and error messages.** Errors from the helpers are unwrapped, and
  `tokens[start]` is read without a bounds check, so malformed input can
  panic. For example, `{` as the last token panics
  (`ParseFacts.CurlyAtEndPanics`). Only "Unexpected token at i" reports an
  index.
- **Ends of lists.** The list loop stops when the tokens run out, so an
  unclosed list is not always an error.
  - A `[` as the last token is read as an empty group
    (`ParseFacts.SquareAtEndIsEmptyGroup`), so the program `[` returns `"0"`
    (`LibFacts.LoneSquareGivesZero`).
  - After a then branch, `get_next_expression` requires at least two more
    tokens, and it counts the `]` of an enclosing list among them. So
    `[[]|[]]` panics: the conditional inside it is an error that the list
    unwraps (`ParseFacts.ThenBranchAtListEndPanics`). The same list followed
    by any token reads the conditional, with an empty else branch
    (`ParseFacts.ThenBranchBeforeMoreTokens`).
- **Argument count.** A call compares the number of arguments with the number
  of parameters before it evaluates any argument (`EvalFacts.ArityCheckedFirst`).
- **The AST `Expression`.** `src/eval.rs` matches on eight variants: `Val`,
  `TryCatch`, `PrintChar` and `PrintNum` besides the four that `src/parse.rs`
  declares. It also compares expressions with `==`, which the enum does not
  derive. The model's `Expression` has all eight variants, with structural
  equality.

## Model

| member | source | states |
|---|---|---|
| Prelude.Decimal | src/lib.rs:35 | the decimal text of a `u32` value is non-empty, all digits and has no leading zero |
| Prelude.DecimalRoundTrip | src/lib.rs:35 | reading the decimal text back gives the number |
| Prelude.DecimalInjective | src/lib.rs:35 | two numbers with the same decimal text are equal |
| Evaluator.SaturatingInc | src/eval.rs:67 | `saturating_add(1)`: one more below `u32::MAX`, `u32::MAX` at the maximum |
| Parse.Tokenize | src/parse.rs:60-81 | the loop returns the result of `Lexed`: a token per bracket in order, whitespace skipped, the first other character an error |
| Parse.VarName | src/parse.rs:191-217 | on success the end index is past `start` and within the tokens; it panics exactly when `start` is past the end (unchecked `tokens[start]`) |
| Parse.NameFrom | src/parse.rs:198-217 | the name loop ends within the tokens and never panics |
| Parse.GetVarName | src/parse.rs:191-217 | the while loop over the parenthesis count returns `VarName` |
| Parse.VarList | src/parse.rs:220-240 | on success the end index is past `start`; it panics exactly when `start` is past the end |
| Parse.VarsFrom | src/parse.rs:227-239 | the parameter loop ends within the tokens and never panics |
| Parse.GetVarList | src/parse.rs:220-240 | the loop collecting one name per `(` returns `VarList` |
| Parse.NextExpression | src/parse.rs:87-161 | a parsed expression consumes at least one token and ends within the tokens |
| Parse.ExpressionList | src/parse.rs:163-189 | a parsed list consumes at least its `[` and ends within the tokens |
| Parse.ItemsFrom | src/parse.rs:171-188 | the item loop ends within the tokens |
| Parse.GetNextExpression | src/parse.rs:87-161 | the dispatch on the first token, advancing a mutable index, returns `NextExpression` |
| Parse.GetExpressionList | src/parse.rs:163-189 | the loop pushing one expression per item up to `]` returns `ExpressionList` |
| LexFacts.SymbolInverse | src/parse.rs:18-32 | the character a token prints as is not whitespace and tokenizes back to that token |
| LexFacts.RenderAppend | src/parse.rs:18-32 | rendering distributes over concatenation |
| LexFacts.LexRender | src/parse.rs:60-81 | tokenizing the rendering of any token sequence gives it back |
| LexFacts.LexedSucceeds | src/parse.rs:73-77 | tokenizing succeeds if and only if every character is one of the seven or whitespace |
| LexFacts.LexedFirstIllegal | src/parse.rs:73-77 | the error names the first character that is neither a token nor whitespace |
| LexFacts.LexedSqueeze | src/parse.rs:60-81 | on success the tokens render as the input with its whitespace removed |
| LexFacts.LexedAppend | src/parse.rs:60-81 | tokenizing a concatenation tokenizes the parts one after the other |
| LexFacts.LexedBlank | src/parse.rs:73-77 | whitespace-only text gives no tokens |
| ParseFacts.PrefixDepthAgree | src/parse.rs:198-210 | the parenthesis count after `k` tokens depends only on those `k` tokens |
| ParseFacts.Extend | src/parse.rs:200-211 | one loop step adds the token's +1/-1 to the count and its character to the name |
| ParseFacts.NameShape | src/parse.rs:192-196 | a name starts with `(`, and a closed name has at least two parentheses |
| ParseFacts.FirstParen | src/parse.rs:195-198 | the loop starts with the name `(` and a count of 1 |
| ParseFacts.RenderParens | src/parse.rs:203-207 | a run of parentheses prints as that many `(`/`)` characters |
| ParseFacts.NameFromResult | src/parse.rs:198-217 | a name read from an open run is the text of the tokens read: a balanced name, or an open run up to the end of the tokens |
| ParseFacts.VarNameResult | src/parse.rs:191-217 | a name read by `get_var_name` is exactly the text of the tokens it consumed, and balanced unless the tokens ran out |
| ParseFacts.NameFromClosed | src/parse.rs:198-217 | inside a balanced name the loop runs to its closing `)` |
| ParseFacts.VarNameOfName | src/parse.rs:191-217 | a balanced name is read whole, ending right after its last `)` |
| ParseFacts.NameFromOpenEnd | src/parse.rs:199-217 | in parentheses still open at the end of the tokens the loop runs out and returns everything read, the count still positive |
| ParseFacts.VarNameOpenAtEnd | src/parse.rs:191-217 | a run of parentheses still open at the end of the tokens is accepted as a name reaching the end |
| ParseFacts.NameFromStray | src/parse.rs:209 | a non-parenthesis token before the count returns to 0 is an error |
| ParseFacts.VarNameStray | src/parse.rs:209 | from the start: a stray token inside a name gives "Unexpected token in variable name" |
| ParseFacts.VarNameNeedsOpen | src/parse.rs:192-194 | a name must start with `(` |
| ParseFacts.RenderNameTokens | src/parse.rs:203-207 | a text of parentheses is the rendering of its tokens |
| ParseFacts.VarNameAt | src/parse.rs:191-217 | the tokens of a balanced name text are read back as that text |
| ParseFacts.VarsFromParams | src/parse.rs:227-233 | the parameter loop reads printed names one after the other, appending them in order |
| ParseFacts.VarListAt | src/parse.rs:220-240 | a printed parameter list is read back as the same parameters, ending after its `)` |
| ParseFacts.VarListStray | src/parse.rs:235 | a non-parenthesis token after some names gives "Unexpected token in variable list" |
| ParseFacts.VarListRunsOut | src/parse.rs:224-239 | a parameter list whose tokens end after some names, without `)`, is accepted with those names |
| ParseFacts.VarListOpenName | src/parse.rs:227-239 | a parameter list ending inside an unclosed name is accepted, with that run as its last parameter |
| ParseFacts.VarListNeedsOpen | src/parse.rs:221-223 | a parameter list must start with `(` |
| ParseFacts.VarsFromResult | src/parse.rs:227-239 | the loop ends after a `)` or at the end of the tokens; every name read is made of parentheses |
| ParseFacts.VarListResult | src/parse.rs:220-240 | a parameter list starts with `(`, ends after a `)` or at the end, and holds only parenthesis names |
| ParseFacts.ItemsFromResult | src/parse.rs:171-188 | the item loop ends right after a `]`, or at the end of the tokens with no item parsed |
| ParseFacts.ExpressionListResult | src/parse.rs:163-189 | a list starts with `[` and ends after a `]`, except a lone `[` at the very end |
| ParseFacts.ExpressionListNeedsOpen | src/parse.rs:167-169 | a list must start with `[` |
| ParseFacts.VarsStep | src/parse.rs:229-233 | one step of the parameter loop: a name is appended and the loop goes on after it |
| ParseFacts.ListOpens | src/parse.rs:167-171 | a list starting with `[` continues with the item loop after it |
| ParseFacts.ItemsClose | src/parse.rs:173-176 | a `]` ends the list and is consumed |
| ParseFacts.ItemsStep | src/parse.rs:177-184 | one step of the item loop: the parsed expression is pushed and the loop goes on after it |
| ParseFacts.DefStep | src/parse.rs:94-116 | brace, name, `}`, parameters and body give a `FunctionDef` whose body is the list |
| ParseFacts.CallStep | src/parse.rs:94-121 | brace, name, `}` and an argument list give a `FunctionCall` |
| ParseFacts.IfStep | src/parse.rs:127-157 | condition, pipe, then, pipe and else lists give a three-branch `If` |
| ParseFacts.UnparseStart | src/parse.rs:93-127 | every printed expression starts with `{` or `[`, the two tokens the dispatch accepts |
| ParseFacts.ParseUnparse | src/parse.rs:87-161 | round trip: the parser reads the printed form of any parseable expression back, ending right after it |
| ParseFacts.ParseDef | src/parse.rs:94-116 | round trip for a function or variable definition |
| ParseFacts.ParseCall | src/parse.rs:117-121 | round trip for a call or variable read |
| ParseFacts.ParseIf | src/parse.rs:127-157 | round trip for a three-branch conditional |
| ParseFacts.ParseIfParts | src/parse.rs:127-157 | condition, then and else lists separated by pipes parse as that `If` |
| ParseFacts.ParseUnparseList | src/parse.rs:163-189 | round trip for a bracketed expression list |
| ParseFacts.ParseItemsPrefix | src/parse.rs:171-186 | the item loop reads printed items one after the other, appending them in order |
| ParseFacts.ParseFirstItem | src/parse.rs:177-184 | the item loop reads the first printed item and continues after it |
| ParseFacts.GroupStep | src/parse.rs:131-132 | a list that ends with the tokens is a plain group |
| ParseFacts.GroupAtEnd | src/parse.rs:131-132 | a printed list at the end of the tokens parses as a group |
| ParseFacts.GroupNotAtEndStep | src/parse.rs:133-137 | a list followed by one last token, or by a token other than `|`, is an error with that message |
| ParseFacts.GroupNotAtEnd | src/parse.rs:133-137 | the same for a printed list: a group is only accepted at the end of the tokens |
| ParseFacts.IfNoElseStep | src/parse.rs:145-149 | without a second pipe the `If` gets an empty else branch, ending after the then list |
| ParseFacts.IfWithoutElse | src/parse.rs:145-149 | the same for printed condition and then lists |
| ParseFacts.ThenAtEndStep | src/parse.rs:143-144 | a then list ending at or next to the end of the tokens is an error |
| ParseFacts.IfThenAtEnd | src/parse.rs:143-144 | the same for printed condition and then lists |
| ParseFacts.UnterminatedStep | src/parse.rs:178-183 | an item that reaches the end of the tokens gives "Expected ] at end of expression list" |
| ParseFacts.UnterminatedList | src/parse.rs:178-183 | a list whose last item runs to the end of the tokens, without `]`, is that error |
| ParseFacts.UnexpectedToken | src/parse.rs:159 | a token other than `{` or `[` gives "Unexpected token at" and its index |
| ParseFacts.StrayItemPanics | src/parse.rs:177-178 | a list item starting with `(`, `)`, `}` or `|` is an error that is unwrapped: the list and the expression panic |
| ParseFacts.NoMoreTokens | src/parse.rs:88-90 | parsing past the end is "No more tokens to parse" |
| ParseFacts.CurlyAtEndPanics | src/parse.rs:95 | a `{` as the last token panics: `get_var_name` indexes past the end |
| ParseFacts.SquareAtEndIsEmptyGroup | src/parse.rs:127-132 | a `[` as the last token is read as an empty group that ends the tokens |
| ParseFacts.ThenBranchAtListEndPanics | src/parse.rs:140-144 | in `[[]|[]]` the conditional is "Unexpected end of tokens after then branch", and the enclosing list panics |
| ParseFacts.ThenBranchBeforeMoreTokens | src/parse.rs:145-149 | `[[]|[]]` followed by more tokens is a list of one conditional with empty branches, ending after its `]` |
| Evaluator.VarTable.constructor | src/lib.rs:26-28 | a new variable table is empty |
| Evaluator.FunctionTable.constructor | src/lib.rs:23-25 | a new function table is empty |
| Evaluator.Sink.constructor | src/lib.rs:7-10 | a new sink has received nothing |
| Evaluator.Sink.Log | src/lib.rs:7-10 | `logOutput` appends its text to what the sink received |
| Evaluator.EvalExpression | src/eval.rs:22-132 | the evaluator updates the tables and the sink as `Eval` says and returns its result |
| Evaluator.EvalFunctionCall | src/eval.rs:55-100 | the call arm updates the tables and the sink as `EvalCall` says and returns its result |
| Evaluator.BindArguments | src/eval.rs:89-93 | the argument loop leaves the state `EvalArgs` gives, and its fresh table holds the bound parameters or it forwards the first error |
| EvalFacts.ExtendsTrans | src/eval.rs:22-132 | growing the state is transitive |
| EvalFacts.ExtendsOutput | src/eval.rs:114 | writing to the sink grows the state |
| EvalFacts.EvalExtends | src/eval.rs:22-132 | evaluation only appends output, never removes a function, and never changes or removes a variable in scope |
| EvalFacts.CallExtends | src/eval.rs:55-100 | the same for the call arm |
| EvalFacts.ListExtends | src/eval.rs:102-108 | the same for a list |
| EvalFacts.ArgsExtends | src/eval.rs:89-93 | the same for argument evaluation |
| EvalFacts.FuelMonotone | src/eval.rs:22-132 | a result that did not exhaust the call budget stays the same with more budget |
| EvalFacts.CallFuelMonotone | src/eval.rs:55-100 | the same for the call arm |
| EvalFacts.ListFuelMonotone | src/eval.rs:102-108 | the same for a list |
| EvalFacts.ArgsFuelMonotone | src/eval.rs:89-93 | the same for argument evaluation |
| EvalFacts.IfNonZero | src/eval.rs:31-38 | a non-zero condition gives the then branch; the else branch is never evaluated |
| EvalFacts.IfZero | src/eval.rs:31-38 | a zero condition gives the else branch; the then branch is never evaluated |
| EvalFacts.IfConditionFails | src/eval.rs:32 | a failing condition is the result of the `If` |
| EvalFacts.DefineVariable | src/eval.rs:41-45 | a parameterless definition evaluates its body now; it binds the value only if the name is unbound, and returns it |
| EvalFacts.FirstBindingWins | src/eval.rs:43 | re-binding a variable keeps its first value |
| EvalFacts.DefineFunction | src/eval.rs:46-52 | a definition with parameters stores the function, overwriting any earlier one, and returns 0 without evaluating the body |
| EvalFacts.LastDefinitionWins | src/eval.rs:47-50 | of two definitions of the same function the second is in the table |
| EvalFacts.BuiltinArity | src/eval.rs:56-59 | `*` or `&` with other than one argument is an error naming the count |
| EvalFacts.Decrement | src/eval.rs:60-65 | `*` gives one less, an error at zero, and forwards its argument's error |
| EvalFacts.Increment | src/eval.rs:60-68 | `&` gives one more, saturating at `u32::MAX`, and forwards its argument's error |
| EvalFacts.VariableRead | src/eval.rs:71-76 | an empty argument list reads a variable: the value if and only if it is bound, an error otherwise, the state untouched |
| EvalFacts.UndefinedFunction | src/eval.rs:78-81 | calling an unknown function is an error, with the state untouched |
| EvalFacts.ArityCheckedFirst | src/eval.rs:85-87 | a wrong argument count is an error raised before any argument is evaluated |
| EvalFacts.ArgsKeys | src/eval.rs:89-93 | the callee's table binds the parameters and nothing else |
| EvalFacts.ArgsValues | src/eval.rs:89-93 | each parameter is bound to its argument's value, evaluated after the arguments before it; for a repeated name the last binding stays; other names keep their values |
| EvalFacts.ArgsAsList | src/eval.rs:89-93 | arguments are evaluated left to right in the caller's scope, like a list |
| EvalFacts.CallIsolation | src/eval.rs:89-95 | the caller's variables after a call are those after its arguments; the body sees only its parameters, and its result is the call's |
| EvalFacts.ListAppend | src/eval.rs:102-108 | evaluating a concatenated list evaluates the parts in order, stopping at the first error |
| EvalFacts.ListValue | src/eval.rs:102-108 | an empty list is 0; otherwise a list's value is its last item's |
| EvalFacts.TryCatchSemantics | src/eval.rs:110-118 | a try block without an error is the result; an error is logged as a warning, then the catch block runs |
| EvalFacts.PrintPassesValue | src/eval.rs:120-130 | printing returns the value; it logs the character (or `?`) or the decimal line, and logs nothing on error |
| EvalFacts.OnlyZero | src/eval.rs:22-132 | with no constants and all variables 0, every value computed is 0 and the state stays so |
| EvalFacts.CallOnlyZero | src/eval.rs:55-100 | the same for a call of a non-built-in name |
| EvalFacts.ListOnlyZero | src/eval.rs:102-108 | the same for a list |
| EvalFacts.ArgsOnlyZero | src/eval.rs:89-93 | a callee's parameters are all bound to 0 |
| Lib.EvalAll | src/lib.rs:18-38 | the loop over top-level expressions returns `EvalAllSpec` and leaves the sink as it says |
| Lib.Unwrapped | src/lib.rs:13-16 | the unwrapped result is never an error |
| Lib.EvalUnwrapped | src/lib.rs:13-16 | `eval_unwrapped` is `eval_all` with an error turned into its "Error: " text |
| LibFacts.IllegalCharacter | src/lib.rs:20 | a program with a bad character fails with that character's error and prints nothing |
| LibFacts.UnwrappedIllegal | src/lib.rs:13-20 | and `eval_unwrapped` returns "Error: Unexpected character: " and the character |
| LibFacts.BlankProgram | src/lib.rs:18-38 | a blank program returns the empty text and prints nothing |
| LibFacts.ParenAfterSquarePanics | src/parse.rs:127-128 | a program starting with `[(`, such as `[()]`, panics in the parser and prints nothing |
| LibFacts.RunExtends | src/lib.rs:29-36 | the top-level loop keeps variable bindings, only adds functions and only appends output |
| LibFacts.LastValue | src/lib.rs:29-37 | the result is the decimal text of the last expression's value |
| LibFacts.ErrorsAbort | src/lib.rs:31-34 | a parse or evaluation error ends the program with that error |
| LibFacts.ParenNameNotBuiltin | src/parse.rs:191-217 | a name made of parentheses is never `*` or `&` |
| LibFacts.ParsedNoConstants | src/parse.rs:87-161 | a parsed expression holds no constant and no built-in call |
| LibFacts.CurlyNoConstants | src/parse.rs:94-125 | the same for definitions and calls |
| LibFacts.SquareNoConstants | src/parse.rs:127-158 | the same for groups and conditionals |
| LibFacts.ListNoConstants | src/parse.rs:163-189 | every item of a parsed list holds no constant |
| LibFacts.ItemsNoConstants | src/parse.rs:171-186 | the item loop adds only expressions without constants |
| LibFacts.RunOnlyZero | src/lib.rs:29-37 | the top-level loop only ever produces "" or "0" |
| LibFacts.ProgramsComputeZero | src/lib.rs:18-38 | every program that succeeds returns "" or "0" |
| LibFacts.LoneSquareGivesZero | src/lib.rs:18-38 | the program `[` returns "0" and prints nothing |

## Left out

- `src/main.rs` and `site/index.js`, the command-line and browser front ends, are not part of this model.
- `logOutput` is a foreign call into JavaScript. It is modelled as the `Sink` class, which records every string passed to it.
- A call-depth budget `fuel`, spent on entering a function body, models the stack overflow of deep function-call recursion as `Exhausted`. Stack overflow from deeply nested brackets, in the parser (src/parse.rs:127-128, 177-178) or in evaluating call-free expressions (src/eval.rs:32-36, 104-106), is not modelled; neither is running out of memory.
- `usize` arithmetic is not modelled: indices are unbounded `nat`s. `tokens.len() - 1` is only taken where there is at least one token, so it cannot underflow. `u32` values are `U32`, with the saturating increment written out.
- `char::is_whitespace` is modelled by the explicit list of Unicode White_Space code points.
- `impl Display for Expression` (src/parse.rs:49-58) is not modelled. The error at src/eval.rs:97 is modelled as "Expected a list of arguments for function call": it drops both the ", got " and the rendered argument.
- Evaluator.BindArguments: the argument loop, inline at src/eval.rs:89-93, is a separate method so that its state can be stated on its own.
- Numeric literals, the `*`/`&` glyphs and any syntax for `TryCatch`, `PrintChar` and `PrintNum` are not in the code's parser, so they are not in the model's parser either.
