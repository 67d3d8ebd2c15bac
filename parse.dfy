/** The tokenizer and the recursive-descent parser of src/parse.rs.

    Each Rust function is modelled twice: a specification function that says
    what it computes, and a method that does it the way the Rust code does
    (a loop over a mutable index pushing into a vector or a string), proved
    to return exactly what the function says. The Rust code reads
    `tokens[i]` without a bounds check in a few places and calls `.unwrap()`
    on the results of the helpers; both are `Panic` here. */
module Parse {
  import opened Prelude

  datatype Token = OpenParen | CloseParen | OpenSquare | CloseSquare | OpenCurly | CloseCurly | Pipe

  /** `impl Display for Token`: the character each token prints as. */
  function Symbol(t: Token): char {
    match t
    case OpenParen => '('
    case CloseParen => ')'
    case OpenSquare => '['
    case CloseSquare => ']'
    case OpenCurly => '{'
    case CloseCurly => '}'
    case Pipe => '|'
  }

  /** The concatenated `Display` rendering of a token sequence: one character per token. */
  function Render(ts: seq<Token>): string {
    seq(|ts|, i requires 0 <= i < |ts| => Symbol(ts[i]))
  }

  /** An identifier: the string of parentheses read by `get_var_name`. */
  datatype Var = Var(name: string)

  /** The AST. The parser builds only If, FunctionDef, FunctionCall and
      ListExp; the evaluator also handles the other four, which no parser
      rule produces. */
  datatype Expression =
    | Val(n: U32)
    | If(cond: Expression, thenBranch: Expression, elseBranch: Expression)
    | FunctionDef(name: Var, params: seq<Var>, body: Expression)
    | FunctionCall(callee: Var, arg: Expression)
    | ListExp(items: seq<Expression>)
    | TryCatch(tryBlock: Expression, catchBlock: Expression)
    | PrintChar(inner: Expression)
    | PrintNum(inner: Expression)

  // ---------------------------------------------------------------- tokenize

  /** The token a character stands for, if it is one of the seven. */
  function CharToken(c: char): Option<Token> {
    match c
    case '(' => Some(OpenParen)
    case ')' => Some(CloseParen)
    case '[' => Some(OpenSquare)
    case ']' => Some(CloseSquare)
    case '{' => Some(OpenCurly)
    case '}' => Some(CloseCurly)
    case '|' => Some(Pipe)
    case _ => None
  }

  /** Rust's `char::is_whitespace`: the Unicode White_Space property. */
  predicate IsWhitespace(c: char) {
    || '\U{0009}' <= c <= '\U{000D}'
    || c == '\U{0020}'
    || c == '\U{0085}'
    || c == '\U{00A0}'
    || c == '\U{1680}'
    || '\U{2000}' <= c <= '\U{200A}'
    || c == '\U{2028}'
    || c == '\U{2029}'
    || c == '\U{202F}'
    || c == '\U{205F}'
    || c == '\U{3000}'
  }

  /** The result of `tokenize(input)`. */
  function Lexed(input: string): Outcome<seq<Token>> {
    if input == [] then Ok([])
    else
      match CharToken(input[0])
      case Some(t) => Prepend([t], Lexed(input[1..]))
      case None =>
        if IsWhitespace(input[0]) then Lexed(input[1..])
        else Err("Unexpected character: " + [input[0]])
  }

  /** `ts` in front of the tokens of a successful tokenization; errors pass through. */
  function Prepend(ts: seq<Token>, r: Outcome<seq<Token>>): Outcome<seq<Token>> {
    if r.Ok? then Ok(ts + r.value) else r
  }

  /** `tokenize`: one pass over the characters, pushing a token per bracket. */
  method Tokenize(input: string) returns (r: Outcome<seq<Token>>)
    ensures r == Lexed(input)
  {
    var tokens: seq<Token> := [];
    var i := 0;
    assert input[0..] == input;
    assert Lexed(input).Ok? ==> [] + Lexed(input).value == Lexed(input).value;
    while i < |input|
      invariant 0 <= i <= |input|
      invariant Lexed(input) == Prepend(tokens, Lexed(input[i..]))
    {
      var c := input[i];
      assert input[i..][0] == c && input[i..][1..] == input[i + 1..];
      match CharToken(c) {
        case Some(t) =>
          var rest := Lexed(input[i + 1..]);
          assert rest.Ok? ==> tokens + ([t] + rest.value) == (tokens + [t]) + rest.value;
          tokens := tokens + [t];
        case None =>
          if !IsWhitespace(c) {
            return Err("Unexpected character: " + [c]);
          }
      }
      i := i + 1;
    }
    assert input[i..] == [] && tokens + [] == tokens;
    return Ok(tokens);
  }

  // ------------------------------------------------------------ get_var_name

  /** The result of `get_var_name(tokens, start)`: the name and the index after it. */
  function VarName(tokens: seq<Token>, start: nat): (r: Outcome<(string, nat)>)
    ensures r.Ok? ==> start < r.value.1 <= |tokens|
    ensures r.Panic? <==> start >= |tokens|
    ensures !r.Exhausted?
  {
    if start >= |tokens| then Panic
    else if tokens[start] != OpenParen then Err("Expected OpenParen at start of variable name")
    else NameFrom(tokens, start + 1, "(", 1)
  }

  /** The loop of `get_var_name` from `index` on, having read `name` with
      `depth` parentheses still open. */
  function NameFrom(tokens: seq<Token>, index: nat, name: string, depth: int): (r: Outcome<(string, nat)>)
    requires index <= |tokens|
    ensures r.Ok? ==> index <= r.value.1 <= |tokens|
    ensures r.Ok? || r.Err?
    decreases |tokens| - index
  {
    if index == |tokens| then Ok((name, index))
    else
      match tokens[index]
      case OpenParen =>
        if depth + 1 == 0 then Ok((name + "(", index + 1))
        else NameFrom(tokens, index + 1, name + "(", depth + 1)
      case CloseParen =>
        if depth - 1 == 0 then Ok((name + ")", index + 1))
        else NameFrom(tokens, index + 1, name + ")", depth - 1)
      case _ => Err("Unexpected token in variable name")
  }

  /** `get_var_name`: a while loop over `index` keeping the open-parenthesis count. */
  method GetVarName(tokens: seq<Token>, start: nat) returns (r: Outcome<(string, nat)>)
    ensures r == VarName(tokens, start)
  {
    if start >= |tokens| {
      return Panic;
    }
    if tokens[start] != OpenParen {
      return Err("Expected OpenParen at start of variable name");
    }
    var index := start + 1;
    var name := "(";
    var depth := 1;
    while index < |tokens|
      invariant start < index <= |tokens|
      invariant NameFrom(tokens, index, name, depth) == VarName(tokens, start)
      decreases |tokens| - index
    {
      match tokens[index] {
        case OpenParen =>
          depth := depth + 1;
          name := name + "(";
        case CloseParen =>
          depth := depth - 1;
          name := name + ")";
        case _ =>
          return Err("Unexpected token in variable name");
      }
      index := index + 1;
      if depth == 0 {
        break;
      }
    }
    return Ok((name, index));
  }

  // ------------------------------------------------------------ get_var_list

  /** The result of `get_var_list(tokens, start)`. */
  function VarList(tokens: seq<Token>, start: nat): (r: Outcome<(seq<Var>, nat)>)
    ensures r.Ok? ==> start < r.value.1 <= |tokens|
    ensures r.Panic? <==> start >= |tokens|
    ensures !r.Exhausted?
  {
    if start >= |tokens| then Panic
    else if tokens[start] != OpenParen then Err("Expected OpenParen at start of variable list")
    else VarsFrom(tokens, start + 1, [])
  }

  /** The loop of `get_var_list` from `index` on, having collected `vars`. */
  function VarsFrom(tokens: seq<Token>, index: nat, vars: seq<Var>): (r: Outcome<(seq<Var>, nat)>)
    requires index <= |tokens|
    ensures r.Ok? ==> index <= r.value.1 <= |tokens|
    ensures r.Ok? || r.Err?
    decreases |tokens| - index
  {
    if index == |tokens| then Ok((vars, index))
    else
      match tokens[index]
      case OpenParen =>
        var n := VarName(tokens, index);
        if n.Ok? then VarsFrom(tokens, n.value.1, vars + [Var(n.value.0)]) else Err(n.msg)
      case CloseParen => Ok((vars, index + 1))
      case _ => Err("Unexpected token in variable list")
  }

  /** `get_var_list`: a while loop collecting one name per `(` until a `)`. */
  method GetVarList(tokens: seq<Token>, start: nat) returns (r: Outcome<(seq<Var>, nat)>)
    ensures r == VarList(tokens, start)
  {
    if start >= |tokens| {
      return Panic;
    }
    if tokens[start] != OpenParen {
      return Err("Expected OpenParen at start of variable list");
    }
    var index := start + 1;
    var vars: seq<Var> := [];
    while index < |tokens|
      invariant start < index <= |tokens|
      invariant VarsFrom(tokens, index, vars) == VarList(tokens, start)
      decreases |tokens| - index
    {
      match tokens[index] {
        case OpenParen =>
          var n := GetVarName(tokens, index);
          if !n.Ok? {
            return Err(n.msg);
          }
          vars := vars + [Var(n.value.0)];
          index := n.value.1;
        case CloseParen =>
          index := index + 1;
          break;
        case _ =>
          return Err("Unexpected token in variable list");
      }
    }
    return Ok((vars, index));
  }

  // -------------------------------- get_next_expression / get_expression_list

  /** The result of `get_next_expression(tokens, start)`: one expression and
      the index of the first token after it. `get_next_expression` calls
      `get_expression_list` at the same index, so the measure is the pair
      (tokens left, rank) with ItemsFrom > NextExpression > ExpressionList. */
  function NextExpression(tokens: seq<Token>, start: nat): (r: Outcome<(Expression, nat)>)
    ensures r.Ok? ==> start < r.value.1 <= |tokens|
    ensures !r.Exhausted?
    decreases |tokens| - start, 1
  {
    if start >= |tokens| then Err("No more tokens to parse")
    else
      match tokens[start]
      case OpenCurly =>
        var v := VarName(tokens, start + 1);
        if !v.Ok? then Panic
        else
          var (name, i) := v.value;
          if i >= |tokens| - 1 then Err("Unexpected end of tokens after variable name")
          else if tokens[i] != CloseCurly then Err("Expected CloseCurly after variable name")
          else if tokens[i + 1] == OpenParen then
            var ps := VarList(tokens, i + 1);
            if !ps.Ok? then Panic
            else
              var (params, j) := ps.value;
              if j >= |tokens| then Err("Unexpected end of tokens after arg list")
              else if tokens[j] != OpenSquare then Err("Expected OpenSquare after arg list")
              else
                var b := ExpressionList(tokens, j);
                if !b.Ok? then Panic
                else Ok((FunctionDef(Var(name), params, ListExp(b.value.0)), b.value.1))
          else if tokens[i + 1] == OpenSquare then
            var b := ExpressionList(tokens, i + 1);
            if !b.Ok? then Panic
            else Ok((FunctionCall(Var(name), ListExp(b.value.0)), b.value.1))
          else Err("Expected OpenParen or OpenSquare after variable name")
      case OpenSquare =>
        var c := ExpressionList(tokens, start);
        if !c.Ok? then Panic
        else
          var (cond, i) := c.value;
          if i == |tokens| then Ok((ListExp(cond), i))
          else if i >= |tokens| - 1 then Err("Unexpected end of tokens after condition")
          else if tokens[i] != Pipe then Err("Expected Pipe after condition")
          else
            var t := ExpressionList(tokens, i + 1);
            if !t.Ok? then Panic
            else
              var (thn, j) := t.value;
              if j >= |tokens| - 1 then Err("Unexpected end of tokens after then branch")
              else if tokens[j] != Pipe then Ok((If(ListExp(cond), ListExp(thn), ListExp([])), j))
              else
                var e := ExpressionList(tokens, j + 1);
                if !e.Ok? then Panic
                else Ok((If(ListExp(cond), ListExp(thn), ListExp(e.value.0)), e.value.1))
      case _ => Err("Unexpected token at " + Decimal(start))
  }

  /** The result of `get_expression_list(tokens, start)`: the expressions
      between `[` and its `]`, and the index after the `]`. */
  function ExpressionList(tokens: seq<Token>, start: nat): (r: Outcome<(seq<Expression>, nat)>)
    ensures r.Ok? ==> start < r.value.1 <= |tokens|
    ensures !r.Exhausted?
    decreases |tokens| - start, 0
  {
    if start >= |tokens| then Panic
    else if tokens[start] != OpenSquare then Err("Expected OpenSquare at start of expression list")
    else ItemsFrom(tokens, start + 1, [])
  }

  /** The loop of `get_expression_list` from `index` on, having parsed `items`. */
  function ItemsFrom(tokens: seq<Token>, index: nat, items: seq<Expression>): (r: Outcome<(seq<Expression>, nat)>)
    requires index <= |tokens|
    ensures r.Ok? ==> index <= r.value.1 <= |tokens|
    ensures !r.Exhausted?
    decreases |tokens| - index, 2
  {
    if index == |tokens| then Ok((items, index))
    else if tokens[index] == CloseSquare then Ok((items, index + 1))
    else
      var x := NextExpression(tokens, index);
      if !x.Ok? then Panic
      else if x.value.1 >= |tokens| then Err("Expected ] at end of expression list")
      else ItemsFrom(tokens, x.value.1, items + [x.value.0])
  }

  /** `get_next_expression`: dispatch on the token at `start`, advancing a
      mutable index through the pieces of the expression. */
  method GetNextExpression(tokens: seq<Token>, start: nat) returns (r: Outcome<(Expression, nat)>)
    ensures r == NextExpression(tokens, start)
    decreases |tokens| - start, 1
  {
    if start >= |tokens| {
      return Err("No more tokens to parse");
    }
    var index := start;
    match tokens[index]
    case OpenCurly =>
      var v := GetVarName(tokens, index + 1);
      if !v.Ok? {
        return Panic;
      }
      var name;
      name, index := v.value.0, v.value.1;
      if index >= |tokens| - 1 {
        return Err("Unexpected end of tokens after variable name");
      } else if tokens[index] != CloseCurly {
        return Err("Expected CloseCurly after variable name");
      }
      index := index + 1;
      if tokens[index] == OpenParen {
        var ps := GetVarList(tokens, index);
        if !ps.Ok? {
          return Panic;
        }
        index := ps.value.1;
        if index >= |tokens| {
          return Err("Unexpected end of tokens after arg list");
        } else if tokens[index] != OpenSquare {
          return Err("Expected OpenSquare after arg list");
        }
        var b := GetExpressionList(tokens, index);
        if !b.Ok? {
          return Panic;
        }
        index := b.value.1;
        return Ok((FunctionDef(Var(name), ps.value.0, ListExp(b.value.0)), index));
      } else if tokens[index] == OpenSquare {
        var b := GetExpressionList(tokens, index);
        if !b.Ok? {
          return Panic;
        }
        index := b.value.1;
        return Ok((FunctionCall(Var(name), ListExp(b.value.0)), index));
      } else {
        return Err("Expected OpenParen or OpenSquare after variable name");
      }
    case OpenSquare =>
      var c := GetExpressionList(tokens, index);
      if !c.Ok? {
        return Panic;
      }
      index := c.value.1;
      if index == |tokens| {
        return Ok((ListExp(c.value.0), index));
      } else if index >= |tokens| - 1 {
        return Err("Unexpected end of tokens after condition");
      } else if tokens[index] != Pipe {
        return Err("Expected Pipe after condition");
      }
      index := index + 1;
      var t := GetExpressionList(tokens, index);
      if !t.Ok? {
        return Panic;
      }
      index := t.value.1;
      if index >= |tokens| - 1 {
        return Err("Unexpected end of tokens after then branch");
      } else if tokens[index] != Pipe {
        return Ok((If(ListExp(c.value.0), ListExp(t.value.0), ListExp([])), index));
      }
      index := index + 1;
      var e := GetExpressionList(tokens, index);
      if !e.Ok? {
        return Panic;
      }
      index := e.value.1;
      return Ok((If(ListExp(c.value.0), ListExp(t.value.0), ListExp(e.value.0)), index));
    case _ =>
      return Err("Unexpected token at " + Decimal(index));
  }

  /** `get_expression_list`: check the `[`, then parse expressions in a loop
      until the matching `]`. */
  method GetExpressionList(tokens: seq<Token>, start: nat) returns (r: Outcome<(seq<Expression>, nat)>)
    ensures r == ExpressionList(tokens, start)
    decreases |tokens| - start, 0
  {
    if start >= |tokens| {
      return Panic;
    }
    if tokens[start] != OpenSquare {
      return Err("Expected OpenSquare at start of expression list");
    }
    var index := start + 1;
    var expressions: seq<Expression> := [];
    while index < |tokens|
      invariant start < index <= |tokens|
      invariant ItemsFrom(tokens, index, expressions) == ExpressionList(tokens, start)
      decreases |tokens| - index
    {
      if tokens[index] == CloseSquare {
        index := index + 1;
        break;
      }
      var x := GetNextExpression(tokens, index);
      if !x.Ok? {
        return Panic;
      }
      expressions := expressions + [x.value.0];
      index := x.value.1;
      if index >= |tokens| {
        return Err("Expected ] at end of expression list");
      }
    }
    return Ok((expressions, index));
  }
}
