/** What the parser of src/parse.rs promises: how `get_var_name` reads a
    run of parentheses, how `get_var_list` and `get_expression_list` read
    their bracketed lists, and which token shapes `get_next_expression`
    turns into which expression. The central result is a round trip: every
    expression of the shapes the parser builds, written out as tokens, is
    parsed back to itself from any position. */
module ParseFacts {
  import opened Prelude
  import opened Parse
  import opened LexFacts

  // ---------------------------------------------------- parenthesis depth

  predicate IsParen(t: Token) {
    t == OpenParen || t == CloseParen
  }

  function Delta(t: Token): int {
    if t == OpenParen then 1 else if t == CloseParen then -1 else 0
  }

  /** Opened minus closed parentheses among the first `k` tokens of `ts`. */
  function PrefixDepth(ts: seq<Token>, k: nat): int
    requires k <= |ts|
  {
    if k == 0 then 0 else PrefixDepth(ts, k - 1) + Delta(ts[k - 1])
  }

  predicate AllParens(ts: seq<Token>) {
    forall i :: 0 <= i < |ts| ==> IsParen(ts[i])
  }

  /** Opened minus closed parentheses in `ts`. */
  function Depth(ts: seq<Token>): int {
    PrefixDepth(ts, |ts|)
  }

  /** After the first `k` tokens some parenthesis is still open. */
  predicate Open(ts: seq<Token>, k: nat)
    requires k <= |ts|
  {
    PrefixDepth(ts, k) > 0
  }

  /** A balanced name: parentheses whose depth first returns to 0 at the end. */
  predicate IsName(ts: seq<Token>) {
    && |ts| >= 1 && AllParens(ts) && Depth(ts) == 0
    && forall k :: 1 <= k < |ts| ==> Open(ts, k)
  }

  /** Parentheses that never close: what `get_var_name` accepts when the tokens run out. */
  predicate IsOpenRun(ts: seq<Token>) {
    && |ts| >= 1 && AllParens(ts)
    && forall k :: 1 <= k <= |ts| ==> Open(ts, k)
  }

  predicate ParenText(s: string) {
    forall i :: 0 <= i < |s| ==> s[i] == '(' || s[i] == ')'
  }

  /** The prefix depth depends only on the prefix. */
  lemma {:induction false} PrefixDepthAgree(a: seq<Token>, b: seq<Token>, k: nat)
    requires k <= |a| && k <= |b|
    requires forall i :: 0 <= i < k ==> a[i] == b[i]
    ensures PrefixDepth(a, k) == PrefixDepth(b, k)
    decreases k
  {
    if k > 0 {
      PrefixDepthAgree(a, b, k - 1);
    }
  }

  /** One more token read: the old prefixes keep their depths. */
  lemma {:induction false} Extend(tokens: seq<Token>, start: nat, index: nat)
    requires start <= index < |tokens|
    ensures var run, run' := tokens[start..index], tokens[start..index + 1];
            && run' == run + [tokens[index]]
            && Depth(run') == Depth(run) + Delta(tokens[index])
            && (forall k :: 1 <= k <= |run| ==> Open(run', k) == Open(run, k))
            && Render(run') == Render(run) + [Symbol(tokens[index])]
  {
    var run, run' := tokens[start..index], tokens[start..index + 1];
    assert run' == run + [tokens[index]];
    forall k | 1 <= k <= |run|
      ensures Open(run', k) == Open(run, k)
    {
      PrefixDepthAgree(run', run, k);
    }
    PrefixDepthAgree(run', run, |run|);
    RenderAppend(run, [tokens[index]]);
  }

  lemma {:induction false} NameShape(ts: seq<Token>)
    requires IsName(ts) || IsOpenRun(ts)
    ensures ts[0] == OpenParen
    ensures IsName(ts) ==> |ts| >= 2
  {
    assert PrefixDepth(ts, 1) == Delta(ts[0]);
    if |ts| > 1 || IsOpenRun(ts) {
      assert Open(ts, 1);
    }
  }

  /** The run of one `(`. */
  lemma {:induction false} FirstParen(tokens: seq<Token>, start: nat)
    requires start < |tokens| && tokens[start] == OpenParen
    ensures var run := tokens[start..start + 1];
            && Render(run) == "(" && Depth(run) == 1 && IsOpenRun(run)
  {
    var run := tokens[start..start + 1];
    assert run == [OpenParen];
    assert PrefixDepth(run, 1) == 1;
  }

  lemma {:induction false} RenderParens(ts: seq<Token>)
    requires AllParens(ts)
    ensures |Render(ts)| == |ts| && ParenText(Render(ts))
  {
  }

  // ------------------------------------------------------------ get_var_name

  /** The loop of `get_var_name` keeps `name` equal to the rendering of the
      tokens read and the count equal to their depth; it stops with a name
      that is balanced, or with a still-open run at the end of the tokens. */
  lemma {:induction false} NameFromResult(tokens: seq<Token>, start: nat, index: nat)
    requires start < index <= |tokens|
    requires IsOpenRun(tokens[start..index])
    ensures var r := NameFrom(tokens, index, Render(tokens[start..index]), Depth(tokens[start..index]));
            r.Ok? ==>
              && r.value.0 == Render(tokens[start..r.value.1])
              && (|| IsName(tokens[start..r.value.1])
                  || (r.value.1 == |tokens| && IsOpenRun(tokens[start..r.value.1])))
    decreases |tokens| - index
  {
    if index < |tokens| && IsParen(tokens[index]) {
      var run, run' := tokens[start..index], tokens[start..index + 1];
      Extend(tokens, start, index);
      assert run'[|run|] == tokens[index];
      assert AllParens(run');
      if Depth(run') != 0 {
        assert Open(run, |run|);
        assert Open(run', |run'|);
        assert IsOpenRun(run');
        NameFromResult(tokens, start, index + 1);
      } else {
        assert IsName(run');
      }
    }
  }

  /** What a successful `get_var_name` returns: the rendering of exactly the
      tokens it consumed, one character per token, only `(` and `)`, and
      either a balanced name or an open run that reaches the end. */
  lemma {:induction false} VarNameResult(tokens: seq<Token>, start: nat)
    requires VarName(tokens, start).Ok?
    ensures var (name, end) := VarName(tokens, start).value;
            && tokens[start] == OpenParen
            && name == Render(tokens[start..end])
            && |name| == end - start
            && ParenText(name)
            && (IsName(tokens[start..end]) || (end == |tokens| && IsOpenRun(tokens[start..end])))
  {
    FirstParen(tokens, start);
    NameFromResult(tokens, start, start + 1);
    var end := VarName(tokens, start).value.1;
    RenderParens(tokens[start..end]);
  }

  lemma {:induction false} NameFromClosed(tokens: seq<Token>, start: nat, index: nat, nm: seq<Token>)
    requires IsName(nm) && At(tokens, start, nm)
    requires start < index < start + |nm|
    ensures NameFrom(tokens, index, Render(tokens[start..index]), Depth(tokens[start..index]))
         == Ok((Render(nm), start + |nm|))
    decreases start + |nm| - index
  {
    var run' := tokens[start..index + 1];
    assert tokens[index] == nm[index - start];
    Extend(tokens, start, index);
    PrefixDepthAgree(nm, run', |run'|);
    if index + 1 < start + |nm| {
      assert Open(nm, |run'|);
      NameFromClosed(tokens, start, index + 1, nm);
    } else {
      assert run' == nm;
    }
  }

  /** A balanced name is read in full, and the index after it returned. */
  lemma {:induction false} VarNameOfName(tokens: seq<Token>, start: nat, nm: seq<Token>)
    requires IsName(nm) && At(tokens, start, nm)
    ensures VarName(tokens, start) == Ok((Render(nm), start + |nm|))
  {
    NameShape(nm);
    assert tokens[start] == nm[0];
    FirstParen(tokens, start);
    NameFromClosed(tokens, start, start + 1, nm);
  }

  /** Inside parentheses that stay open to the end of the tokens, the loop
      runs out of tokens and returns what it read with the count still positive. */
  lemma {:induction false} NameFromOpenEnd(tokens: seq<Token>, start: nat, index: nat)
    requires start < index <= |tokens|
    requires IsOpenRun(tokens[start..])
    ensures NameFrom(tokens, index, Render(tokens[start..index]), Depth(tokens[start..index]))
         == Ok((Render(tokens[start..]), |tokens|))
    decreases |tokens| - index
  {
    if index == |tokens| {
      assert tokens[start..index] == tokens[start..];
    } else {
      var open, run' := tokens[start..], tokens[start..index + 1];
      assert tokens[index] == open[index - start];
      Extend(tokens, start, index);
      assert forall i :: 0 <= i < |run'| ==> open[i] == run'[i];
      PrefixDepthAgree(open, run', |run'|);
      assert Open(open, |run'|);
      NameFromOpenEnd(tokens, start, index + 1);
    }
  }

  /** `get_var_name` accepts parentheses still open when the tokens end: the
      name is everything from `start` on. */
  lemma {:induction false} VarNameOpenAtEnd(tokens: seq<Token>, start: nat)
    requires start < |tokens| && IsOpenRun(tokens[start..])
    ensures VarName(tokens, start) == Ok((Render(tokens[start..]), |tokens|))
  {
    NameShape(tokens[start..]);
    assert tokens[start] == tokens[start..][0];
    FirstParen(tokens, start);
    NameFromOpenEnd(tokens, start, start + 1);
  }

  lemma {:induction false} NameFromStray(tokens: seq<Token>, start: nat, index: nat, k: nat)
    requires start < index <= k < |tokens|
    requires IsOpenRun(tokens[start..k]) && !IsParen(tokens[k])
    ensures NameFrom(tokens, index, Render(tokens[start..index]), Depth(tokens[start..index]))
         == Err("Unexpected token in variable name")
    decreases k - index
  {
    if index < k {
      var open, run' := tokens[start..k], tokens[start..index + 1];
      assert tokens[index] == open[index - start];
      Extend(tokens, start, index);
      PrefixDepthAgree(open, run', |run'|);
      assert Open(open, |run'|);
      NameFromStray(tokens, start, index + 1, k);
    }
  }

  /** A token other than a parenthesis before the name closes is an error. */
  lemma {:induction false} VarNameStray(tokens: seq<Token>, start: nat, k: nat)
    requires start < k < |tokens|
    requires IsOpenRun(tokens[start..k]) && !IsParen(tokens[k])
    ensures VarName(tokens, start) == Err("Unexpected token in variable name")
  {
    NameShape(tokens[start..k]);
    FirstParen(tokens, start);
    NameFromStray(tokens, start, start + 1, k);
  }

  /** A name must start with `(`. */
  lemma {:induction false} VarNameNeedsOpen(tokens: seq<Token>, start: nat)
    requires start < |tokens| && tokens[start] != OpenParen
    ensures VarName(tokens, start) == Err("Expected OpenParen at start of variable name")
  {
  }

  // ------------------------------------------------ names written as tokens

  /** The tokens of a string of parentheses. */
  function NameTokens(n: string): seq<Token> {
    seq(|n|, i requires 0 <= i < |n| => if n[i] == '(' then OpenParen else CloseParen)
  }

  /** A string that is a balanced name. */
  predicate IsNameText(n: string) {
    ParenText(n) && IsName(NameTokens(n))
  }

  lemma {:induction false} RenderNameTokens(n: string)
    requires ParenText(n)
    ensures Render(NameTokens(n)) == n && |NameTokens(n)| == |n|
  {
  }

  lemma {:induction false} SplitFirst<T>(done: seq<T>, xs: seq<T>)
    requires xs != []
    ensures done + [xs[0]] + xs[1..] == done + xs
  {
    assert [xs[0]] + xs[1..] == xs;
  }

  /** `tokens[start..]` begins with `ts`. */
  predicate At(tokens: seq<Token>, start: nat, ts: seq<Token>) {
    start + |ts| <= |tokens| && forall i :: 0 <= i < |ts| ==> tokens[start + i] == ts[i]
  }

  lemma {:induction false} AtSplit(tokens: seq<Token>, start: nat, a: seq<Token>, b: seq<Token>)
    requires At(tokens, start, a + b)
    ensures At(tokens, start, a) && At(tokens, start + |a|, b)
    ensures |a| > 0 ==> tokens[start] == a[0]
    ensures |b| > 0 ==> tokens[start + |a|] == b[0]
  {
    forall i | 0 <= i < |a|
      ensures tokens[start + i] == a[i]
    {
      assert (a + b)[i] == a[i];
    }
    forall i | 0 <= i < |b|
      ensures tokens[start + |a| + i] == b[i]
    {
      assert (a + b)[|a| + i] == b[i];
    }
  }

  lemma {:induction false} VarNameAt(tokens: seq<Token>, start: nat, n: string)
    requires IsNameText(n) && At(tokens, start, NameTokens(n))
    ensures VarName(tokens, start) == Ok((n, start + |n|))
  {
    RenderNameTokens(n);
    VarNameOfName(tokens, start, NameTokens(n));
  }

  // ------------------------------------------------------------ get_var_list

  /** The tokens of a parameter list without its parentheses. */
  function ParamTokens(ps: seq<Var>): seq<Token> {
    if ps == [] then [] else NameTokens(ps[0].name) + ParamTokens(ps[1..])
  }

  /** A parameter list as the source writes it: `(`, the names, `)`. */
  function ParamListTokens(ps: seq<Var>): seq<Token> {
    [OpenParen] + ParamTokens(ps) + [CloseParen]
  }

  predicate AllNames(ps: seq<Var>) {
    forall i :: 0 <= i < |ps| ==> IsNameText(ps[i].name)
  }

  /** The first name of written parameters and the rest. */
  lemma {:induction false} ParamsLayout(tokens: seq<Token>, index: nat, ps: seq<Var>)
    requires ps != [] && IsNameText(ps[0].name) && At(tokens, index, ParamTokens(ps))
    ensures && At(tokens, index, NameTokens(ps[0].name))
            && index < |tokens| && tokens[index] == OpenParen
            && At(tokens, index + |ps[0].name|, ParamTokens(ps[1..]))
            && |ParamTokens(ps)| == |ps[0].name| + |ParamTokens(ps[1..])|
  {
    var nt := NameTokens(ps[0].name);
    AtSplit(tokens, index, nt, ParamTokens(ps[1..]));
    NameShape(nt);
  }

  lemma {:induction false} VarsFromParams(tokens: seq<Token>, index: nat, vars: seq<Var>, ps: seq<Var>)
    requires AllNames(ps) && At(tokens, index, ParamTokens(ps))
    ensures VarsFrom(tokens, index, vars) == VarsFrom(tokens, index + |ParamTokens(ps)|, vars + ps)
    decreases |ps|
  {
    if ps == [] {
      assert vars + ps == vars;
    } else {
      var n, rest := ps[0].name, ps[1..];
      assert IsNameText(n);
      ParamsLayout(tokens, index, ps);
      VarNameAt(tokens, index, n);
      VarsStep(tokens, index, vars, n, index + |n|);
      assert AllNames(rest) by {
        assert forall i :: 0 <= i < |rest| ==> rest[i] == ps[i + 1];
      }
      VarsFromParams(tokens, index + |n|, vars + [Var(n)], rest);
      assert Var(n) == ps[0];
      SplitFirst(vars, ps);
    }
  }

  /** A written parameter list is read back, with the index after its `)`. */
  lemma {:induction false} VarListAt(tokens: seq<Token>, start: nat, ps: seq<Var>)
    requires AllNames(ps) && At(tokens, start, ParamListTokens(ps))
    ensures VarList(tokens, start) == Ok((ps, start + |ParamListTokens(ps)|))
  {
    var pt := ParamTokens(ps);
    AtSplit(tokens, start, [OpenParen] + pt, [CloseParen]);
    AtSplit(tokens, start, [OpenParen], pt);
    VarsFromParams(tokens, start + 1, [], ps);
    assert tokens[start + 1 + |pt|] == CloseParen;
    assert [] + ps == ps;
  }

  /** After `(` and some names, a token that is neither `(` nor `)` is an error. */
  lemma {:induction false} VarListStray(tokens: seq<Token>, start: nat, ps: seq<Var>)
    requires AllNames(ps) && At(tokens, start, [OpenParen] + ParamTokens(ps))
    requires start + 1 + |ParamTokens(ps)| < |tokens|
    requires !IsParen(tokens[start + 1 + |ParamTokens(ps)|])
    ensures VarList(tokens, start) == Err("Unexpected token in variable list")
  {
    AtSplit(tokens, start, [OpenParen], ParamTokens(ps));
    VarsFromParams(tokens, start + 1, [], ps);
  }

  /** `get_var_list` accepts a list whose tokens end after some names, without `)`. */
  lemma {:induction false} VarListRunsOut(tokens: seq<Token>, start: nat, ps: seq<Var>)
    requires AllNames(ps) && At(tokens, start, [OpenParen] + ParamTokens(ps))
    requires start + 1 + |ParamTokens(ps)| == |tokens|
    ensures VarList(tokens, start) == Ok((ps, |tokens|))
  {
    AtSplit(tokens, start, [OpenParen], ParamTokens(ps));
    VarsFromParams(tokens, start + 1, [], ps);
    assert [] + ps == ps;
  }

  /** The same when the last name is still open at the end of the tokens: it
      becomes the last parameter. */
  lemma {:induction false} VarListOpenName(tokens: seq<Token>, start: nat, ps: seq<Var>)
    requires AllNames(ps) && At(tokens, start, [OpenParen] + ParamTokens(ps))
    requires start + 1 + |ParamTokens(ps)| < |tokens|
    requires IsOpenRun(tokens[start + 1 + |ParamTokens(ps)|..])
    ensures var k := start + 1 + |ParamTokens(ps)|;
            VarList(tokens, start) == Ok((ps + [Var(Render(tokens[k..]))], |tokens|))
  {
    var k := start + 1 + |ParamTokens(ps)|;
    AtSplit(tokens, start, [OpenParen], ParamTokens(ps));
    VarsFromParams(tokens, start + 1, [], ps);
    assert [] + ps == ps;
    VarNameOpenAtEnd(tokens, k);
    NameShape(tokens[k..]);
    assert tokens[k] == tokens[k..][0];
    VarsStep(tokens, k, ps, Render(tokens[k..]), |tokens|);
  }

  /** A parameter list must start with `(`. */
  lemma {:induction false} VarListNeedsOpen(tokens: seq<Token>, start: nat)
    requires start < |tokens| && tokens[start] != OpenParen
    ensures VarList(tokens, start) == Err("Expected OpenParen at start of variable list")
  {
  }

  lemma {:induction false} VarsFromResult(tokens: seq<Token>, index: nat, vars: seq<Var>)
    requires index <= |tokens|
    requires forall i :: 0 <= i < |vars| ==> ParenText(vars[i].name)
    requires VarsFrom(tokens, index, vars).Ok?
    ensures var (vs, end) := VarsFrom(tokens, index, vars).value;
            && (end == |tokens| || (index < end && tokens[end - 1] == CloseParen))
            && forall i :: 0 <= i < |vs| ==> ParenText(vs[i].name)
    decreases |tokens| - index
  {
    if index < |tokens| && tokens[index] == OpenParen {
      VarNameResult(tokens, index);
      var (n, end) := VarName(tokens, index).value;
      VarsFromResult(tokens, end, vars + [Var(n)]);
    }
  }

  /** What a successful `get_var_list` returns: names made of parentheses,
      and an index just past a `)` unless the tokens ran out. */
  lemma {:induction false} VarListResult(tokens: seq<Token>, start: nat)
    requires VarList(tokens, start).Ok?
    ensures var (vs, end) := VarList(tokens, start).value;
            && tokens[start] == OpenParen
            && (end == |tokens| || tokens[end - 1] == CloseParen)
            && forall i :: 0 <= i < |vs| ==> ParenText(vs[i].name)
  {
    VarsFromResult(tokens, start + 1, []);
  }

  // ----------------------------------------------------- get_expression_list

  lemma {:induction false} ItemsFromResult(tokens: seq<Token>, index: nat, items: seq<Expression>)
    requires index <= |tokens|
    requires ItemsFrom(tokens, index, items).Ok?
    ensures var (es, end) := ItemsFrom(tokens, index, items).value;
            || (end == index == |tokens| && es == items)
            || (index < end && tokens[end - 1] == CloseSquare)
    decreases |tokens| - index
  {
    if index < |tokens| && tokens[index] != CloseSquare {
      var x := NextExpression(tokens, index);
      ItemsFromResult(tokens, x.value.1, items + [x.value.0]);
    }
  }

  /** What a successful `get_expression_list` returns: the index just past
      the closing `]`, or, when the `[` is the last token, no items and the
      end of the tokens. */
  lemma {:induction false} ExpressionListResult(tokens: seq<Token>, start: nat)
    requires ExpressionList(tokens, start).Ok?
    ensures var (es, end) := ExpressionList(tokens, start).value;
            && tokens[start] == OpenSquare
            && (|| (es == [] && end == start + 1 == |tokens|)
                || (end >= start + 2 && tokens[end - 1] == CloseSquare))
  {
    ItemsFromResult(tokens, start + 1, []);
  }

  /** An expression list must start with `[`. */
  lemma {:induction false} ExpressionListNeedsOpen(tokens: seq<Token>, start: nat)
    requires start < |tokens| && tokens[start] != OpenSquare
    ensures ExpressionList(tokens, start) == Err("Expected OpenSquare at start of expression list")
  {
  }

  // ------------------------------------------------- single parser steps

  /** One name of a parameter list. */
  lemma {:induction false} VarsStep(tokens: seq<Token>, index: nat, vars: seq<Var>, n: string, end: nat)
    requires index < |tokens| && tokens[index] == OpenParen
    requires VarName(tokens, index) == Ok((n, end))
    ensures VarsFrom(tokens, index, vars) == VarsFrom(tokens, end, vars + [Var(n)])
  {
  }

  /** The `[` of an expression list. */
  lemma {:induction false} ListOpens(tokens: seq<Token>, start: nat)
    requires start < |tokens| && tokens[start] == OpenSquare
    ensures ExpressionList(tokens, start) == ItemsFrom(tokens, start + 1, [])
  {
  }

  /** The `]` of an expression list. */
  lemma {:induction false} ItemsClose(tokens: seq<Token>, index: nat, items: seq<Expression>)
    requires index < |tokens| && tokens[index] == CloseSquare
    ensures ItemsFrom(tokens, index, items) == Ok((items, index + 1))
  {
  }

  /** One element of an expression list, with a token after it. */
  lemma {:induction false} ItemsStep(tokens: seq<Token>, index: nat, items: seq<Expression>, e: Expression, end: nat)
    requires index < |tokens| && tokens[index] != CloseSquare
    requires NextExpression(tokens, index) == Ok((e, end)) && end < |tokens|
    ensures ItemsFrom(tokens, index, items) == ItemsFrom(tokens, end, items + [e])
  {
  }

  /** `{name}(params)[body]`. */
  lemma {:induction false} DefStep(tokens: seq<Token>, start: nat, name: string, i: nat, ps: seq<Var>, j: nat, body: seq<Expression>, end: nat)
    requires start < |tokens| && tokens[start] == OpenCurly
    requires VarName(tokens, start + 1) == Ok((name, i)) && i < |tokens| - 1
    requires tokens[i] == CloseCurly && tokens[i + 1] == OpenParen
    requires VarList(tokens, i + 1) == Ok((ps, j)) && j < |tokens| && tokens[j] == OpenSquare
    requires ExpressionList(tokens, j) == Ok((body, end))
    ensures NextExpression(tokens, start) == Ok((FunctionDef(Var(name), ps, ListExp(body)), end))
  {
  }

  /** `{name}[args]`. */
  lemma {:induction false} CallStep(tokens: seq<Token>, start: nat, name: string, i: nat, args: seq<Expression>, end: nat)
    requires start < |tokens| && tokens[start] == OpenCurly
    requires VarName(tokens, start + 1) == Ok((name, i)) && i < |tokens| - 1
    requires tokens[i] == CloseCurly && tokens[i + 1] == OpenSquare
    requires ExpressionList(tokens, i + 1) == Ok((args, end))
    ensures NextExpression(tokens, start) == Ok((FunctionCall(Var(name), ListExp(args)), end))
  {
  }

  /** `[c]|[t]|[f]`. */
  lemma {:induction false} IfStep(tokens: seq<Token>, start: nat, c: seq<Expression>, i: nat, t: seq<Expression>, j: nat, f: seq<Expression>, end: nat)
    requires start < |tokens| && tokens[start] == OpenSquare
    requires ExpressionList(tokens, start) == Ok((c, i)) && i < |tokens| - 1 && tokens[i] == Pipe
    requires ExpressionList(tokens, i + 1) == Ok((t, j)) && j < |tokens| - 1 && tokens[j] == Pipe
    requires ExpressionList(tokens, j + 1) == Ok((f, end))
    ensures NextExpression(tokens, start) == Ok((If(ListExp(c), ListExp(t), ListExp(f)), end))
  {
  }

  // -------------------------------------------- expressions written as tokens

  /** The tokens of an expression of the shapes the parser builds; a
      conditional is always written with its else branch. */
  function Unparse(e: Expression): seq<Token>
    decreases e
  {
    match e
    case FunctionDef(n, ps, ListExp(body)) =>
      [OpenCurly] + NameTokens(n.name) + [CloseCurly] + ParamListTokens(ps) + UnparseList(body)
    case FunctionCall(n, ListExp(args)) =>
      [OpenCurly] + NameTokens(n.name) + [CloseCurly] + UnparseList(args)
    case If(ListExp(c), ListExp(t), ListExp(f)) =>
      UnparseList(c) + [Pipe] + UnparseList(t) + [Pipe] + UnparseList(f)
    case _ => []
  }

  function UnparseList(items: seq<Expression>): seq<Token>
    decreases items, 1
  {
    [OpenSquare] + UnparseItems(items) + [CloseSquare]
  }

  function UnparseItems(items: seq<Expression>): seq<Token>
    decreases items, 0
  {
    if items == [] then [] else Unparse(items[0]) + UnparseItems(items[1..])
  }

  /** The expressions the round trip covers: definitions, calls and
      three-branch conditionals whose names are balanced and whose lists hold
      the same. The parser also builds a plain group at the end of the tokens
      and a conditional without an else branch; those are covered by
      `GroupAtEnd` and `IfWithoutElse` instead. */
  predicate Printable(e: Expression)
    decreases e
  {
    match e
    case FunctionDef(n, ps, ListExp(body)) => IsNameText(n.name) && AllNames(ps) && PrintableItems(body)
    case FunctionCall(n, ListExp(args)) => IsNameText(n.name) && PrintableItems(args)
    case If(ListExp(c), ListExp(t), ListExp(f)) => PrintableItems(c) && PrintableItems(t) && PrintableItems(f)
    case _ => false
  }

  predicate PrintableItems(items: seq<Expression>)
    decreases items
  {
    forall i :: 0 <= i < |items| ==> Printable(items[i])
  }

  lemma {:induction false} UnparseStart(e: Expression)
    requires Printable(e)
    ensures |Unparse(e)| >= 2
    ensures Unparse(e)[0] == OpenCurly || Unparse(e)[0] == OpenSquare
  {
  }

  // ------------------------------------------------ where the parts sit

  /** The parts of a written definition `{name}(params)[body]`. */
  lemma {:induction false} DefLayout(tokens: seq<Token>, start: nat, n: Var, ps: seq<Var>, body: seq<Expression>)
    requires At(tokens, start, Unparse(FunctionDef(n, ps, ListExp(body))))
    ensures var i := start + 1 + |n.name|;
            var j := i + 1 + |ParamListTokens(ps)|;
            && tokens[start] == OpenCurly
            && At(tokens, start + 1, NameTokens(n.name))
            && i < |tokens| - 1 && tokens[i] == CloseCurly && tokens[i + 1] == OpenParen
            && At(tokens, i + 1, ParamListTokens(ps))
            && j < |tokens| && tokens[j] == OpenSquare
            && At(tokens, j, UnparseList(body))
            && j + |UnparseList(body)| == start + |Unparse(FunctionDef(n, ps, ListExp(body)))|
  {
    var nt := NameTokens(n.name);
    var a1 := [OpenCurly] + nt;
    var a2 := a1 + [CloseCurly];
    var a3 := a2 + ParamListTokens(ps);
    AtSplit(tokens, start, a3, UnparseList(body));
    AtSplit(tokens, start, a2, ParamListTokens(ps));
    AtSplit(tokens, start, a1, [CloseCurly]);
    AtSplit(tokens, start, [OpenCurly], nt);
  }

  /** The parts of a written call `{name}[args]`. */
  lemma {:induction false} CallLayout(tokens: seq<Token>, start: nat, n: Var, args: seq<Expression>)
    requires At(tokens, start, Unparse(FunctionCall(n, ListExp(args))))
    ensures var i := start + 1 + |n.name|;
            && tokens[start] == OpenCurly
            && At(tokens, start + 1, NameTokens(n.name))
            && i < |tokens| - 1 && tokens[i] == CloseCurly && tokens[i + 1] == OpenSquare
            && At(tokens, i + 1, UnparseList(args))
            && i + 1 + |UnparseList(args)| == start + |Unparse(FunctionCall(n, ListExp(args)))|
  {
    var nt := NameTokens(n.name);
    var a1 := [OpenCurly] + nt;
    var a2 := a1 + [CloseCurly];
    AtSplit(tokens, start, a2, UnparseList(args));
    AtSplit(tokens, start, a1, [CloseCurly]);
    AtSplit(tokens, start, [OpenCurly], nt);
  }

  /** The parts of any `a|b`. */
  lemma {:induction false} ThenSplit(tokens: seq<Token>, start: nat, a: seq<Token>, b: seq<Token>)
    requires At(tokens, start, a + [Pipe] + b)
    ensures var i := start + |a|;
            && At(tokens, start, a)
            && i < |tokens| && tokens[i] == Pipe
            && At(tokens, i + 1, b)
            && i + 1 + |b| == start + |a + [Pipe] + b|
  {
    AtSplit(tokens, start, a + [Pipe], b);
    AtSplit(tokens, start, a, [Pipe]);
  }

  /** The parts of any `a|b|c`. */
  lemma {:induction false} IfSplit(tokens: seq<Token>, start: nat, a: seq<Token>, b: seq<Token>, c: seq<Token>)
    requires At(tokens, start, a + [Pipe] + b + [Pipe] + c)
    ensures var i := start + |a|;
            var j := i + 1 + |b|;
            && At(tokens, start, a)
            && i < |tokens| && tokens[i] == Pipe
            && At(tokens, i + 1, b)
            && j < |tokens| && tokens[j] == Pipe
            && At(tokens, j + 1, c)
            && j + 1 + |c| == start + |a + [Pipe] + b + [Pipe] + c|
  {
    AtSplit(tokens, start, a + [Pipe] + b + [Pipe], c);
    AtSplit(tokens, start, a + [Pipe] + b, [Pipe]);
    ThenSplit(tokens, start, a, b);
  }

  /** The parts of a written `[c]|[t]`. */
  lemma {:induction false} ThenLayout(tokens: seq<Token>, start: nat, c: seq<Expression>, t: seq<Expression>)
    requires At(tokens, start, UnparseList(c) + [Pipe] + UnparseList(t))
    ensures var i := start + |UnparseList(c)|;
            && At(tokens, start, UnparseList(c))
            && i < |tokens| - 1 && tokens[i] == Pipe
            && At(tokens, i + 1, UnparseList(t))
            && i + 1 + |UnparseList(t)| == start + |UnparseList(c) + [Pipe] + UnparseList(t)|
  {
    ThenSplit(tokens, start, UnparseList(c), UnparseList(t));
  }

  /** The parts of a written `[c]|[t]|[f]`. */
  lemma {:induction false} IfLayout(tokens: seq<Token>, start: nat, c: seq<Expression>, t: seq<Expression>, f: seq<Expression>)
    requires At(tokens, start, Unparse(If(ListExp(c), ListExp(t), ListExp(f))))
    ensures var i := start + |UnparseList(c)|;
            var j := i + 1 + |UnparseList(t)|;
            && At(tokens, start, UnparseList(c))
            && i < |tokens| - 1 && tokens[i] == Pipe
            && At(tokens, i + 1, UnparseList(t))
            && j < |tokens| - 1 && tokens[j] == Pipe
            && At(tokens, j + 1, UnparseList(f))
            && j + 1 + |UnparseList(f)| == start + |Unparse(If(ListExp(c), ListExp(t), ListExp(f)))|
  {
    IfSplit(tokens, start, UnparseList(c), UnparseList(t), UnparseList(f));
  }

  /** The parts of a written list `[items]`. */
  lemma {:induction false} ListLayout(tokens: seq<Token>, start: nat, items: seq<Expression>)
    requires At(tokens, start, UnparseList(items))
    ensures var k := start + 1 + |UnparseItems(items)|;
            && tokens[start] == OpenSquare
            && At(tokens, start + 1, UnparseItems(items))
            && k < |tokens| && tokens[k] == CloseSquare
            && k + 1 == start + |UnparseList(items)|
  {
    AtSplit(tokens, start, [OpenSquare] + UnparseItems(items), [CloseSquare]);
    AtSplit(tokens, start, [OpenSquare], UnparseItems(items));
  }

  /** The first written item and the rest. */
  lemma {:induction false} ItemsLayout(tokens: seq<Token>, index: nat, items: seq<Expression>)
    requires items != [] && At(tokens, index, UnparseItems(items))
    ensures && At(tokens, index, Unparse(items[0]))
            && At(tokens, index + |Unparse(items[0])|, UnparseItems(items[1..]))
            && |UnparseItems(items)| == |Unparse(items[0])| + |UnparseItems(items[1..])|
  {
    AtSplit(tokens, index, Unparse(items[0]), UnparseItems(items[1..]));
  }

  // ------------------------------------------------------------ round trip

  /** Round trip: a printable expression written at `start` is parsed back
      to itself, ending just after its last token. */
  lemma {:induction false} ParseUnparse(tokens: seq<Token>, start: nat, e: Expression)
    requires Printable(e) && At(tokens, start, Unparse(e))
    ensures NextExpression(tokens, start) == Ok((e, start + |Unparse(e)|))
    decreases e, 3
  {
    match e
    case FunctionDef(n, ps, ListExp(body)) => ParseDef(tokens, start, n, ps, body);
    case FunctionCall(n, ListExp(args)) => ParseCall(tokens, start, n, args);
    case If(ListExp(c), ListExp(t), ListExp(f)) => ParseIf(tokens, start, c, t, f);
  }

  lemma {:induction false} ParseDef(tokens: seq<Token>, start: nat, n: Var, ps: seq<Var>, body: seq<Expression>)
    requires IsNameText(n.name) && AllNames(ps) && PrintableItems(body)
    requires At(tokens, start, Unparse(FunctionDef(n, ps, ListExp(body))))
    ensures NextExpression(tokens, start)
         == Ok((FunctionDef(n, ps, ListExp(body)), start + |Unparse(FunctionDef(n, ps, ListExp(body)))|))
    decreases body, 3
  {
    DefLayout(tokens, start, n, ps, body);
    var i := start + 1 + |n.name|;
    var j := i + 1 + |ParamListTokens(ps)|;
    VarNameAt(tokens, start + 1, n.name);
    VarListAt(tokens, i + 1, ps);
    ParseUnparseList(tokens, j, body);
    DefStep(tokens, start, n.name, i, ps, j, body, j + |UnparseList(body)|);
    assert Var(n.name) == n;
  }

  lemma {:induction false} ParseCall(tokens: seq<Token>, start: nat, n: Var, args: seq<Expression>)
    requires IsNameText(n.name) && PrintableItems(args)
    requires At(tokens, start, Unparse(FunctionCall(n, ListExp(args))))
    ensures NextExpression(tokens, start)
         == Ok((FunctionCall(n, ListExp(args)), start + |Unparse(FunctionCall(n, ListExp(args)))|))
    decreases args, 3
  {
    CallLayout(tokens, start, n, args);
    var i := start + 1 + |n.name|;
    VarNameAt(tokens, start + 1, n.name);
    ParseUnparseList(tokens, i + 1, args);
    CallStep(tokens, start, n.name, i, args, i + 1 + |UnparseList(args)|);
    assert Var(n.name) == n;
  }

  lemma {:induction false} ParseIf(tokens: seq<Token>, start: nat, c: seq<Expression>, t: seq<Expression>, f: seq<Expression>)
    requires PrintableItems(c) && PrintableItems(t) && PrintableItems(f)
    requires At(tokens, start, Unparse(If(ListExp(c), ListExp(t), ListExp(f))))
    ensures NextExpression(tokens, start)
         == Ok((If(ListExp(c), ListExp(t), ListExp(f)), start + |Unparse(If(ListExp(c), ListExp(t), ListExp(f)))|))
    decreases If(ListExp(c), ListExp(t), ListExp(f)), 2
  {
    IfLayout(tokens, start, c, t, f);
    var i := start + |UnparseList(c)|;
    ParseIfParts(tokens, start, c, i, t, i + 1 + |UnparseList(t)|, f);
  }

  /** `[c]|[t]|[f]` with its parts already located. */
  lemma {:induction false} ParseIfParts(tokens: seq<Token>, start: nat, c: seq<Expression>, i: nat, t: seq<Expression>, j: nat, f: seq<Expression>)
    requires PrintableItems(c) && PrintableItems(t) && PrintableItems(f)
    requires At(tokens, start, UnparseList(c)) && i == start + |UnparseList(c)|
    requires i < |tokens| - 1 && tokens[i] == Pipe
    requires At(tokens, i + 1, UnparseList(t)) && j == i + 1 + |UnparseList(t)|
    requires j < |tokens| - 1 && tokens[j] == Pipe
    requires At(tokens, j + 1, UnparseList(f))
    ensures NextExpression(tokens, start) == Ok((If(ListExp(c), ListExp(t), ListExp(f)), j + 1 + |UnparseList(f)|))
    decreases If(ListExp(c), ListExp(t), ListExp(f)), 1
  {
    ListLayout(tokens, start, c);
    ParseUnparseList(tokens, start, c);
    ParseUnparseList(tokens, i + 1, t);
    ParseUnparseList(tokens, j + 1, f);
    IfStep(tokens, start, c, i, t, j, f, j + 1 + |UnparseList(f)|);
  }

  /** A written list of printable expressions is read back by `get_expression_list`. */
  lemma {:induction false} ParseUnparseList(tokens: seq<Token>, start: nat, items: seq<Expression>)
    requires PrintableItems(items) && At(tokens, start, UnparseList(items))
    ensures ExpressionList(tokens, start) == Ok((items, start + |UnparseList(items)|))
    decreases items, 2
  {
    ListLayout(tokens, start, items);
    ListOpens(tokens, start);
    ParseItemsPrefix(tokens, start + 1, [], items);
    assert [] + items == items;
    ItemsClose(tokens, start + 1 + |UnparseItems(items)|, items);
  }

  /** The loop of `get_expression_list` reads written items one by one, as
      long as a token follows the last of them. */
  lemma {:induction false} ParseItemsPrefix(tokens: seq<Token>, index: nat, done: seq<Expression>, items: seq<Expression>)
    requires PrintableItems(items) && At(tokens, index, UnparseItems(items))
    requires index + |UnparseItems(items)| < |tokens|
    ensures ItemsFrom(tokens, index, done) == ItemsFrom(tokens, index + |UnparseItems(items)|, done + items)
    decreases items, 1
  {
    if items == [] {
      assert done + items == done;
    } else {
      var next := index + |Unparse(items[0])|;
      ParseFirstItem(tokens, index, done, items);
      ParseItemsPrefix(tokens, next, done + [items[0]], items[1..]);
      SplitFirst(done, items);
    }
  }

  /** The first written item is read, and the rest is written after it. */
  lemma {:induction false} ParseFirstItem(tokens: seq<Token>, index: nat, done: seq<Expression>, items: seq<Expression>)
    requires items != [] && PrintableItems(items) && At(tokens, index, UnparseItems(items))
    requires index + |UnparseItems(items)| < |tokens|
    ensures var next := index + |Unparse(items[0])|;
            && ItemsFrom(tokens, index, done) == ItemsFrom(tokens, next, done + [items[0]])
            && PrintableItems(items[1..])
            && At(tokens, next, UnparseItems(items[1..]))
            && next + |UnparseItems(items[1..])| == index + |UnparseItems(items)|
    decreases items, 0
  {
    var e, rest := items[0], items[1..];
    assert Printable(e);
    assert PrintableItems(rest) by {
      assert forall i :: 0 <= i < |rest| ==> rest[i] == items[i + 1];
    }
    ItemsLayout(tokens, index, items);
    UnparseStart(e);
    assert tokens[index] == Unparse(e)[0];
    ParseUnparse(tokens, index, e);
    ItemsStep(tokens, index, done, e, index + |Unparse(e)|);
  }


  // ------------------------------------------------ the other token shapes

  /** A group `[c]` that is the last thing in the tokens. */
  lemma {:induction false} GroupStep(tokens: seq<Token>, start: nat, c: seq<Expression>)
    requires start < |tokens| && tokens[start] == OpenSquare
    requires ExpressionList(tokens, start) == Ok((c, |tokens|))
    ensures NextExpression(tokens, start) == Ok((ListExp(c), |tokens|))
  {
  }

  /** `[c]` as the last thing in the tokens is the group `ListExp(c)`. */
  lemma {:induction false} GroupAtEnd(tokens: seq<Token>, start: nat, c: seq<Expression>)
    requires PrintableItems(c) && At(tokens, start, UnparseList(c))
    requires start + |UnparseList(c)| == |tokens|
    ensures NextExpression(tokens, start) == Ok((ListExp(c), |tokens|))
  {
    ListLayout(tokens, start, c);
    ParseUnparseList(tokens, start, c);
    GroupStep(tokens, start, c);
  }

  /** A condition `[c]` not followed by `|` and another token. */
  lemma {:induction false} GroupNotAtEndStep(tokens: seq<Token>, start: nat, c: seq<Expression>, i: nat)
    requires start < |tokens| && tokens[start] == OpenSquare
    requires ExpressionList(tokens, start) == Ok((c, i)) && i < |tokens|
    requires i == |tokens| - 1 || tokens[i] != Pipe
    ensures NextExpression(tokens, start)
         == Err(if i == |tokens| - 1 then "Unexpected end of tokens after condition" else "Expected Pipe after condition")
  {
  }

  /** A group `[c]` anywhere but at the very end of the tokens, and not
      followed by `|` and a further token, is an error. */
  lemma {:induction false} GroupNotAtEnd(tokens: seq<Token>, start: nat, c: seq<Expression>)
    requires PrintableItems(c) && At(tokens, start, UnparseList(c))
    requires var i := start + |UnparseList(c)|;
             i < |tokens| && (i == |tokens| - 1 || tokens[i] != Pipe)
    ensures var i := start + |UnparseList(c)|;
            NextExpression(tokens, start)
            == Err(if i == |tokens| - 1 then "Unexpected end of tokens after condition" else "Expected Pipe after condition")
  {
    ListLayout(tokens, start, c);
    ParseUnparseList(tokens, start, c);
    GroupNotAtEndStep(tokens, start, c, start + |UnparseList(c)|);
  }

  /** `[c]|[t]` followed by a token other than `|` and at least one more. */
  lemma {:induction false} IfNoElseStep(tokens: seq<Token>, start: nat, c: seq<Expression>, i: nat, t: seq<Expression>, j: nat)
    requires start < |tokens| && tokens[start] == OpenSquare
    requires ExpressionList(tokens, start) == Ok((c, i)) && i < |tokens| - 1 && tokens[i] == Pipe
    requires ExpressionList(tokens, i + 1) == Ok((t, j)) && j < |tokens| - 1 && tokens[j] != Pipe
    ensures NextExpression(tokens, start) == Ok((If(ListExp(c), ListExp(t), ListExp([])), j))
  {
  }

  /** `[c]|[t]` followed by at least two more tokens, the first not `|`,
      is the conditional with an empty else branch. */
  lemma {:induction false} IfWithoutElse(tokens: seq<Token>, start: nat, c: seq<Expression>, t: seq<Expression>)
    requires PrintableItems(c) && PrintableItems(t)
    requires At(tokens, start, UnparseList(c) + [Pipe] + UnparseList(t))
    requires var j := start + |UnparseList(c) + [Pipe] + UnparseList(t)|;
             j < |tokens| - 1 && tokens[j] != Pipe
    ensures NextExpression(tokens, start)
         == Ok((If(ListExp(c), ListExp(t), ListExp([])), start + |UnparseList(c) + [Pipe] + UnparseList(t)|))
  {
    ThenLayout(tokens, start, c, t);
    var i := start + |UnparseList(c)|;
    ListLayout(tokens, start, c);
    ParseUnparseList(tokens, start, c);
    ParseUnparseList(tokens, i + 1, t);
    IfNoElseStep(tokens, start, c, i, t, i + 1 + |UnparseList(t)|);
  }

  /** `[c]|[t]` with at most one token after it. */
  lemma {:induction false} ThenAtEndStep(tokens: seq<Token>, start: nat, c: seq<Expression>, i: nat, t: seq<Expression>, j: nat)
    requires start < |tokens| && tokens[start] == OpenSquare
    requires ExpressionList(tokens, start) == Ok((c, i)) && i < |tokens| - 1 && tokens[i] == Pipe
    requires ExpressionList(tokens, i + 1) == Ok((t, j)) && j >= |tokens| - 1
    ensures NextExpression(tokens, start) == Err("Unexpected end of tokens after then branch")
  {
  }

  /** `[c]|[t]` with at most one token after it is an error. */
  lemma {:induction false} IfThenAtEnd(tokens: seq<Token>, start: nat, c: seq<Expression>, t: seq<Expression>)
    requires PrintableItems(c) && PrintableItems(t)
    requires At(tokens, start, UnparseList(c) + [Pipe] + UnparseList(t))
    requires start + |UnparseList(c) + [Pipe] + UnparseList(t)| >= |tokens| - 1
    ensures NextExpression(tokens, start) == Err("Unexpected end of tokens after then branch")
  {
    ThenLayout(tokens, start, c, t);
    var i := start + |UnparseList(c)|;
    ListLayout(tokens, start, c);
    ListLayout(tokens, i + 1, t);
    ParseUnparseList(tokens, start, c);
    ParseUnparseList(tokens, i + 1, t);
    ThenAtEndStep(tokens, start, c, i, t, i + 1 + |UnparseList(t)|);
  }

  /** An element that ends exactly at the end of the tokens. */
  lemma {:induction false} UnterminatedStep(tokens: seq<Token>, index: nat, items: seq<Expression>, e: Expression)
    requires index < |tokens| && tokens[index] != CloseSquare
    requires NextExpression(tokens, index) == Ok((e, |tokens|))
    ensures ItemsFrom(tokens, index, items) == Err("Expected ] at end of expression list")
  {
  }

  /** Where the pieces of a written list without its `]` lie. */
  lemma {:induction false} UnterminatedLayout(tokens: seq<Token>, start: nat, items: seq<Expression>, last: Expression)
    requires Printable(last)
    requires At(tokens, start, [OpenSquare] + UnparseItems(items) + Unparse(last))
    requires start + |[OpenSquare] + UnparseItems(items) + Unparse(last)| == |tokens|
    ensures var i := start + 1 + |UnparseItems(items)|;
            && start < |tokens| && tokens[start] == OpenSquare
            && At(tokens, start + 1, UnparseItems(items))
            && i < |tokens| && tokens[i] != CloseSquare
            && At(tokens, i, Unparse(last))
            && i + |Unparse(last)| == |tokens|
  {
    var ui := UnparseItems(items);
    AtSplit(tokens, start, [OpenSquare] + ui, Unparse(last));
    AtSplit(tokens, start, [OpenSquare], ui);
    UnparseStart(last);
  }

  /** A list whose last written item ends the tokens, with no `]`, is an error. */
  lemma {:induction false} UnterminatedList(tokens: seq<Token>, start: nat, items: seq<Expression>, last: Expression)
    requires PrintableItems(items) && Printable(last)
    requires At(tokens, start, [OpenSquare] + UnparseItems(items) + Unparse(last))
    requires start + |[OpenSquare] + UnparseItems(items) + Unparse(last)| == |tokens|
    ensures ExpressionList(tokens, start) == Err("Expected ] at end of expression list")
  {
    UnterminatedLayout(tokens, start, items, last);
    var i := start + 1 + |UnparseItems(items)|;
    ItemsRead(tokens, start + 1, items, i);
    ParseUnparse(tokens, i, last);
    UnterminatedChain(tokens, start, i, items, last);
  }

  /** Reading the written items from an empty list lands on `i`, where they end. */
  lemma {:induction false} ItemsRead(tokens: seq<Token>, index: nat, items: seq<Expression>, i: nat)
    requires PrintableItems(items) && At(tokens, index, UnparseItems(items))
    requires i == index + |UnparseItems(items)| && i < |tokens|
    ensures ItemsFrom(tokens, index, []) == ItemsFrom(tokens, i, items)
  {
    var none: seq<Expression> := [];
    assert none + items == items;
    ParseItemsPrefix(tokens, index, none, items);
  }

  /** The same, in terms of what the parser has read before `i` and from `i`. */
  lemma {:induction false} UnterminatedChain(tokens: seq<Token>, start: nat, i: nat, items: seq<Expression>, last: Expression)
    requires start < |tokens| && tokens[start] == OpenSquare
    requires i < |tokens| && tokens[i] != CloseSquare
    requires ItemsFrom(tokens, start + 1, []) == ItemsFrom(tokens, i, items)
    requires NextExpression(tokens, i) == Ok((last, |tokens|))
    ensures ExpressionList(tokens, start) == Err("Expected ] at end of expression list")
  {
    ListOpens(tokens, start);
    UnterminatedStep(tokens, i, items, last);
  }

  /** Only `{` and `[` can start an expression. */
  lemma {:induction false} UnexpectedToken(tokens: seq<Token>, start: nat)
    requires start < |tokens| && tokens[start] != OpenCurly && tokens[start] != OpenSquare
    ensures NextExpression(tokens, start) == Err("Unexpected token at " + Decimal(start))
  {
  }

  /** A list item that starts with a token other than `{`, `[` or `]` is a
      parse error that `get_expression_list` unwraps: `[()]` panics. */
  lemma {:induction false} StrayItemPanics(tokens: seq<Token>, start: nat)
    requires start + 1 < |tokens| && tokens[start] == OpenSquare
    requires tokens[start + 1] !in {OpenCurly, OpenSquare, CloseSquare}
    ensures ExpressionList(tokens, start) == Panic
    ensures NextExpression(tokens, start) == Panic
  {
    UnexpectedToken(tokens, start + 1);
  }

  /** Parsing past the last token is an error. */
  lemma {:induction false} NoMoreTokens(tokens: seq<Token>, start: nat)
    requires start >= |tokens|
    ensures NextExpression(tokens, start) == Err("No more tokens to parse")
  {
  }

  /** A `{` as the last token makes `get_var_name` index past the end: a panic. */
  lemma {:induction false} CurlyAtEndPanics(tokens: seq<Token>)
    requires |tokens| >= 1 && tokens[|tokens| - 1] == OpenCurly
    ensures NextExpression(tokens, |tokens| - 1) == Panic
  {
  }

  /** A `[` that is the last token opens a list that the end of the tokens
      closes: it is read as an empty group. */
  lemma {:induction false} SquareAtEndIsEmptyGroup(tokens: seq<Token>)
    requires |tokens| >= 1 && tokens[|tokens| - 1] == OpenSquare
    ensures NextExpression(tokens, |tokens| - 1) == Ok((ListExp([]), |tokens|))
  {
    ListOpens(tokens, |tokens| - 1);
    var n: nat := |tokens|;
    assert ItemsFrom(tokens, n, []) == Ok(([], n));
  }

  /** `[[]|[]]`: after the then branch, `get_next_expression` asks for at least
      two more tokens, counting the `]` of the enclosing list, so the item is an
      error and the list unwraps it. */
  lemma {:induction false} ThenBranchAtListEndPanics(tokens: seq<Token>)
    requires tokens == [OpenSquare, OpenSquare, CloseSquare, Pipe, OpenSquare, CloseSquare, CloseSquare]
    ensures NextExpression(tokens, 1) == Err("Unexpected end of tokens after then branch")
    ensures ExpressionList(tokens, 0) == Panic
  {
    EmptyBranches(tokens);
    ListOpens(tokens, 0);
  }

  /** The two `[]` of `[[]|[]]` when it starts the tokens. */
  lemma {:induction false} EmptyBranches(tokens: seq<Token>)
    requires |tokens| >= 7
    requires tokens[..7] == [OpenSquare, OpenSquare, CloseSquare, Pipe, OpenSquare, CloseSquare, CloseSquare]
    ensures tokens[1] == OpenSquare && tokens[3] == Pipe && tokens[6] == CloseSquare
    ensures ExpressionList(tokens, 1) == Ok(([], 3))
    ensures ExpressionList(tokens, 4) == Ok(([], 6))
  {
    assert tokens[1] == tokens[..7][1] && tokens[2] == tokens[..7][2] && tokens[3] == tokens[..7][3];
    assert tokens[4] == tokens[..7][4] && tokens[5] == tokens[..7][5] && tokens[6] == tokens[..7][6];
    ListOpens(tokens, 1);
    ItemsClose(tokens, 2, []);
    ListOpens(tokens, 4);
    ItemsClose(tokens, 5, []);
  }

  /** The same list followed by any token: the conditional without an else
      branch is read, and the list closes. */
  lemma {:induction false} ThenBranchBeforeMoreTokens(tokens: seq<Token>)
    requires |tokens| > 7
    requires tokens[..7] == [OpenSquare, OpenSquare, CloseSquare, Pipe, OpenSquare, CloseSquare, CloseSquare]
    ensures ExpressionList(tokens, 0) == Ok(([If(ListExp([]), ListExp([]), ListExp([]))], 7))
  {
    var item := If(ListExp([]), ListExp([]), ListExp([]));
    EmptyBranches(tokens);
    assert tokens[0] == tokens[..7][0];
    assert NextExpression(tokens, 1) == Ok((item, 6));
    ListOpens(tokens, 0);
    assert [] + [item] == [item];
    ItemsClose(tokens, 6, [item]);
  }
}
