/** What `tokenize` (src/parse.rs) promises: the seven bracket characters
    become their tokens in order, whitespace is dropped, the first other
    character is the error, and tokenizing a rendered token sequence gives
    the sequence back. */
module LexFacts {
  import opened Prelude
  import opened Parse

  /** A character `tokenize` accepts. */
  predicate Legal(c: char) {
    CharToken(c).Some? || IsWhitespace(c)
  }

  /** The text with its whitespace characters removed. */
  function Squeeze(s: string): string {
    if s == [] then "" else (if IsWhitespace(s[0]) then "" else [s[0]]) + Squeeze(s[1..])
  }

  /** No token prints as whitespace, and the character a token prints as maps back to it. */
  lemma {:induction false} SymbolInverse(t: Token)
    ensures CharToken(Symbol(t)) == Some(t)
    ensures !IsWhitespace(Symbol(t))
  {
  }

  lemma {:induction false} RenderAppend(a: seq<Token>, b: seq<Token>)
    ensures Render(a + b) == Render(a) + Render(b)
  {
    assert forall i :: 0 <= i < |a| ==> (a + b)[i] == a[i];
    assert forall i :: |a| <= i < |a + b| ==> (a + b)[i] == b[i - |a|];
  }

  /** Round trip: tokenizing the rendering of any token sequence gives it back. */
  lemma {:induction false} LexRender(ts: seq<Token>)
    ensures Lexed(Render(ts)) == Ok(ts)
    decreases |ts|
  {
    if ts != [] {
      var s := Render(ts);
      SymbolInverse(ts[0]);
      assert s[1..] == Render(ts[1..]);
      LexRender(ts[1..]);
      assert [ts[0]] + ts[1..] == ts;
    }
  }

  /** `tokenize` succeeds exactly when every character is a bracket, the pipe or whitespace. */
  lemma {:induction false} LexedSucceeds(s: string)
    ensures Lexed(s).Ok? <==> forall i :: 0 <= i < |s| ==> Legal(s[i])
    decreases |s|
  {
    if s != [] {
      LexedSucceeds(s[1..]);
      assert forall i :: 1 <= i < |s| ==> s[1..][i - 1] == s[i];
      if forall i :: 0 <= i < |s| ==> Legal(s[i]) {
        assert forall i :: 0 <= i < |s[1..]| ==> Legal(s[1..][i]);
      }
    }
  }

  /** The error is about the first character that is neither a token nor whitespace. */
  lemma {:induction false} LexedFirstIllegal(s: string, k: nat)
    requires k < |s| && !Legal(s[k])
    requires forall j :: 0 <= j < k ==> Legal(s[j])
    ensures Lexed(s) == Err("Unexpected character: " + [s[k]])
    decreases k
  {
    if k > 0 {
      assert s[1..][k - 1] == s[k];
      assert forall j :: 0 <= j < k - 1 ==> s[1..][j] == s[j + 1];
      LexedFirstIllegal(s[1..], k - 1);
    }
  }

  /** On success the tokens render as the input without its whitespace:
      each bracket character became its own token, in input order. */
  lemma {:induction false} LexedSqueeze(s: string)
    requires Lexed(s).Ok?
    ensures Render(Lexed(s).value) == Squeeze(s)
    decreases |s|
  {
    if s != [] {
      LexedSqueeze(s[1..]);
      var rest := Lexed(s[1..]).value;
      match CharToken(s[0])
      case Some(t) =>
        RenderAppend([t], rest);
        assert !IsWhitespace(s[0]);
        assert Render([t]) == [s[0]];
      case None =>
    }
  }

  /** Tokenizing a concatenation tokenizes the two parts one after the other. */
  lemma {:induction false} LexedAppend(a: string, b: string)
    requires Lexed(a).Ok?
    ensures Lexed(a + b) == Prepend(Lexed(a).value, Lexed(b))
    decreases |a|
  {
    if a == [] {
      assert a + b == b;
      if Lexed(b).Ok? {
        assert [] + Lexed(b).value == Lexed(b).value;
      }
    } else {
      assert (a + b)[0] == a[0] && (a + b)[1..] == a[1..] + b;
      LexedAppend(a[1..], b);
      match CharToken(a[0])
      case Some(t) =>
        if Lexed(b).Ok? {
          assert [t] + (Lexed(a[1..]).value + Lexed(b).value) == ([t] + Lexed(a[1..]).value) + Lexed(b).value;
        }
      case None =>
    }
  }

  /** Text made only of whitespace has no tokens. */
  lemma {:induction false} LexedBlank(s: string)
    requires forall i :: 0 <= i < |s| ==> IsWhitespace(s[i])
    ensures Lexed(s) == Ok([])
    decreases |s|
  {
    if s != [] {
      assert forall i :: 0 <= i < |s[1..]| ==> s[1..][i] == s[i + 1];
      LexedBlank(s[1..]);
    }
  }
}
