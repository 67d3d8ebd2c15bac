/** Types shared by the tokenizer, the parser, the evaluator and the driver:
    Rust's `Option`, its `Result` extended with the two ways a Rust run can
    stop without returning, the `u32` of the evaluator, and the decimal
    rendering that `format!("{}", n)` produces for an unsigned integer. */
module Prelude {

  datatype Option<T> = None | Some(value: T)

  /** The outcome of a call into the interpreter.
      - Ok and Err are the two halves of Rust's `Result<T, String>`.
      - Panic is a Rust panic: `.unwrap()` on an `Err`, or indexing a vector
        past its end. Nothing catches it.
      - Exhausted stands for the host stack running out. The evaluator has a
        call-depth budget (its `fuel`); a call nested deeper than the budget
        ends the run like the stack overflow of the real interpreter. */
  datatype Outcome<T> = Ok(value: T) | Err(msg: string) | Panic | Exhausted

  /** The failure `r` re-typed, as `?` does when it returns an error early. */
  function Forward<T, U>(r: Outcome<T>): (f: Outcome<U>)
    requires !r.Ok?
    ensures f.Err? == r.Err? && f.Panic? == r.Panic? && f.Exhausted? == r.Exhausted?
    ensures f.Err? ==> f.msg == r.msg
  {
    match r
    case Err(m) => Err(m)
    case Panic => Panic
    case Exhausted => Exhausted
  }

  const U32_MAX: int := 0xFFFF_FFFF

  /** Rust's `u32`. */
  type U32 = x: int | 0 <= x <= U32_MAX

  predicate IsDigit(c: char) {
    '0' <= c <= '9'
  }

  function DigitChar(d: nat): (c: char)
    requires d < 10
    ensures IsDigit(c) && c as int - '0' as int == d
  {
    ('0' as int + d) as char
  }

  /** The decimal text of `n`, as `format!("{}", n)` writes it. */
  function Decimal(n: nat): (s: string)
    ensures |s| >= 1
    ensures forall i :: 0 <= i < |s| ==> IsDigit(s[i])
    ensures n > 0 ==> s[0] != '0'
    decreases n
  {
    if n < 10 then [DigitChar(n)] else Decimal(n / 10) + [DigitChar(n % 10)]
  }

  /** The value of a string of decimal digits (the reading `Decimal` is meant for). */
  function DecimalValue(s: string): nat
    requires forall i :: 0 <= i < |s| ==> IsDigit(s[i])
  {
    if s == [] then 0
    else
      assert IsDigit(s[|s| - 1]);
      DecimalValue(s[..|s| - 1]) * 10 + (s[|s| - 1] as int - '0' as int)
  }

  /** Reading the decimal text of `n` gives back `n`. */
  lemma {:induction false} DecimalRoundTrip(n: nat)
    ensures DecimalValue(Decimal(n)) == n
    decreases n
  {
    if n >= 10 {
      var s := Decimal(n);
      assert s[..|s| - 1] == Decimal(n / 10);
      DecimalRoundTrip(n / 10);
    }
  }

  /** Distinct numbers have distinct decimal texts. */
  lemma {:induction false} DecimalInjective(m: nat, n: nat)
    requires Decimal(m) == Decimal(n)
    ensures m == n
  {
    DecimalRoundTrip(m);
    DecimalRoundTrip(n);
  }
}
