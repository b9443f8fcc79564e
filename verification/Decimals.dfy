/** Decimal numbers as the Rust side prints and reads them. */
module Decimals {
  import opened Options
  import opened Utf8

  function Digits(n: nat): (ds: seq<Scalar>)
    ensures ds != []
  {
    if n < 10 then [0x30 + n] else Digits(n / 10) + [0x30 + n % 10]
  }

  predicate AllDigits(s: seq<Scalar>) {
    forall i | 0 <= i < |s| :: 0x30 <= s[i] <= 0x39
  }

  function Value(s: seq<Scalar>): nat
    requires AllDigits(s)
  {
    if s == [] then 0
    else
      var last: int := s[|s| - 1];
      Value(s[..|s| - 1]) * 10 + (last - 0x30)
  }

  /** What follows an optional sign: at least one digit and nothing else. */
  function ParseDigits(s: seq<Scalar>): Option<nat> {
    if s != [] && AllDigits(s) then Some(Value(s)) else None
  }

  /** Decimal notation: one digit stands for itself, and a further one is added at the end. */
  lemma Notation(n: nat, d: nat)
    requires d < 10
    ensures Digits(10 * n + d) == (if n == 0 then [] else Digits(n)) + [0x30 + d]
  {
    if n > 0 { assert (10 * n + d) / 10 == n && (10 * n + d) % 10 == d; }
  }

  lemma {:induction false} DigitsRoundTrip(n: nat)
    ensures AllDigits(Digits(n)) && Value(Digits(n)) == n
  {
    var ds := Digits(n);
    if n < 10 {
      assert Value(ds[..0]) == 0;
    } else {
      DigitsRoundTrip(n / 10);
      assert ds[..|ds| - 1] == Digits(n / 10);
    }
  }
}
