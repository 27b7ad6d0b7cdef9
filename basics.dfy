/** Option and Result, and the C++ integer and rounding semantics the orchestrator relies on. */
module Basics {

  datatype Option<T> = None | Some(value: T)

  /** A value, or the reason the computation stopped (an exception, undefined behaviour). */
  datatype Result<T, E> = Ok(value: T) | Err(error: E) {
    predicate IsFailure() { Err? }

    function PropagateFailure<U>(): Result<U, E>
      requires Err?
    {
      Err(error)
    }

    function Extract(): T
      requires Ok?
    {
      value
    }
  }

  function Abs(b: int): (r: nat)
    ensures r == b || r == -b
  {
    if b < 0 then -b else b
  }

  /** C++ `a % b` on `int`: truncating division, so the remainder has the sign of the dividend. */
  function CRem(a: int, b: int): (r: int)
    requires b != 0
    ensures a >= 0 ==> 0 <= r < Abs(b)
    ensures a < 0 ==> -(Abs(b) as int) < r <= 0
    ensures a >= 0 ==> r == a % Abs(b)
  {
    if a >= 0 then a % Abs(b) else -((-a) % Abs(b))
  }

  /** `static_cast<int>` of a floating value: truncation toward zero. */
  function Trunc(x: real): (r: int)
    ensures x >= 0.0 ==> r as real <= x < r as real + 1.0
    ensures x < 0.0 ==> r as real - 1.0 < x <= r as real
  {
    if x >= 0.0 then x.Floor else -((-x).Floor)
  }

  /** `std::round`: nearest integer, halfway cases away from zero. */
  function RoundHalfAway(x: real): (r: int)
    ensures x - 0.5 <= r as real <= x + 0.5
    ensures r as real == x + 0.5 ==> x > 0.0
    ensures r as real == x - 0.5 ==> x < 0.0
  {
    if x >= 0.0 then (x + 0.5).Floor else -((-x + 0.5).Floor)
  }

  // ---------------------------------------------------------------------------------------------
  // Exact quotients

  lemma ProductGrows(a: real, b: real, m: real)
    requires a > b && m > 0.0
    ensures a * m > b * m
  {
    assert (a - b) * m > 0.0;
  }

  /** Dividing by a positive number keeps the order: `x / m > c` exactly when `x > c * m`. */
  lemma QuotientAbove(x: real, m: real, c: real)
    requires m > 0.0
    ensures x / m > c <==> x > c * m
  {
    var q := x / m;
    assert x == q * m;
    if q > c {
      ProductGrows(q, c, m);
    } else if q < c {
      ProductGrows(c, q, m);
    }
  }

  /** Dividing by a negative number reverses it: `x / m > c` exactly when `x < c * m`. */
  lemma QuotientBelow(x: real, m: real, c: real)
    requires m < 0.0
    ensures x / m > c <==> x < c * m
  {
    QuotientAbove(-x, -m, c);
    assert (-x) / (-m) == x / m;
    assert c * (-m) == -(c * m);
  }
}
