/** Failure-carrying return values, standing in for the exceptions the formatter raises. */
module Wrappers {

  /** A possibly absent value; `None` stands for a null reference. */
  datatype Option<+T> = None | Some(value: T)

  /** The value of an operation that either produces a result or raises an error. */
  datatype Result<+R, +E> = Success(value: R) | Failure(error: E)

  /** The completion of an operation that produces no value but may raise an error. */
  datatype Outcome<+E> = Pass | Fail(error: E)

  function Max(a: int, b: int): (m: int)
    ensures m >= a && m >= b && (m == a || m == b)
  {
    if a < b then b else a
  }

  function Min(a: int, b: int): (m: int)
    ensures m <= a && m <= b && (m == a || m == b)
  {
    if a < b then a else b
  }

  /** `n` copies of `s`, one after another. */
  function Repeat<T>(s: seq<T>, n: nat): (r: seq<T>)
    ensures |r| == n * |s|
  {
    if n == 0 then [] else s + Repeat(s, n - 1)
  }

  /** Appending one more copy at the end gives the same sequence as prepending it. */
  lemma {:induction false} RepeatSnoc<T>(s: seq<T>, n: nat)
    ensures Repeat(s, n) + s == Repeat(s, n + 1)
  {
    if n > 0 {
      calc {
        Repeat(s, n) + s;
        (s + Repeat(s, n - 1)) + s;
        s + (Repeat(s, n - 1) + s);
        { RepeatSnoc(s, n - 1); }
        s + Repeat(s, n);
      }
    }
  }
}
