/** Values the other modules share. */
module Basics {

  datatype Option<T> = None | Some(value: T)

  datatype Result<+T, +E> = Ok(value: T) | Error(error: E)

  /** A floating-point number, exact when it is finite. */
  datatype Float = Finite(value: real) | NonFinite

  lemma Associates<T>(a: seq<T>, b: seq<T>, c: seq<T>)
    ensures a + b + c == a + (b + c)
  {
  }

  /** Multiplying by a positive number keeps the order. */
  lemma ScaledOrder(x: real, y: real, w: real)
    requires w > 0.0
    ensures x < y ==> x * w < y * w
    ensures x > y ==> x * w > y * w
  {
    if x < y {
      ScaledLess(x, y, w);
    } else if x > y {
      ScaledLess(y, x, w);
    }
  }

  lemma ScaledLess(x: real, y: real, w: real)
    requires w > 0.0 && x < y
    ensures x * w < y * w
  {
  }

  /** A quotient compares with a number as the dividend does with that many times the divisor. */
  lemma QuotientOrder(a: real, b: real, y: real)
    requires b > 0.0
    ensures a / b < y <==> a < y * b
    ensures a / b == y <==> a == y * b
  {
    QuotientTimes(a, b, a / b);
    ScaledOrder(a / b, y, b);
  }

  lemma QuotientTimes(a: real, b: real, x: real)
    requires b > 0.0 && x == a / b
    ensures x * b == a
  {
  }
}
