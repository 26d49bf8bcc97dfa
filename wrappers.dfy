/**
 * The optional value that Python code expresses with `None`, and the
 * outcome of an operation that may raise.
 */
module Wrappers {

  datatype Option<+T> = None | Some(value: T) {

    function GetOr(default: T): T {
      match this
      case Some(v) => v
      case None => default
    }
  }

  datatype Result<+T, +E> = Success(value: T) | Failure(error: E)

  /** An item that is there only when its condition holds (`if b: out.append(x)`). */
  function When<T>(b: bool, x: T): (r: seq<T>)
    ensures |r| == (if b then 1 else 0)
    ensures b ==> r[0] == x
  {
    if b then [x] else []
  }

  /** What is there is the item, and only when its condition holds. */
  lemma WhenHolds<T>(b: bool, x: T, y: T)
    ensures y in When(b, x) <==> b && y == x
  {
    if b {
      assert When(b, x) == [x];
    }
  }
}
