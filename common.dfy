/** Small value types shared by every task module. */
module Common {

  /** A value that may be absent: a JSON `null`, a missing form field. */
  datatype Option<+T> = None | Some(value: T) {
    function GetOr(default: T): T {
      match this
      case Some(v) => v
      case None => default
    }
  }

  /** Either a value or the error condition the handler reports instead. */
  datatype Result<+T, +E> = Ok(value: T) | Err(error: E)

  /** The number of iterations of Python's `range(n)`: none at all for a negative `n`. */
  function RangeLen(n: int): (r: nat)
    ensures n >= 0 ==> r == n
    ensures n < 0 ==> r == 0
  {
    if n < 0 then 0 else n
  }

  /** `random.choice(xs)` with the oracle's draw `x`: always a member of `xs`. */
  function Choice<T>(xs: seq<T>, x: nat): (c: T)
    requires |xs| > 0
    ensures c in xs
  {
    xs[x % |xs|]
  }
}
