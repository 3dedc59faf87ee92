/** Small shared vocabulary: an optional value and Go's integer semantics. */
module Basics {

  datatype Option<T> = None | Some(value: T)

  /** A value, or the message of the error that stopped its computation. */
  datatype Result<T> = Ok(value: T) | Err(message: string)

  /** `m[k]` of a Go `map[string]string` (or a URL query's `Get`): "" when absent. */
  function Param(m: map<string, string>, k: string): string {
    if k in m then m[k] else ""
  }

  /** The admin inbox: the address messages to and from the organisers use. */
  const AdminInbox: string := "admin@sudocrypt.com"

  const TwoTo63: int := 0x8000_0000_0000_0000
  const TwoTo64: int := 0x1_0000_0000_0000_0000

  predicate InInt64(x: int) {
    -TwoTo63 <= x < TwoTo63
  }

  /** Two's-complement wrap-around of Go's int64 arithmetic. */
  function WrapInt64(x: int): (r: int)
    ensures InInt64(r)
    ensures (r - x) % TwoTo64 == 0
    ensures InInt64(x) ==> r == x
  {
    (x + TwoTo63) % TwoTo64 - TwoTo63
  }

  /** Go's `/` by a positive divisor, which truncates toward zero. */
  function GoDiv(a: int, b: int): (q: int)
    requires b > 0
    ensures a >= 0 ==> 0 <= q * b <= a < q * b + b
    ensures a < 0 ==> q * b - b < a <= q * b <= 0
  {
    DivBounds(if a >= 0 then a else -a, b);
    if a >= 0 then a / b else -((-a) / b)
  }

  lemma DivBounds(a: int, b: int)
    requires a >= 0 && b > 0
    ensures 0 <= (a / b) * b <= a < (a / b) * b + b
    ensures (-(a / b)) * b == -((a / b) * b)
  {
    assert a == (a / b) * b + a % b;
  }

  /** Go's `%` by a positive divisor: the remainder takes the sign of the
      dividend, so it differs from Dafny's `%` on negative dividends. */
  function GoMod(a: int, b: int): (r: int)
    requires b > 0
    ensures a == GoDiv(a, b) * b + r
    ensures a >= 0 ==> 0 <= r < b
    ensures a < 0 ==> -b < r <= 0
  {
    a - GoDiv(a, b) * b
  }

  /** Go's conversion `int(f)` of a float to an integer: truncation toward zero. */
  function Trunc(f: real): (n: int)
    ensures f >= 0.0 ==> n as real <= f < n as real + 1.0
    ensures f < 0.0 ==> n as real - 1.0 < f <= n as real
  {
    if f >= 0.0 then f.Floor else -((-f).Floor)
  }
}
