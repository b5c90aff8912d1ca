/** Types shared by the trading, alert and chart modules. */
module Common {

  datatype Option<T> = None | Some(value: T)

  datatype Result<T> = Ok(value: T) | Err(error: Error)

  /** The error paths of the alert stores (an HTTP 404 or a thrown `Error('Alert not found')`). */
  datatype Error = NotFound

  /** Direction of a trade: `'buy'` or `'sell'`. */
  datatype Direction = Buy | Sell

  /** A leverage as the order form offers it: a whole multiplier of at least 1. */
  type Leverage = l: int | l >= 1 witness 1

  /** The content of a numeric text field: `Blank` for an empty (or unparsable) entry,
      `Entered(v)` for text that `parseFloat` reads as `v`. */
  datatype Field = Blank | Entered(v: real)

  /** `field ? parseFloat(field) : null` on a text field. */
  function FieldValue(f: Field): Option<real>
  {
    match f
    case Blank => None
    case Entered(v) => Some(v)
  }

  /** A JavaScript number produced by a division: finite, one of the infinities, or NaN. */
  datatype Num = Finite(v: real) | PosInf | NegInf | NaN

  /** JavaScript's `a / b` on finite operands. */
  function Divide(a: real, b: real): (r: Num)
    ensures r.Finite? <==> b != 0.0
    ensures r.Finite? ==> r.v * b == a
    ensures r == NaN <==> a == 0.0 && b == 0.0
  {
    if b != 0.0 then Finite(a / b)
    else if a > 0.0 then PosInf
    else if a < 0.0 then NegInf
    else NaN
  }

  /** `n * 100` on a JavaScript number. */
  function Percent(n: Num): Num
  {
    match n
    case Finite(v) => Finite(v * 100.0)
    case _ => n
  }

  function Abs(x: real): real
  {
    if x < 0.0 then -x else x
  }

  function Max(a: real, b: real): real
  {
    if a >= b then a else b
  }

  function Min(a: real, b: real): real
  {
    if a <= b then a else b
  }

  /** `10^n`. */
  function Pow10(n: nat): (r: nat)
    ensures r >= 1
  {
    if n == 0 then 1 else 10 * Pow10(n - 1)
  }

  /** Decimal digits of a natural number, as `String(n)` writes it. */
  function NatToString(n: nat): (s: string)
    ensures |s| >= 1
    ensures forall i :: 0 <= i < |s| ==> '0' <= s[i] <= '9'
  {
    if n < 10 then [Digit(n)] else NatToString(n / 10) + [Digit(n % 10)]
  }

  function Digit(d: nat): (c: char)
    requires d < 10
    ensures '0' <= c <= '9'
  {
    ['0', '1', '2', '3', '4', '5', '6', '7', '8', '9'][d]
  }

  /** `haystack.includes(needle)` for strings. */
  predicate Contains(haystack: string, needle: string)
    decreases |haystack|
  {
    || (|needle| <= |haystack| && haystack[..|needle|] == needle)
    || (|haystack| > 0 && Contains(haystack[1..], needle))
  }
}
