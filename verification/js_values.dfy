/** The values the three calculators compute with: the text of a numeric
    input box as `parseFloat`/`parseInt` see it, the `x || d` default idiom,
    `toFixed(2)` rounding, and the few JavaScript numbers (NaN, Infinity)
    that can reach a result. Arithmetic is exact, over `real`. */
module JsValues {

  datatype Option<+T> = None | Some(value: T)

  /** The text of an input box, abstracted to what the number parsers see. */
  datatype Text =
    | Blank             // the empty string (falsy)
    | Numeric(v: real)  // text that starts with a decimal number
    | Garbage           // non-empty text that does not start with a number

  /** `parseFloat(t)`, with None standing for NaN. */
  function ParseFloat(t: Text): Option<real> {
    if t.Numeric? then Some(t.v) else None
  }

  /** Truncation toward zero: what `parseInt` keeps of a decimal number. */
  function Trunc(v: real): (n: int)
    ensures 0.0 <= v ==> 0.0 <= n as real <= v < n as real + 1.0
    ensures v < 0.0 ==> n as real - 1.0 < v <= n as real <= 0.0
  {
    if v >= 0.0 then v.Floor else -((-v).Floor)
  }

  /** `parseInt(t)`, with None standing for NaN. */
  function ParseInt(t: Text): Option<int> {
    if t.Numeric? then Some(Trunc(t.v)) else None
  }

  /** `x || d` on a parsed number: NaN and 0 are both falsy, so either
      yields the default. A non-zero default therefore never yields 0. */
  function OrDefault(x: Option<real>, d: real): (r: real)
    ensures x.Some? && x.value != 0.0 ==> r == x.value
    ensures x.None? || x.value == 0.0 ==> r == d
    ensures d != 0.0 ==> r != 0.0
  {
    if x.Some? && x.value != 0.0 then x.value else d
  }

  /** The whole number of cents `toFixed(2)` picks for `x`: the nearest
      one, with a value exactly halfway rounded away from zero. */
  function Cents(x: real): (n: int)
    ensures 0.0 <= x ==> n as real - 0.5 <= x * 100.0 < n as real + 0.5
    ensures x < 0.0 ==> n as real - 0.5 < x * 100.0 <= n as real + 0.5
  {
    if x >= 0.0 then (x * 100.0 + 0.5).Floor else -((-x * 100.0 + 0.5).Floor)
  }

  /** `parseFloat(x.toFixed(2))` over exact reals: a whole number of cents,
      within half a cent of `x`, with the sign of `x`. */
  function Round2(x: real): (r: real)
    ensures r * 100.0 == Cents(x) as real
    ensures -0.005 <= r - x <= 0.005
    ensures 0.0 <= x ==> 0.0 <= r
    ensures x <= 0.0 ==> r <= 0.0
  {
    Cents(x) as real / 100.0
  }

  /** Rounding to cents never reverses the order of two values. */
  lemma Round2Monotone(x: real, y: real)
    requires x <= y
    ensures Round2(x) <= Round2(y)
  {
    assert Cents(x) <= Cents(y);
  }

  /** A JavaScript number a calculator can produce: a finite value, NaN, or
      an infinity (its sign is not tracked). */
  datatype Num = Finite(v: real) | NaN | Infinity

  /** `a * c` for a finite `c`. */
  function Times(a: Num, c: real): Num {
    match a
    case Finite(v) => Finite(v * c)
    case NaN => NaN
    case Infinity => if c == 0.0 then NaN else Infinity
  }

  /** `a - c` for a finite `c`. */
  function Minus(a: Num, c: real): Num {
    match a
    case Finite(v) => Finite(v - c)
    case NaN => NaN
    case Infinity => Infinity
  }

  /** `a / d` for a finite `d`: dividing by zero gives an infinity, or NaN
      when the dividend is zero or NaN as well. */
  function Divide(a: Num, d: real): (r: Num)
    ensures d != 0.0 && a.Finite? ==> r.Finite? && r.v * d == a.v
    ensures d == 0.0 ==> !r.Finite?
    ensures d == 0.0 && a.Finite? ==> (r.NaN? <==> a.v == 0.0)
    ensures a.NaN? ==> r.NaN?
  {
    match a
    case Finite(v) => if d != 0.0 then Finite(v / d) else if v == 0.0 then NaN else Infinity
    case NaN => NaN
    case Infinity => Infinity
  }
}
