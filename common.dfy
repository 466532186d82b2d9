/** Small helpers shared by the services: optional values and the JavaScript
    number functions (`Math.max`, `Math.abs`, `Math.ceil`, `Math.round`)
    that the services call, over exact reals. */
module Common {

  /** A nullable column or an optional request field. */
  datatype Option<+T> = None | Some(value: T)

  function Max(a: int, b: int): (m: int)
    ensures m >= a && m >= b
    ensures m == a || m == b
  {
    if a >= b then a else b
  }

  function Min(a: int, b: int): (m: int)
    ensures m <= a && m <= b
    ensures m == a || m == b
  {
    if a <= b then a else b
  }

  /** `Math.abs` */
  function Abs(x: real): (r: real)
    ensures r >= 0.0
    ensures r == x || r == -x
  {
    if x < 0.0 then -x else x
  }

  /** `Math.ceil`: the least integer not below `x`. */
  function Ceil(x: real): (c: int)
    ensures x <= c as real < x + 1.0
  {
    -((-x).Floor)
  }

  /** `Math.round`: rounds to the nearest integer, halves towards +infinity. */
  function Round(x: real): (r: int)
    ensures x - 0.5 < r as real <= x + 0.5
  {
    (x + 0.5).Floor
  }

  /** A part of a positive whole is between 0% and 100% of it. */
  lemma {:induction false} Ratio(part: real, whole: real)
    requires 0.0 <= part <= whole && whole != 0.0
    ensures 0.0 <= part / whole * 100.0 <= 100.0
  {
    assert part / whole <= 1.0 by {
      assert part / whole * whole == part;
    }
  }

  /** A percentage of a whole scales back to the part. */
  lemma {:induction false} Scaled(part: real, whole: real)
    requires whole != 0.0
    ensures part / whole * 100.0 * whole == part * 100.0
  {
    assert part / whole * whole == part;
  }

  /** Multiplying by a positive factor keeps a strict order. */
  lemma {:induction false} ScaleBelow(a: real, b: real, c: real)
    requires a < b && c > 0.0
    ensures a * c < b * c
  {
    assert b * c - a * c == (b - a) * c;
  }

  /** A positive part of a positive whole: a share in (0, 100] that scales
      back to the part. */
  lemma {:induction false} Share(part: real, whole: real)
    requires 0.0 < part <= whole
    ensures 0.0 < part / whole * 100.0 <= 100.0
    ensures part / whole * 100.0 * whole == part * 100.0
  {
    Ratio(part, whole);
    assert part / whole * whole == part;
  }

  /** Decimal rendering of a count, as a template literal shows it. */
  function NatToString(n: nat): (s: string)
    ensures |s| > 0
  {
    if n < 10 then [Digit(n)] else NatToString(n / 10) + [Digit(n % 10)]
  }

  function Digit(d: nat): (c: char)
    requires d < 10
    ensures '0' <= c <= '9'
  {
    "0123456789"[d]
  }

  /** `x.toFixed(2)`: a minus sign for a negative value, then the amount in
      whole cents, rounded half up, with a point before the last two digits. */
  function Fixed2(x: real): (s: string)
  {
    if x < 0.0 then "-" + WithPoint(Round(-x * 100.0), 2) else WithPoint(Round(x * 100.0), 2)
  }

  /** `n` in decimal with a point before its last `places` digits, which are
      kept even when they are zeros. */
  function WithPoint(n: nat, places: nat): (s: string)
    decreases places
  {
    if places == 0 then NatToString(n)
    else if places == 1 then NatToString(n / 10) + "." + [Digit(n % 10)]
    else WithPoint(n / 10, places - 1) + [Digit(n % 10)]
  }
}
