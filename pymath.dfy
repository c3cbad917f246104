/** The numeric primitives of Python and numpy that the robot code relies on, over exact reals:
    `np.pi`, `math.radians`, `round` (half to even), `int()` on a float (truncation toward zero)
    and `%` with a positive divisor (floored remainder). */
module PyMath {

  /** `np.pi` as Python prints it: the shortest decimal that reads back as that double. */
  const PI: real := 3.141592653589793

  function Abs(x: real): (r: real)
    ensures r >= 0.0 && (r == x || r == -x)
  {
    if x < 0.0 then -x else x
  }

  /** `math.radians` / `np.radians`. */
  function Radians(deg: real): (r: real)
    ensures deg > 0.0 ==> r > 0.0
    ensures deg < 0.0 ==> r < 0.0
    ensures deg == 0.0 ==> r == 0.0
  {
    deg * PI / 180.0
  }

  /** Python's built-in `round` on a float: the nearest integer, ties going to the even one. */
  function Round(x: real): (r: int)
    ensures x - 0.5 <= r as real <= x + 0.5
    ensures (r as real == x - 0.5 || r as real == x + 0.5) ==> r % 2 == 0
  {
    var f := x.Floor;
    var d := x - f as real;
    if d < 0.5 then f
    else if d > 0.5 then f + 1
    else if f % 2 == 0 then f else f + 1
  }

  /** The two properties in Round's contract determine its result: any integer within one half of
      `x` that is even whenever it lies exactly one half away is Round(x). */
  lemma {:induction false} RoundIsUnique(x: real, n: int)
    requires x - 0.5 <= n as real <= x + 0.5
    requires (n as real == x - 0.5 || n as real == x + 0.5) ==> n % 2 == 0
    ensures Round(x) == n
  {
  }

  /** `int(x)` on a float: drops the fractional part, rounding toward zero. */
  function Trunc(x: real): (r: int)
    ensures x >= 0.0 ==> 0 <= r && r as real <= x < r as real + 1.0
    ensures x < 0.0 ==> r <= 0 && r as real - 1.0 < x <= r as real
  {
    if x >= 0.0 then x.Floor else -((-x).Floor)
  }

  /** Python's `x % m` for a positive divisor: the remainder of floored division, in [0, m). */
  function FloorMod(x: real, m: real): (r: real)
    requires m > 0.0
    ensures 0.0 <= r < m
  {
    var q := (x / m).Floor;
    FloorModBounds(x, m, q);
    x - m * (q as real)
  }

  lemma FloorModBounds(x: real, m: real, q: int)
    requires m > 0.0 && q == (x / m).Floor
    ensures 0.0 <= x - m * (q as real) < m
  {
    var y := x / m;
    var qr := q as real;
    MulDivCancel(x, m);
    assert y < qr + 1.0;
    MulLtMono(m, y, qr + 1.0);
    assert x < m * (qr + 1.0);
    MulAddOne(m, qr);
    MulLeMono(m, qr, y);
  }

  lemma MulDivCancel(x: real, m: real)
    requires m > 0.0
    ensures m * (x / m) == x
  {
  }

  lemma DivMulCancel(m: real, b: real)
    requires m > 0.0
    ensures (m * b) / m == b
  {
  }

  lemma MulAddOne(m: real, a: real)
    ensures m * (a + 1.0) == m * a + m
  {
  }

  lemma MulLeMono(m: real, a: real, b: real)
    requires m > 0.0 && a <= b
    ensures m * a <= m * b
  {
  }

  lemma MulLtMono(m: real, a: real, b: real)
    requires m > 0.0 && a < b
    ensures m * a < m * b
  {
  }

  lemma MulLtCancel(m: real, a: real, b: real)
    requires m > 0.0 && m * a < m * b
    ensures a < b
  {
  }

  lemma MulLeCancel(m: real, a: real, b: real)
    requires m > 0.0 && m * a <= m * b
    ensures a <= b
  {
  }

  /** x - FloorMod(x, m) is a whole multiple of m. */
  lemma {:induction false} FloorModCongruent(x: real, m: real)
    requires m > 0.0
    ensures (x - FloorMod(x, m)) / m == (x / m).Floor as real
  {
    var q := (x / m).Floor;
    assert x - FloorMod(x, m) == m * (q as real);
  }

  /** Adding the divisor does not change the remainder. */
  lemma {:induction false} FloorModPeriodic(x: real, m: real)
    requires m > 0.0
    ensures FloorMod(x + m, m) == FloorMod(x, m)
  {
    var y := x / m;
    MulDivCancel(x, m);
    var z := y + 1.0;
    MulAddOne(m, y);
    assert x + m == m * z;
    DivMulCancel(m, z);
    assert (x + m) / m == (m * z) / m;
    assert ((x + m) / m).Floor == y.Floor + 1;
  }

  /** On [0, m) the remainder is the identity. */
  lemma {:induction false} FloorModIdentity(x: real, m: real)
    requires m > 0.0 && 0.0 <= x < m
    ensures FloorMod(x, m) == x
  {
    var y := x / m;
    MulDivCancel(x, m);
    MulLtCancel(m, y, 1.0);
    MulLeCancel(m, 0.0, y);
    assert y.Floor == 0;
  }
}
