/** When finite decimals are exact: 18 places in the database, 50 significant digits in between. */
module DecimalRules {
  import opened Types

  function Pow10(d: nat): (p: int)
    ensures p >= 1
  {
    if d == 0 then 1 else 10 * Pow10(d - 1)
  }

  predicate IsWhole(x: real) {
    x.Floor as real == x
  }

  /** `x` written with `d` decimal places. */
  predicate Places(x: real, d: nat) {
    IsWhole(Notional(x, Pow10(d) as real))
  }

  /** The scale of the NUMERIC(36,18) columns. */
  const NUMERIC_SCALE: nat := 18
  const NUMERIC_INTEGER_DIGITS: nat := 18
  const PRECISION: nat := 50

  /** Writes to the database unrounded, up to size. */
  predicate Exact(x: real) {
    Places(x, NUMERIC_SCALE)
  }

  predicate Steps(x: real, k: int, step: real) {
    x == Notional(k as real, step)
  }

  /** A whole number of steps. */
  ghost predicate Multiple(x: real, step: real) {
    exists k :: Steps(x, k, step)
  }

  // ---------------------------------------------------------------------------
  // Products and sums
  // ---------------------------------------------------------------------------

  lemma {:induction false} Pow10Sum(a: nat, b: nat)
    ensures Pow10(a + b) == Pow10(a) * Pow10(b)
  {
    if a > 0 {
      Pow10Sum(a - 1, b);
      assert Pow10(a + b) == 10 * Pow10(a - 1 + b);
    }
  }

  lemma NotionalLaws(x: real, y: real, z: real)
    ensures Notional(x + y, z) == Notional(x, z) + Notional(y, z)
    ensures Notional(x - y, z) == Notional(x, z) - Notional(y, z)
    ensures Notional(Notional(x, y), z) == Notional(x, Notional(y, z))
    ensures Notional(x, y) == Notional(y, x)
  {
    assert (x * y) * z == x * (y * z);
  }

  lemma Shuffle(x: real, y: real, p: real, q: real)
    ensures Notional(Notional(x, y), Notional(p, q)) == Notional(Notional(x, p), Notional(y, q))
  {
    assert (x * y) * (p * q) == (x * p) * (y * q);
  }

  lemma WholeProduct(a: int, b: int)
    ensures Notional(a as real, b as real) == (a * b) as real
  {
  }

  /** The places of a product add up. */
  lemma PlacesProduct(x: real, dx: nat, y: real, dy: nat)
    requires Places(x, dx) && Places(y, dy)
    ensures Places(Notional(x, y), dx + dy)
  {
    var p, q := Pow10(dx) as real, Pow10(dy) as real;
    var a, b := Notional(x, p).Floor, Notional(y, q).Floor;
    hide Notional;
    Pow10Sum(dx, dy);
    WholeProduct(Pow10(dx), Pow10(dy));
    WholeProduct(a, b);
    Shuffle(x, y, p, q);
    assert Notional(Notional(x, y), Pow10(dx + dy) as real) == (a * b) as real;
  }

  lemma PlacesSum(x: real, y: real, d: nat)
    requires Places(x, d) && Places(y, d)
    ensures Places(x + y, d) && Places(x - y, d)
  {
    var p := Pow10(d) as real;
    var a, b := Notional(x, p).Floor, Notional(y, p).Floor;
    NotionalLaws(x, y, p);
    hide Notional;
    assert Notional(x + y, p) == (a + b) as real;
    assert Notional(x - y, p) == (a - b) as real;
  }

  lemma PlacesMore(x: real, d: nat, e: nat)
    requires Places(x, d) && d <= e
    ensures Places(x, e)
  {
    One(x);
    PlacesProduct(x, d, 1.0, e - d) by { WholePlaces(1, e - d); }
  }

  lemma One(x: real)
    ensures Notional(x, 1.0) == x
  {
  }

  lemma WholePlaces(k: int, d: nat)
    ensures Places(k as real, d)
  {
    WholeProduct(k, Pow10(d));
  }

  // ---------------------------------------------------------------------------
  // Multiples of a step
  // ---------------------------------------------------------------------------

  lemma MultipleSum(x: real, y: real, step: real)
    requires Multiple(x, step) && Multiple(y, step)
    ensures Multiple(x + y, step) && Multiple(x - y, step)
  {
    var a :| Steps(x, a, step);
    var b :| Steps(y, b, step);
    NotionalLaws(a as real, b as real, step);
    hide Notional;
    assert Steps(x + y, a + b, step) && Steps(x - y, a - b, step);
  }

  lemma MultipleZero(step: real)
    ensures Multiple(0.0, step)
  {
    assert Steps(0.0, 0, step);
  }

  /** A multiple of a step of `d` places has `d` places. */
  lemma MultiplePlaces(x: real, step: real, d: nat)
    requires Multiple(x, step) && Places(step, d)
    ensures Places(x, d)
  {
    var k :| Steps(x, k, step);
    WholePlaces(k, 0);
    PlacesProduct(k as real, 0, step, d);
  }

  // ---------------------------------------------------------------------------
  // Rounding
  // ---------------------------------------------------------------------------

  /** Half-up rounding at `d` places, by magnitude. */
  ghost function Rounded(x: real, d: nat): real {
    var p := Pow10(d) as real;
    if x >= 0.0 then (Notional(x, p) + 0.5).Floor as real / p
    else -((Notional(-x, p) + 0.5).Floor as real / p)
  }

  /** What a NUMERIC(36,18) column keeps of `x`: rounded to 18 places, if 18 integer digits hold it. */
  ghost function Stored(x: real): Option<real> {
    var r := Rounded(x, NUMERIC_SCALE);
    if -(Pow10(NUMERIC_INTEGER_DIGITS) as real) < r < Pow10(NUMERIC_INTEGER_DIGITS) as real then Some(r) else None
  }

  /** `x` has `d` places and, read without its point, at most 50 digits. */
  predicate HasCoefficient(x: real, d: nat) {
    Places(x, d) && -(Pow10(PRECISION) as real) < Notional(x, Pow10(d) as real) < Pow10(PRECISION) as real
  }

  /** Correctly rounded arithmetic in 50 digits returns `x` as it is. */
  ghost predicate FitsPrecision(x: real) {
    exists d :: HasCoefficient(x, d)
  }

  lemma RoundingKeeps(x: real, d: nat)
    requires Places(x, d)
    ensures Rounded(x, d) == x
  {
    var p := Pow10(d) as real;
    var k := Notional(x, p).Floor;
    assert Notional(-x, p) == (-k) as real;
    assert (k as real + 0.5).Floor == k && ((-k) as real + 0.5).Floor == -k;
    assert k as real / p == x;
    assert (-k) as real / p == -x;
  }

  lemma ScaledBound(x: real, p: real, bound: real)
    requires p > 0.0 && -bound < x < bound
    ensures -Notional(bound, p) < Notional(x, p) < Notional(bound, p)
  {
    assert (bound - x) * p > 0.0 && (bound + x) * p > 0.0;
  }

  lemma {:induction false} Pow10Monotone(a: nat, b: nat)
    requires a <= b
    ensures Pow10(a) <= Pow10(b)
    decreases b
  {
    if a < b {
      Pow10Monotone(a, b - 1);
    }
  }

  /** An exact value below 10^18 passes through the library and the database unrounded. */
  lemma ExactIsUnrounded(x: real)
    requires Exact(x) && -(Pow10(NUMERIC_INTEGER_DIGITS) as real) < x < Pow10(NUMERIC_INTEGER_DIGITS) as real
    ensures Stored(x) == Some(x) && FitsPrecision(x)
  {
    RoundingKeeps(x, NUMERIC_SCALE);
    var p := Pow10(NUMERIC_SCALE) as real;
    assert HasCoefficient(x, NUMERIC_SCALE) by {
      hide Notional, Pow10;
      ScaledBound(x, p, Pow10(NUMERIC_INTEGER_DIGITS) as real);
      WholeProduct(Pow10(NUMERIC_INTEGER_DIGITS), Pow10(NUMERIC_SCALE));
      Pow10Sum(NUMERIC_INTEGER_DIGITS, NUMERIC_SCALE);
      Pow10Monotone(NUMERIC_INTEGER_DIGITS + NUMERIC_SCALE, PRECISION);
    }
  }
}
