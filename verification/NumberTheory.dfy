/** Greatest common divisors and the residues a stride reaches. */
module NumberTheory {

  function Gcd(a: nat, b: nat): (g: nat)
    requires a > 0 || b > 0
    ensures g > 0
    decreases b
  {
    if b == 0 then a else Gcd(b, a % b)
  }

  lemma {:induction false} GcdDivides(a: nat, b: nat) returns (p: nat, q: nat)
    requires a > 0 || b > 0
    ensures a == Gcd(a, b) * p && b == Gcd(a, b) * q
    decreases b
  {
    if b == 0 {
      p, q := 1, 0;
    } else {
      var p', q' := GcdDivides(b, a % b);
      var g := Gcd(a, b);
      q := p';
      p := (a / b) * p' + q';
      assert a == b * (a / b) + a % b;
      Distribute(g, (a / b) * p', q');
      Reassociate(g, p', a / b);
    }
  }

  lemma Distribute(g: int, x: int, y: int)
    ensures g * (x + y) == g * x + g * y
  {}

  lemma Reassociate(g: int, x: int, y: int)
    ensures g * (y * x) == (g * x) * y
  {}

  lemma {:induction false} Bezout(a: nat, b: nat) returns (x: int, y: int)
    requires a > 0 || b > 0
    ensures a * x + b * y == Gcd(a, b)
    decreases b
  {
    if b == 0 {
      x, y := 1, 0;
    } else {
      var x', y' := Bezout(b, a % b);
      x, y := y', x' - (a / b) * y';
      var q, r := a / b, a % b;
      assert a == b * q + r;
      calc {
        a * x + b * y;
        (b * q + r) * y' + b * (x' - q * y');
        { Expand(b, q, r, x', y'); }
        b * x' + r * y';
      }
    }
  }

  lemma Expand(b: int, q: int, r: int, x: int, y: int)
    ensures (b * q + r) * y + b * (x - q * y) == b * x + r * y
  {
    assert (b * q + r) * y == b * q * y + r * y;
    assert b * (x - q * y) == b * x - b * (q * y);
    assert b * q * y == b * (q * y);
  }

  /** A remainder is not changed by whole multiples of the modulus. */
  lemma ModPlusMultiple(x: int, m: nat, k: int)
    requires m > 0
    ensures (x + m * k) % m == x % m
  {
    var q, r := x / m, x % m;
    assert x == m * q + r;
    Distribute(m, q, k);
    UniqueRemainder(x + m * k, m, q + k, r);
  }

  lemma UniqueRemainder(n: int, m: nat, q: int, r: int)
    requires m > 0 && 0 <= r < m && n == m * q + r
    ensures n % m == r && n / m == q
  {
    var q', r' := n / m, n % m;
    assert n == m * q' + r';
    assert m * (q - q') == r' - r;
    MultipleIsFar(m, q - q');
  }

  lemma MultipleIsFar(m: int, d: int)
    requires m > 0
    ensures d >= 1 ==> m * d >= m
    ensures d <= -1 ==> m * d <= -m
  {}

  lemma ModAddLeft(x: int, y: int, m: nat)
    requires m > 0
    ensures (x % m + y) % m == (x + y) % m
  {
    ModPlusMultiple(x % m + y, m, x / m);
    assert x == m * (x / m) + x % m;
  }

  /** Equal remainders differ by a multiple, and the other way round. */
  lemma SameRemainder(x: int, y: int, m: nat) returns (k: int)
    requires m > 0 && x % m == y % m
    ensures x - y == m * k
  {
    k := x / m - y / m;
    assert x == m * (x / m) + x % m && y == m * (y / m) + y % m;
    assert m * k == m * (x / m) - m * (y / m);
  }

  // ---- The cells a stride walks through

  /** Where `i` steps of `stride` from `home` end on a ring of `cells`. */
  function Orbit(home: nat, stride: nat, cells: nat, i: nat): (c: nat)
    requires cells > 0
    ensures c < cells
  {
    (home + i * stride) % cells
  }

  lemma OrbitStep(home: nat, stride: nat, cells: nat, i: nat)
    requires cells > 0
    ensures (Orbit(home, stride, cells, i) + stride) % cells == Orbit(home, stride, cells, i + 1)
  {
    ModAddLeft(home + i * stride, stride, cells);
    assert home + i * stride + stride == home + (i + 1) * stride;
  }

  lemma OrbitReturns(home: nat, stride: nat, cells: nat)
    requires home < cells
    ensures Orbit(home, stride, cells, cells) == home
  {
    ModPlusMultiple(home, cells, stride);
  }

  lemma RemainderByParts(x: nat, m: nat)
    requires m > 0
    ensures x % m == x - m * (x / m)
  {}

  /** Every cell on the walk is congruent to the starting cell. */
  lemma OrbitStaysCongruent(home: nat, stride: nat, cells: nat, i: nat)
    requires cells > 0
    ensures Orbit(home, stride, cells, i) % Gcd(stride, cells) == home % Gcd(stride, cells)
  {
    var p, q := GcdDivides(stride, cells);
    CongruentByParts(home, stride, cells, i, Gcd(stride, cells), p, q);
  }

  lemma CongruentByParts(home: nat, stride: nat, cells: nat, i: nat, g: nat, p: nat, q: nat)
    requires cells > 0 && g > 0 && stride == g * p && cells == g * q
    ensures Orbit(home, stride, cells, i) % g == home % g
  {
    var t := (home + i * stride) / cells;
    RemainderByParts(home + i * stride, cells);
    CommonFactor(g, home, i, p, q, t);
    ModPlusMultiple(home, g, i * p - q * t);
  }

  lemma CommonFactor(g: int, home: int, i: int, p: int, q: int, t: int)
    ensures home + i * (g * p) - (g * q) * t == home + g * (i * p - q * t)
  {
    Reassociate(g, p, i);
    Distribute(g, i * p, -(q * t));
    assert i * (g * p) == g * (i * p);
    assert (g * q) * t == g * (q * t);
  }

  /** Every cell congruent to the starting cell is on the walk, within one lap. */
  lemma OrbitReaches(home: nat, stride: nat, cells: nat, target: nat) returns (i: nat)
    requires home < cells && target < cells
    requires target % Gcd(stride, cells) == home % Gcd(stride, cells)
    ensures i < cells && Orbit(home, stride, cells, i) == target
  {
    var m := SameRemainder(target, home, Gcd(stride, cells));
    var x, y := Bezout(stride, cells);
    var steps := x * m;
    i := steps % cells;
    var q := steps / cells;
    CombineSteps(home, target, stride, cells, x, y, m, q, i);
    OrbitByEquation(home, target, stride, cells, i, -(y * m) - stride * q);
  }

  lemma OrbitByEquation(home: nat, target: nat, stride: nat, cells: nat, i: nat, k: int)
    requires target < cells && home + i * stride == target + cells * k
    ensures Orbit(home, stride, cells, i) == target
  {
    UniqueRemainder(home + i * stride, cells, k, target);
  }

  lemma CombineSteps(home: int, target: int, s: int, c: int, x: int, y: int, m: int, q: int, i: int)
    requires target - home == (s * x + c * y) * m
    requires x * m == c * q + i
    ensures home + i * s == target + c * (-(y * m) - s * q)
  {
    StrideTimesMultiplier(s, c, x, y, m);
    LapsCancel(s, c, q, i, y * m);
  }

  lemma StrideTimesMultiplier(s: int, c: int, x: int, y: int, m: int)
    ensures (s * x + c * y) * m == s * (x * m) + c * (y * m)
  {
    assert (s * x + c * y) * m == s * x * m + c * y * m;
    Reassociate(s, m, x);
    Reassociate(c, m, y);
  }

  lemma LapsCancel(s: int, c: int, q: int, i: int, z: int)
    ensures s * (c * q + i) + c * z == i * s - c * (-z - s * q)
  {
    Distribute(s, c * q, i);
    Distribute(c, -z, -(s * q));
    assert s * (c * q) == c * (s * q);
  }
}
