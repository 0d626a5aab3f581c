/** Whole-number arithmetic used in more than one place: multiples, remainders, common divisors, powers of ten. */
module Arithmetic {

  // ── Multiples and remainders ──

  lemma MultipleIsLarge(k: int, c: int)
    requires c > 0
    ensures k >= 1 ==> k * c >= c
    ensures k <= -1 ==> k * c <= -c
  {
  }

  lemma ProductGrows(a: int, b: int, c: int)
    requires a <= b && 0 <= c
    ensures a * c <= b * c
  {
  }

  lemma ModUnique(n: int, c: int, q: int, r: nat)
    requires n == q * c + r && r < c
    ensures n % c == r && n / c == q
  {
    MultipleIsLarge(n / c - q, c);
    assert (n / c - q) * c == r - n % c;
  }

  lemma MultipleHasNoRemainder(a: int, b: int)
    requires b > 0
    ensures a * b % b == 0 && a * b / b == a
  {
    ModUnique(a * b, b, a, 0);
  }

  lemma CancelMultiple(g: int, a: int, b: int)
    requires g > 0 && g * a == g * b
    ensures a == b
  {
    MultipleIsLarge(a - b, g);
    assert g * a - g * b == (a - b) * g;
  }

  lemma FactorOfOne(g: nat, h: int)
    requires g * h == 1
    ensures g == 1
  {
    if g > 1 {
      MultipleIsLarge(h, g);
    }
  }

  /** Largest multiple of a step up to `s`. */
  function LastMultiple(s: nat, step: nat): (t: nat)
    requires step > 0
    ensures t <= s && t % step == 0
  {
    MultipleHasNoRemainder(s / step, step);
    s / step * step
  }

  lemma LastMultipleIsLast(s: nat, step: nat, t: nat)
    requires step > 0 && t % step == 0 && t <= s
    ensures t <= LastMultiple(s, step)
  {
    var a, b := t / step, s / step;
    assert t == a * step;
    MultipleIsLarge(a - b, step);
    assert a * step - b * step == (a - b) * step;
  }

  // ── Greatest common divisor ──

  function Gcd(a: nat, b: nat): (g: nat)
    requires a > 0 || b > 0
    ensures g > 0
    decreases b
  {
    if b == 0 then a else Gcd(b, a % b)
  }

  lemma {:induction false} GcdDivides(a: nat, b: nat) returns (i: nat, j: nat)
    requires a > 0 || b > 0
    ensures a == Gcd(a, b) * i && b == Gcd(a, b) * j
    decreases b
  {
    if b == 0 {
      i, j := 1, 0;
    } else {
      var k, l := GcdDivides(b, a % b);
      DividendOf(Gcd(b, a % b), a, b, a / b, a % b, k, l);
      i, j := a / b * k + l, k;
    }
  }

  lemma DividendOf(g: nat, a: nat, b: nat, q: nat, r: nat, k: nat, l: nat)
    requires a == q * b + r && b == g * k && r == g * l
    ensures a == g * (q * k + l)
  {
    assert q * (g * k) + g * l == g * (q * k + l);
  }

  lemma {:induction false} Bezout(a: nat, b: nat) returns (x: int, y: int)
    requires a > 0 || b > 0
    ensures a * x + b * y == Gcd(a, b)
    decreases b
  {
    if b == 0 {
      x, y := 1, 0;
    } else {
      var q, r := a / b, a % b;
      var v, w := Bezout(b, r);
      x, y := w, v - q * w;
      assert a == q * b + r;
      RegroupBezout(b, q, r, v, w);
    }
  }

  lemma RegroupBezout(b: int, q: int, r: int, v: int, w: int)
    ensures (q * b + r) * w + b * (v - q * w) == b * v + r * w
  {
  }

  /** A common divisor and what is left of both numbers without it. */
  lemma Reduced(p: nat, scale: nat) returns (i: nat, d: nat)
    requires scale > 0
    ensures p == Gcd(p, scale) * i && scale == Gcd(p, scale) * d
    ensures d > 0 && scale / Gcd(p, scale) == d
  {
    var g := Gcd(p, scale);
    i, d := GcdDivides(p, scale);
    assert g * d == d * g;
    MultipleHasNoRemainder(d, g);
  }

  /** `scale` divides `p * s` exactly if what is left of it without the common factor divides `s`. */
  lemma DividesProductExactly(p: nat, scale: nat, s: nat)
    requires scale > 0
    ensures scale / Gcd(p, scale) > 0
    ensures p * s % scale == 0 <==> s % (scale / Gcd(p, scale)) == 0
  {
    var i, d := Reduced(p, scale);
    if s % d == 0 {
      StepsDivide(p, scale, s, Gcd(p, scale), i, d);
    }
    if p * s % scale == 0 {
      OnlyStepsDivide(p, scale, s, Gcd(p, scale), d);
    }
  }

  lemma StepsDivide(p: nat, scale: nat, s: nat, g: nat, i: nat, d: nat)
    requires scale > 0 && d > 0 && p == g * i && scale == g * d && s % d == 0
    ensures p * s % scale == 0
  {
    var q := s / d;
    assert s == d * q;
    ProductOfFactors(g, i, d, q);
    MultipleHasNoRemainder(i * q, scale);
  }

  lemma OnlyStepsDivide(p: nat, scale: nat, s: nat, g: nat, d: nat)
    requires scale > 0 && d > 0 && g == Gcd(p, scale) && scale == g * d && p * s % scale == 0
    ensures s % d == 0
  {
    var x, y := Bezout(p, scale);
    var q := p * s / scale;
    assert p * s == scale * q;
    FactorFromBezout(g, d, p, scale, s, x, y, q);
    MultipleHasNoRemainder(q * x + y * s, d);
  }

  lemma ProductOfFactors(g: int, i: int, d: int, q: int)
    ensures g * i * (d * q) == i * q * (g * d)
  {
  }

  lemma FactorFromBezout(g: int, d: int, p: int, scale: int, s: int, x: int, y: int, q: int)
    requires g > 0 && p * x + scale * y == g && scale == g * d && p * s == scale * q
    ensures s == (q * x + y * s) * d
  {
    assert (p * x + scale * y) * s == p * s * x + scale * (y * s);
    assert scale * q * x + scale * (y * s) == g * ((q * x + y * s) * d);
    CancelMultiple(g, s, (q * x + y * s) * d);
  }

  // ── Powers of ten ──

  function Pow10(k: nat): (n: nat)
    ensures n >= 1
  {
    if k == 0 then 1 else 10 * Pow10(k - 1)
  }

  lemma {:induction false} Pow10Splits(j: nat, k: nat)
    requires j <= k
    ensures Pow10(k) == Pow10(j) * Pow10(k - j)
    decreases k
  {
    if j < k {
      Pow10Splits(j, k - 1);
    }
  }

  lemma {:induction false} Pow10Grows(k: nat, n: nat)
    requires k <= n
    ensures Pow10(k) <= Pow10(n)
    decreases n
  {
    if k < n {
      Pow10Grows(k, n - 1);
    }
  }

  lemma {:induction false} Pow10LeavesOne(k: nat) returns (q: nat)
    ensures Pow10(k) == 3 * q + 1
  {
    if k == 0 {
      q := 0;
    } else {
      var r := Pow10LeavesOne(k - 1);
      q := 10 * r + 3;
    }
  }
}
