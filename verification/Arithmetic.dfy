/** Facts about multiples, quotients and remainders shared by the index computations. */
module Arithmetic {

  function Min(a: int, b: int): int { if a <= b then a else b }

  lemma StepsBelow(i: nat, n: nat, q: nat)
    requires i < n
    ensures (i + 1) * q == i * q + q && (i + 1) * q <= n * q
  {
    assert n * q == (i + 1) * q + (n - (i + 1)) * q;
  }

  lemma OnlyZeroBetween(k: int, g: int)
    requires g > 0
    ensures k >= 1 ==> k * g >= g
    ensures k <= -1 ==> k * g <= -g
  {
  }

  lemma DivMod(q: int, g: int, o: int)
    requires 0 <= o < g
    ensures (q * g + o) / g == q && (q * g + o) % g == o
  {
    var x := q * g + o;
    var k := q - x / g;
    assert k * g == q * g - (x / g) * g;
    OnlyZeroBetween(k, g);
  }

  lemma DivBelow(i: int, n: int, g: int)
    requires 0 <= i < n * g && g > 0
    ensures 0 <= i / g < n && 0 <= i % g < g && (i / g) * g + i % g == i
  {
    var k := i / g - n;
    assert k * g == (i / g) * g - n * g;
    OnlyZeroBetween(k + 1, g);
    assert (k + 1) * g == k * g + g;
  }

  lemma MultipleOf(n: nat, g: nat)
    requires n > 0
    ensures (n * g) % n == 0 && (n * g) / n == g
  {
    DivMod(g, n, 0);
  }

  lemma BlockBelow(r: nat, n: nat, g: nat, o: nat)
    requires r < n && o < g
    ensures r * g + o < n * g
  {
    StepsBelow(r, n, g);
  }

  lemma ProductNonNegative(a: int, b: int)
    requires a >= 0 && b >= 0
    ensures a * b >= 0
  {
  }

  lemma Distribute(a: int, b: int, c: int)
    ensures a * (b + c) == a * b + a * c
  {
  }

  /** k times n, none when k is negative. */
  ghost function Times(k: int, n: nat): nat { if k <= 0 then 0 else n + Times(k - 1, n) }
}
