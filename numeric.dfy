/**
 * Math.ceil and Math.floor over exact rationals. The source computes with
 * IEEE doubles; this model computes the same expressions exactly.
 */
module Numeric {

  /** Math.ceil: the least integer not below `x`. */
  function Ceil(x: real): (r: int)
    ensures x <= r as real < x + 1.0
  {
    -((-x).Floor)
  }

  /** Math.floor: the greatest integer not above `x`. */
  function Floor(x: real): (r: int)
    ensures r as real <= x < r as real + 1.0
  {
    x.Floor
  }

  /** Math.min on integers. */
  function Min(a: int, b: int): (r: int)
    ensures r <= a && r <= b && (r == a || r == b)
  {
    if a <= b then a else b
  }

  /** Ceil never decreases as its argument grows. */
  lemma CeilMonotone(x: real, y: real)
    requires x <= y
    ensures Ceil(x) <= Ceil(y)
  {
  }

  /** ⌈n / 4⌉ is the least k with 4k >= n. */
  lemma CeilQuarter(n: nat)
    ensures 4 * Ceil(n as real / 4.0) >= n
    ensures 4 * (Ceil(n as real / 4.0) - 1) < n
    ensures Ceil(n as real / 4.0) >= 0
  {
    var c := Ceil(n as real / 4.0);
    assert n as real / 4.0 <= c as real;
    assert (4 * c) as real == 4.0 * c as real;
    assert (4 * (c - 1)) as real == 4.0 * c as real - 4.0;
  }

  /** ⌊n / 4⌋ is the greatest k with 4k <= n. */
  lemma FloorQuarter(n: nat)
    ensures 4 * Floor(n as real / 4.0) <= n < 4 * Floor(n as real / 4.0) + 4
    ensures Floor(n as real / 4.0) == n / 4
  {
    var f := Floor(n as real / 4.0);
    assert (4 * f) as real == 4.0 * f as real;
    assert 4 * f <= n < 4 * f + 4;
  }

  /** ⌈n / d⌉ for a positive divisor is the least k with d·k >= n. */
  lemma CeilDiv(n: int, d: int)
    requires d > 0
    ensures d * Ceil(n as real / d as real) >= n
    ensures d * (Ceil(n as real / d as real) - 1) < n
  {
    var q := n as real / d as real;
    var c := Ceil(q);
    var dr := d as real;
    assert q * dr == n as real;
    assert (d * c) as real == dr * c as real;
    assert dr * q <= dr * c as real;
    var below := c - 1;
    assert below as real < q;
    var lhs := dr * below as real;
    assert lhs < dr * q;
    assert (d * below) as real == lhs;
  }

  /** ⌈n / d⌉ for a negative divisor: multiplying back by d reverses the bounds. */
  lemma CeilDivNegative(n: int, d: int)
    requires d < 0
    ensures d * Ceil(n as real / d as real) <= n
    ensures d * (Ceil(n as real / d as real) - 1) > n
  {
    var q := n as real / d as real;
    var c := Ceil(q);
    var dr := d as real;
    assert q * dr == n as real;
    assert (d * c) as real == dr * c as real;
    assert dr * c as real <= dr * q;
    var below := c - 1;
    assert below as real < q;
    var lhs := dr * below as real;
    assert lhs > dr * q;
    assert (d * below) as real == lhs;
  }
}
