/**
 * The sleeper-density curve of the batch generator: a parabola over the
 * curve radius (in studs) with its vertex at radius 64, capped at 1800.
 * The leading coefficient 0.8125 is exactly 13/16, and the source's
 * `int()` of a positive value rounds down, so the curve is computed here
 * in integer arithmetic; `DiverseMatchesSourceFormula` ties it to the
 * source's formula over the reals.
 */
module Diverse {

  const Vertex: int := 64
  const Minimum: int := 500
  const Maximum: int := 1800

  /** Sleeper density for a radius: `min(int(0.8125 * (radius - 64)^2 + 500), 1800)`. */
  function CalculateDiverse(radius: int): (d: int)
    ensures Minimum <= d <= Maximum
  {
    var offset := radius - Vertex;
    var square := offset * offset;
    assert square >= 0;
    var curve := Minimum + 13 * square / 16;
    if curve < Maximum then curve else Maximum
  }

  /** The source's expression evaluated on exact reals, truncated, then capped. */
  function SourceFormula(radius: int): int
  {
    var curve := 0.8125 * ((radius - 64) * (radius - 64)) as real + 500.0;
    if curve.Floor < 1800 then curve.Floor else 1800
  }

  lemma DivideBySixteen(x: nat)
    ensures (x as real / 16.0).Floor == x / 16
  {
    var q, m := x / 16, x % 16;
    assert x == 16 * q + m;
    assert x as real / 16.0 == q as real + m as real / 16.0;
  }

  /** Integer arithmetic reproduces the source's real-valued formula exactly. */
  lemma DiverseMatchesSourceFormula(radius: int)
    ensures CalculateDiverse(radius) == SourceFormula(radius)
  {
    var offset := radius - 64;
    var square := offset * offset;
    assert square >= 0;
    DivideBySixteen(13 * square);
    assert 0.8125 * square as real == (13 * square) as real / 16.0;
    assert (0.8125 * square as real + 500.0).Floor == (13 * square) / 16 + 500;
  }

  lemma SquareGrows(x: int, y: int)
    requires 0 <= x <= y
    ensures x * x <= y * y
  {
    assert x * x <= x * y;
    assert x * y <= y * y;
  }

  lemma SixteenthsGrow(a: int, b: int)
    requires 0 <= a <= b
    ensures a / 16 <= b / 16
  {
    assert a == 16 * (a / 16) + a % 16;
    assert b == 16 * (b / 16) + b % 16;
  }

  /** The curve only depends on the distance from the vertex, and grows with it. */
  lemma DiverseGrowsWithDistance(r: int, s: int)
    requires Abs(r - Vertex) <= Abs(s - Vertex)
    ensures CalculateDiverse(r) <= CalculateDiverse(s)
  {
    var a, b := Abs(r - Vertex), Abs(s - Vertex);
    SquareGrows(a, b);
    assert (r - Vertex) * (r - Vertex) == a * a;
    assert (s - Vertex) * (s - Vertex) == b * b;
    SixteenthsGrow(13 * (a * a), 13 * (b * b));
  }

  function Abs(x: int): nat {
    if x < 0 then -x else x
  }

  /** Equally far on either side of radius 64, the density is the same. */
  lemma DiverseSymmetric(k: int)
    ensures CalculateDiverse(Vertex + k) == CalculateDiverse(Vertex - k)
  {
    DiverseGrowsWithDistance(Vertex + k, Vertex - k);
    DiverseGrowsWithDistance(Vertex - k, Vertex + k);
  }

  /** Below the vertex the density falls as the radius grows. */
  lemma DiverseFallsToVertex(r: int, s: int)
    requires r <= s <= Vertex
    ensures CalculateDiverse(r) >= CalculateDiverse(s)
  {
    DiverseGrowsWithDistance(s, r);
  }

  /** Above the vertex the density rises with the radius. */
  lemma DiverseRisesFromVertex(r: int, s: int)
    requires Vertex <= r <= s
    ensures CalculateDiverse(r) <= CalculateDiverse(s)
  {
    DiverseGrowsWithDistance(r, s);
  }

  /**
   * The minimum 500 is reached exactly at radii 63, 64 and 65: one stud
   * off the vertex adds 13/16 of a sleeper unit, which `int()` drops.
   */
  lemma DiverseMinimum(radius: int)
    ensures CalculateDiverse(radius) == Minimum <==> Vertex - 1 <= radius <= Vertex + 1
  {
    if radius < Vertex - 1 {
      DiverseGrowsWithDistance(Vertex - 2, radius);
    } else if radius > Vertex + 1 {
      DiverseGrowsWithDistance(Vertex + 2, radius);
    }
  }

  /** The cap 1800 is reached exactly at radius 24 and below, and at 104 and above. */
  lemma DiverseCap(radius: int)
    ensures CalculateDiverse(radius) == Maximum <==> radius <= 24 || radius >= 104
  {
    if radius <= 24 {
      DiverseGrowsWithDistance(24, radius);
    } else if radius >= 104 {
      DiverseGrowsWithDistance(104, radius);
    } else if radius < Vertex {
      DiverseGrowsWithDistance(radius, 25);
    } else {
      DiverseGrowsWithDistance(radius, 103);
    }
  }
}
