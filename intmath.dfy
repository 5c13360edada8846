/** Integer helpers shared by the planner and the mesh layout: the C# division
    operator (which truncates toward zero) and the facts about Dafny's own
    division that the layout proofs need. */
module IntMath {

  /** C#'s integer `/` for a positive divisor: rounds toward zero, so it
      differs from Dafny's `/` (which floors) on negative dividends. */
  function DivT(a: int, b: int): int
    requires b > 0
  {
    if a >= 0 then a / b else -((-a) / b)
  }

  function Max(a: int, b: int): (m: int)
    ensures m >= a && m >= b && (m == a || m == b)
  {
    if a >= b then a else b
  }

  function Min(a: int, b: int): (m: int)
    ensures m <= a && m <= b && (m == a || m == b)
  {
    if a <= b then a else b
  }

  /** Quotient and remainder are unique: `q * d + r` with `0 <= r < d`
      divides back into `q` and `r`. */
  lemma DivModOf(q: int, r: int, d: int)
    requires d > 0 && 0 <= r < d
    ensures (q * d + r) / d == q
    ensures (q * d + r) % d == r
  {
    var a := q * d + r;
    var q', r' := a / d, a % d;
    assert a == q' * d + r';
    assert (q - q') * d == r' - r;
    if q - q' >= 1 {
      MulAtLeast(q - q', d);
    } else if q' - q >= 1 {
      MulAtLeast(q' - q, d);
    }
  }

  lemma MulAtLeast(k: int, d: int)
    requires k >= 1 && d > 0
    ensures k * d >= d
  {
    assert k * d == (k - 1) * d + d;
  }

  /** Multiplication by a non-negative factor keeps `<=`. */
  lemma MulMono(a: int, b: int, c: int)
    requires a <= b && c >= 0
    ensures a * c <= b * c
  {
    assert b * c - a * c == (b - a) * c;
  }

  /** The last of s blocks of g starts at (s - 1) * g. */
  lemma LastBlock(g: int, s: int)
    ensures g * s == (s - 1) * g + g
  {
  }
}
