/** Facts about Euclidean division that the byte codec and the page rounding share. */
module DivMod {

  /** Euclidean division has only one quotient and remainder. */
  lemma ModUnique(v: int, d: int, q: int, r: int)
    requires d > 0 && 0 <= r < d && v == d * q + r
    ensures v % d == r && v / d == q
  {
    var q' := v / d;
    assert d * (q - q') == v % d - r;
    if q - q' >= 1 {
      assert false;
    } else if q - q' <= -1 {
      assert false;
    }
  }

  /** Two multiples of `d` less than `d` apart are equal. */
  lemma MultiplesApart(d: int, a: int, b: int)
    requires d > 0 && -d < a * d - b * d < d
    ensures a == b
  {
    assert a * d - b * d == (a - b) * d;
    if a - b >= 1 {
      assert false;
    } else if a - b <= -1 {
      assert false;
    }
  }
}
