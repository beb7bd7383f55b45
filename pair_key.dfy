/**
 * The reciprocal link key shared by every per-link cache: the Cantor
 * pairing of the lower and the higher of two ids.
 */
module PairKey {

  /** Cantor pairing of min(a, b) and max(a, b). */
  function Key(a: nat, b: nat): nat
  {
    var x1 := if b < a then b else a;
    var x2 := if a < b then b else a;
    ((x1 + x2) * (x1 + x2 + 1)) / 2 + x2
  }

  /** The key does not depend on the order of the two ids. */
  lemma KeyReciprocal(a: nat, b: nat)
    ensures Key(a, b) == Key(b, a)
  {
  }

  /** The s-th triangular number, as the key computes it. */
  function Triangle(s: nat): nat
  {
    (s * (s + 1)) / 2
  }

  lemma TriangleStep(s: nat)
    ensures Triangle(s + 1) == Triangle(s) + s + 1
  {
    var p, q := s * (s + 1), (s + 1) * (s + 2);
    assert q == p + 2 * (s + 1) by {
      assert (s + 1) * (s + 2) == (s + 1) * s + (s + 1) * 2;
    }
  }

  lemma {:induction false} TriangleMonotone(s: nat, t: nat)
    requires s < t
    ensures Triangle(s) + s < Triangle(t)
    decreases t
  {
    TriangleStep(t - 1);
    if s < t - 1 {
      TriangleMonotone(s, t - 1);
    }
  }

  /**
   * Distinct unordered pairs of ids get distinct keys: two pairs with the
   * same key are the same pair, possibly in the other order.
   */
  lemma KeyInjective(a: nat, b: nat, c: nat, d: nat)
    requires Key(a, b) == Key(c, d)
    ensures (a == c && b == d) || (a == d && b == c)
  {
    var x1 := if b < a then b else a;
    var x2 := if a < b then b else a;
    var y1 := if d < c then d else c;
    var y2 := if c < d then d else c;
    var s, t := x1 + x2, y1 + y2;
    assert Key(a, b) == Triangle(s) + x2;
    assert Key(c, d) == Triangle(t) + y2;
    if s < t {
      TriangleMonotone(s, t);
    } else if t < s {
      TriangleMonotone(t, s);
    }
  }
}
