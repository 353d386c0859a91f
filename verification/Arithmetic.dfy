/** Division facts the index and boundary computations rest on. */
module Arithmetic {

  lemma DivBound(id: nat, n: nat, d: nat)
    requires d > 0
    ensures id < n * d <==> id / d < n
  {
    if id / d < n {
      assert id / d + 1 <= n;
      assert (id / d + 1) * d <= n * d;
    } else {
      assert n * d <= id / d * d;
    }
  }

  lemma MultipleBelow(x: int, d: int)
    requires d > 0 && -d < x * d < d
    ensures x == 0
  {
    assert x >= 1 ==> x * d >= 1 * d;
    assert x <= -1 ==> x * d <= -1 * d;
  }

  lemma DivModUnique(a: nat, d: nat, q: nat, r: nat)
    requires a == q * d + r && r < d
    ensures a / d == q && a % d == r
  {
    var q', r' := a / d, a % d;
    assert a == q' * d + r';
    assert (q' - q) * d == q' * d - q * d;
    MultipleBelow(q' - q, d);
  }

  lemma IndexBound(j: nat, n: nat, r: nat, d: nat)
    requires j < n && r < d
    ensures j * d + r < n * d
  {
    assert (j + 1) * d <= n * d;
  }

  lemma StepMultiple(x: nat, d: nat)
    requires d > 0 && x % d == 0
    ensures (x + d) % d == 0
  {
    assert x == x / d * d;
    assert x + d == (x / d + 1) * d;
    DivModUnique(x + d, d, x / d + 1, 0);
  }

  lemma NextMultiple(x: nat, y: nat, d: nat)
    requires d > 0 && x % d == 0 && y % d == 0 && x < y
    ensures x + d <= y
  {
    assert x == x / d * d && y == y / d * d;
    assert (y / d - x / d) * d == y - x;
    if y < x + d {
      MultipleBelow(y / d - x / d, d);
    }
  }
}
