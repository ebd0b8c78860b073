/** Integer division by a variable. */
module Division {
  lemma Multiple(d: int, y: int)
    requires y > 0
    ensures (d >= 1 ==> d * y >= y) && (d <= -1 ==> d * y <= -y)
  {
    if d >= 1 {
      assert (d - 1) * y >= 0;
    } else if d <= -1 {
      assert (-1 - d) * y >= 0;
    }
  }

  lemma DivUnique(x: int, y: int, q: int)
    requires y > 0 && q * y <= x < q * y + y
    ensures x / y == q
  {
    var p, r := x / y, x % y;
    assert x == p * y + r && 0 <= r < y;
    assert (p - q) * y == p * y - q * y;
    Multiple(p - q, y);
  }
}
