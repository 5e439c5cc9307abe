/** Small vocabulary shared by every module: optional values, fallible results and
    arithmetic helpers on reals. */
module Common {

  datatype Option<+T> = None | Some(value: T)

  datatype Result<+T, +E> = Ok(value: T) | Err(error: E)

  datatype Side = Buy | Sell

  datatype OrderType = Market | Limit

  function Abs(x: real): real {
    if x < 0.0 then -x else x
  }

  function Min(x: real, y: real): real {
    if y < x then y else x
  }

  function Max(x: real, y: real): real {
    if y > x then y else x
  }

  /** +quantity for a buy, -quantity for a sell. */
  function Signed(side: Side, quantity: real): real {
    if side == Buy then quantity else -quantity
  }

  /** What a quantity is worth at a price. Proofs that need nothing but its equality hide it. */
  function Worth(quantity: real, price: real): real {
    quantity * price
  }

  lemma WorthSum(x: real, y: real, price: real)
    ensures Worth(x + y, price) == Worth(x, price) + Worth(y, price)
    ensures Worth(-x, price) == -Worth(x, price)
  {
  }

  lemma WorthGap(x: real, p: real, r: real)
    ensures Worth(x, p - r) == Worth(x, p) - Worth(x, r)
  {
  }

  lemma WorthSign(x: real, price: real)
    requires price > 0.0
    ensures x > 0.0 <==> Worth(x, price) > 0.0
    ensures x < 0.0 <==> Worth(x, price) < 0.0
  {
    if x > 0.0 { ScaleStrict(0.0, x, price); }
    if x < 0.0 { ScaleStrict(x, 0.0, price); }
  }

  lemma WorthMono(x: real, y: real, price: real)
    requires x <= y && price >= 0.0
    ensures Worth(x, price) <= Worth(y, price)
  {
    ScaleMono(x, y, price);
  }

  lemma WorthMonoPrice(x: real, p: real, r: real)
    requires x >= 0.0 && p <= r
    ensures Worth(x, p) <= Worth(x, r)
  {
    ScaleMono(p, r, x);
  }

  lemma WorthZero(x: real)
    ensures Worth(0.0, x) == 0.0 && Worth(x, 0.0) == 0.0
  {
  }

  /** Numerators and denominators of positive fractions can be compared crosswise. */
  lemma QuotientAtMost(x: real, y: real, bound: real)
    requires y > 0.0
    ensures x / y <= bound <==> x <= bound * y
  {
    CompareScaled(x / y, bound, y);
  }

  lemma CompareScaled(x: real, y: real, k: real)
    requires k > 0.0
    ensures x <= y <==> x * k <= y * k
  {
    if x <= y { ScaleMono(x, y, k); } else { ScaleStrict(y, x, k); }
  }

  lemma ScaleMono(x: real, y: real, k: real)
    requires x <= y && k >= 0.0
    ensures x * k <= y * k
  {
    assert (y - x) * k >= 0.0;
  }

  lemma ScaleStrict(x: real, y: real, k: real)
    requires x < y && k > 0.0
    ensures x * k < y * k
  {
    assert (y - x) * k > 0.0;
  }

  lemma NotNegativeProduct(x: real, k: real)
    requires x >= 0.0 && k >= 0.0
    ensures x * k >= 0.0
  {
    ScaleMono(0.0, x, k);
    assert 0.0 * k == 0.0;
  }

  lemma AbsScale(x: real, k: real)
    ensures Abs(x * k) == Abs(x) * Abs(k)
  {
    if x >= 0.0 && k >= 0.0 {
      assert x * k >= 0.0;
    } else if x >= 0.0 {
      assert x * -k >= 0.0;
    } else if k >= 0.0 {
      assert -x * k >= 0.0;
    } else {
      assert -x * -k >= 0.0;
    }
  }
}
