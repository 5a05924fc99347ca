/** Order-book levels and the sums taken over them. */
module OrderBook {

  /** One `[price, quantity]` entry of a bid or ask ladder. */
  datatype Level = Level(price: real, quantity: real)

  /** Total listed quantity of a ladder. */
  function TotalQuantity(levels: seq<Level>): real
  {
    if |levels| == 0 then 0.0 else levels[0].quantity + TotalQuantity(levels[1..])
  }

  /** Every level lists a non-negative quantity. */
  predicate NonNegative(levels: seq<Level>)
  {
    forall i :: 0 <= i < |levels| ==> levels[i].quantity >= 0.0
  }

  /** Prices never decrease along the ladder (an ask side). */
  predicate Ascending(levels: seq<Level>)
  {
    forall i, j :: 0 <= i < j < |levels| ==> levels[i].price <= levels[j].price
  }

  /** Prices never increase along the ladder (a bid side). */
  predicate Descending(levels: seq<Level>)
  {
    forall i, j :: 0 <= i < j < |levels| ==> levels[i].price >= levels[j].price
  }

  /** Unfolding of TotalQuantity one level into the suffix `levels[i..]`. */
  lemma TotalQuantityStep(levels: seq<Level>, i: nat)
    requires i < |levels|
    ensures TotalQuantity(levels[i..]) == levels[i].quantity + TotalQuantity(levels[i + 1..])
  {
    assert levels[i..][1..] == levels[i + 1..];
  }

  /** Non-negative quantities add up to a non-negative total. */
  lemma {:induction false} TotalQuantityNonNegative(levels: seq<Level>)
    requires NonNegative(levels)
    ensures TotalQuantity(levels) >= 0.0
  {
    if |levels| > 0 {
      TotalQuantityNonNegative(levels[1..]);
    }
  }

  /** `a * b` grows with `a` when `b` is non-negative. */
  lemma MulMonotone(a: real, a': real, b: real)
    requires a <= a' && 0.0 <= b
    ensures a * b <= a' * b
  {
    assert a' * b - a * b == (a' - a) * b;
  }

  /** Dividing by a positive amount keeps a lower bound `c >= p * r` as `c / r >= p`. */
  lemma DivAtLeast(c: real, p: real, r: real)
    requires r > 0.0 && c >= p * r
    ensures c / r >= p
  {
    var q := c / r;
    assert q * r == c;
    if q < p {
      assert (p - q) * r > 0.0;
      assert p * r - q * r == (p - q) * r;
    }
  }

  /** Dividing by a positive amount keeps an upper bound `c <= p * r` as `c / r <= p`. */
  lemma DivAtMost(c: real, p: real, r: real)
    requires r > 0.0 && c <= p * r
    ensures c / r <= p
  {
    var q := c / r;
    assert q * r == c;
    if q > p {
      assert (q - p) * r > 0.0;
      assert q * r - p * r == (q - p) * r;
    }
  }
}
