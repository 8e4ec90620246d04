/** Division by a weight, as both schedulers charge it. */
module Quotients {

  /** `quotient` is the amount divided by the weight, rounded down, and at least one; a weight of zero is one. */
  predicate Divides(amount: nat, weight: nat, quotient: int) {
    var w := if weight == 0 then 1 else weight;
    1 <= quotient && (if amount < w then quotient == 1 else quotient * w <= amount < (quotient + 1) * w)
  }

  lemma DivisionDivides(amount: nat, weight: nat)
    ensures var q := amount / (if weight == 0 then 1 else weight); Divides(amount, weight, if q < 1 then 1 else q)
  {
    var w := if weight == 0 then 1 else weight;
    assert amount == w * (amount / w) + amount % w;
  }

  lemma {:induction false} Multiples(c: int, d: int, w: nat)
    requires c <= d
    ensures c * w <= d * w
    decreases d - c
  {
    if c < d {
      Multiples(c, d - 1, w);
      assert d * w == (d - 1) * w + w;
    }
  }

  lemma QuotientNotLess(amount: nat, w: nat, c: int, d: int)
    requires c * w <= amount < (c + 1) * w && d * w <= amount
    ensures d <= c
  {
    if c < d {
      Multiples(c + 1, d, w);
    }
  }

  lemma QuotientUnique(amount: nat, weight: nat, c: int, d: int)
    requires Divides(amount, weight, c) && Divides(amount, weight, d)
    ensures c == d
  {
    var w := if weight == 0 then 1 else weight;
    if w <= amount {
      QuotientNotLess(amount, w, c, d);
      QuotientNotLess(amount, w, d, c);
    }
  }

  lemma QuotientAtLeast(amount: nat, weight: nat, quotient: int, least: nat)
    requires Divides(amount, weight, quotient) && least * (if weight == 0 then 1 else weight) <= amount
    ensures least <= quotient
  {
    var w := if weight == 0 then 1 else weight;
    if amount < w {
      if least > 1 {
        Multiples(1, least, w);
      }
    } else {
      QuotientNotLess(amount, w, quotient, least);
    }
  }
}
