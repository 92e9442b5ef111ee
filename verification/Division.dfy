/** Floor division of naturals, reduced to one equivalence. */
module Division {

  lemma QuotientBounds(a: nat, b: nat)
    requires b > 0
    ensures a / b * b <= a < (a / b + 1) * b
    ensures (a / b) * b + a % b == a
  {
  }

  lemma ProductOrder(x: int, y: int, k: nat)
    requires x <= y
    ensures x * k <= y * k
  {
  }

  /** The defining property: a / b is the largest q with q * b <= a. */
  lemma AtLeastIff(a: nat, b: nat, q: nat)
    requires b > 0
    ensures q <= a / b <==> q * b <= a
  {
    QuotientBounds(a, b);
    if q <= a / b {
      ProductOrder(q, a / b, b);
    } else {
      ProductOrder(a / b + 1, q, b);
    }
  }

  lemma QuotientIs(a: nat, b: nat, q: nat)
    requires b > 0
    requires q * b <= a < (q + 1) * b
    ensures a / b == q
  {
    AtLeastIff(a, b, q);
    AtLeastIff(a, b, q + 1);
  }

  lemma MulPositive(b: nat, c: nat)
    requires b > 0 && c > 0
    ensures b * c > 0
  {
  }

  lemma MulAssoc(x: int, y: int, z: int)
    ensures x * y * z == x * (y * z) == x * (z * y) == x * z * y
  {
  }

  lemma NestedAtLeast(a: nat, b: nat, c: nat, q: nat)
    requires b > 0 && c > 0 && b * c > 0
    ensures q <= a / b / c <==> q <= a / (b * c)
  {
    AtLeastIff(a / b, c, q);
    AtLeastIff(a, b, q * c);
    MulAssoc(q, c, b);
    AtLeastIff(a, b * c, q);
  }

  lemma DivDiv(a: nat, b: nat, c: nat)
    requires b > 0 && c > 0
    ensures b * c > 0
    ensures a / b / c == a / (b * c)
  {
    MulPositive(b, c);
    NonNegative(a, b);
    NonNegative(a / b, c);
    NonNegative(a, b * c);
    NestedAtLeast(a, b, c, a / b / c);
    NestedAtLeast(a, b, c, a / (b * c));
  }

  lemma NonNegative(a: nat, b: nat)
    requires b > 0
    ensures a / b >= 0
  {
  }

  lemma ScaledAtLeast(a: nat, b: nat, c: nat, q: nat)
    requires b > 0 && c > 0 && b * c > 0
    ensures q <= a * c / (b * c) <==> q <= a / b
  {
    AtLeastIff(a * c, b * c, q);
    AtLeastIff(a, b, q);
    MulAssoc(q, b, c);
    ScaledOrder(q * b, a, c);
  }

  lemma ScaledOrder(x: int, y: int, c: nat)
    requires c > 0
    ensures x * c <= y * c <==> x <= y
  {
    if x <= y {
      ProductOrder(x, y, c);
    } else {
      ProductOrder(y + 1, x, c);
    }
  }

  lemma DivCancel(a: nat, b: nat, c: nat)
    requires b > 0 && c > 0
    ensures b * c > 0
    ensures (a * c) / (b * c) == a / b
  {
    MulPositive(b, c);
    NonNegative(a, b);
    NonNegative(a * c, b * c);
    ScaledAtLeast(a, b, c, a / b);
    ScaledAtLeast(a, b, c, (a * c) / (b * c));
  }

  lemma DivAntitone(a: nat, b: nat, c: nat)
    requires 0 < b <= c
    ensures a / c <= a / b
  {
    NonNegative(a, c);
    var q := a / c;
    AtLeastIff(a, c, q);
    ProductOrder(b, c, q);
    AtLeastIff(a, b, q);
  }

  lemma DivMonotone(a: nat, b: nat, c: nat)
    requires a <= b && c > 0
    ensures a / c <= b / c
  {
    NonNegative(a, c);
    AtLeastIff(a, c, a / c);
    AtLeastIff(b, c, a / c);
  }

  lemma SmallMod(x: nat, m: nat)
    requires x < m
    ensures x % m == x
  {
  }

  lemma LeadingQuotient(q: nat, b: nat, low: nat)
    requires low < b
    ensures (q * b + low) / b == q
  {
    QuotientIs(q * b + low, b, q);
  }
}
