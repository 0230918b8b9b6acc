/** The derived values of the cart: subtotal, tax, total and count, all in
    integer cents (count in units). They are never stored; each is a fold
    over the current line items. */
module Totals {
  import opened LineItems

  /** The left-to-right fold `items.reduce((sum, i) => sum + f(i), 0)`. */
  function Sum(s: Cart, f: LineItem -> int): (r: int)
  {
    if |s| == 0 then 0
    else Sum(s[..|s| - 1], f) + f(s[|s| - 1])
  }

  /** What one line contributes to the subtotal: price times quantity. */
  function LineTotal(x: LineItem): (r: int) {
    x.priceCents * x.quantity
  }

  function Quantity(x: LineItem): (r: int) {
    x.quantity
  }

  /** Subtotal in cents: the sum of price times quantity over the lines. */
  function Subtotal(s: Cart): (r: int) {
    Sum(s, LineTotal)
  }

  /** The badge count: the sum of the quantities. */
  function Count(s: Cart): (r: int) {
    Sum(s, Quantity)
  }

  /** `Math.round(num / den)`: the nearest integer, with halves going up
      (toward positive infinity). */
  function MathRound(num: int, den: int): (r: int)
    requires den > 0
    ensures den * (2 * r - 1) <= 2 * num < den * (2 * r + 1)
  {
    var q := (2 * num + den) / (2 * den);
    var m := (2 * num + den) % (2 * den);
    assert 2 * num + den == 2 * den * q + m && 0 <= m < 2 * den;
    assert den * (2 * q - 1) == 2 * den * q - den;
    assert den * (2 * q + 1) == 2 * den * q + den;
    q
  }

  /** The tax rate as a fraction: ten percent. */
  const TaxRateDenominator: int := 10

  /** Tax in cents. `Math.round(subtotal * 0.1 * 100) / 100` in dollars is,
      in cents, the subtotal divided by ten and rounded once, half up. */
  function TaxCents(subtotal: int): (r: int) {
    MathRound(subtotal, TaxRateDenominator)
  }

  /** Total in cents. `Math.round((subtotal + tax) * 100) / 100` in dollars
      rounds an amount that is already a whole number of cents. */
  function TotalCents(subtotal: int): (r: int) {
    MathRound(subtotal + TaxCents(subtotal), 1)
  }

  function Tax(s: Cart): (r: int) {
    TaxCents(Subtotal(s))
  }

  function Total(s: Cart): (r: int) {
    TotalCents(Subtotal(s))
  }

  // ---------------------------------------------------------------------
  // Rounding

  /** `MathRound` is the only integer within half a unit of `num / den`,
      ties going up: both directions of the characterisation. */
  lemma MathRoundUnique(num: int, den: int, t: int)
    requires den > 0
    ensures t == MathRound(num, den) <==> den * (2 * t - 1) <= 2 * num < den * (2 * t + 1)
  {
    var r := MathRound(num, den);
    if den * (2 * t - 1) <= 2 * num < den * (2 * t + 1) {
      CancelPositiveFactor(den, 2 * r - 1, 2 * t + 1);
      CancelPositiveFactor(den, 2 * t - 1, 2 * r + 1);
    }
  }

  lemma CancelPositiveFactor(d: int, a: int, b: int)
    requires d > 0
    requires d * a < d * b
    ensures a < b
  {
    assert d * (b - a) == d * b - d * a;
  }

  /** Tax is a tenth of the subtotal rounded once to the cent, halves up:
      `t` is the tax exactly when `10t - 5 <= subtotal < 10t + 5`. */
  lemma TaxCharacterisation(subtotal: int, t: int)
    ensures t == TaxCents(subtotal) <==> 10 * t - 5 <= subtotal < 10 * t + 5
  {
    MathRoundUnique(subtotal, 10, t);
  }

  /** Rounding the total adds nothing: it is subtotal plus tax, to the cent. */
  lemma TotalIsSubtotalPlusTax(subtotal: int)
    ensures TotalCents(subtotal) == subtotal + TaxCents(subtotal)
  {
    MathRoundUnique(subtotal + TaxCents(subtotal), 1, subtotal + TaxCents(subtotal));
  }

  /** A non-negative subtotal has a non-negative tax, never above the
      subtotal. */
  lemma TaxBounds(subtotal: int)
    requires subtotal >= 0
    ensures 0 <= TaxCents(subtotal) <= subtotal
  {
    TaxCharacterisation(subtotal, TaxCents(subtotal));
  }

  /** Rounding once at the end differs from rounding each line: two lines
      of 5 cents each are taxed 1 cent together, but 1 + 1 cents line by
      line. */
  lemma RoundingOnceDiffersFromPerLine()
    ensures
      var x := LineItem("a", "A", 5, Wrappers.None, 1);
      var y := LineItem("b", "B", 5, Wrappers.None, 1);
      && Tax([x, y]) == 1
      && TaxCents(LineTotal(x)) + TaxCents(LineTotal(y)) == 2
  {
    var x := LineItem("a", "A", 5, Wrappers.None, 1);
    var y := LineItem("b", "B", 5, Wrappers.None, 1);
    assert Subtotal([x, y]) == 10 by {
      assert [x][..0] == [];
      assert Sum([x], LineTotal) == 5;
      assert [x, y][..1] == [x];
      assert Sum([x, y], LineTotal) == Sum([x], LineTotal) + 5;
    }
    TaxCharacterisation(10, 1);
    TaxCharacterisation(5, 1);
  }

  // ---------------------------------------------------------------------
  // Folds

  /** The fold over a concatenation is the sum of the folds. */
  lemma {:induction false} SumAppend(a: Cart, b: Cart, f: LineItem -> int)
    ensures Sum(a + b, f) == Sum(a, f) + Sum(b, f)
    decreases |b|
  {
    if |b| == 0 {
      assert a + b == a;
    } else {
      var b' := b[..|b| - 1];
      assert (a + b)[..|a + b| - 1] == a + b';
      SumAppend(a, b', f);
    }
  }

  /** Taking line `i` out of the fold subtracts exactly its contribution. */
  lemma SumRemoveAt(s: Cart, i: int, f: LineItem -> int)
    requires 0 <= i < |s|
    ensures Sum(s, f) == Sum(s[..i] + s[i + 1..], f) + f(s[i])
  {
    var pre, post := s[..i], s[i + 1..];
    calc {
      Sum(s, f);
      { SplitAt(s, i); }
      Sum((pre + [s[i]]) + post, f);
      { SumAppend(pre + [s[i]], post, f); }
      Sum(pre + [s[i]], f) + Sum(post, f);
      { SumSnoc(pre, s[i], f); }
      Sum(pre, f) + f(s[i]) + Sum(post, f);
      { SumAppend(pre, post, f); }
      Sum(pre + post, f) + f(s[i]);
    }
  }

  /** Appending one line adds that line's term. */
  lemma SumSnoc(s: Cart, x: LineItem, f: LineItem -> int)
    ensures Sum(s + [x], f) == Sum(s, f) + f(x)
  {
    assert (s + [x])[..|s|] == s;
  }

  /** The fold over one line is that line's term. */
  lemma SumSingleton(x: LineItem, f: LineItem -> int)
    ensures Sum([x], f) == f(x)
  {
    assert [x][..0] == [];
  }

  /** A fold of non-negative terms is non-negative. */
  lemma {:induction false} SumNonNegative(s: Cart, f: LineItem -> int)
    requires forall i :: 0 <= i < |s| ==> f(s[i]) >= 0
    ensures Sum(s, f) >= 0
  {
    if |s| > 0 {
      SumNonNegative(s[..|s| - 1], f);
    }
  }

  /** Replacing line `i` changes the fold by the difference of the two
      contributions. */
  lemma SumUpdate(s: Cart, i: int, x: LineItem, f: LineItem -> int)
    requires 0 <= i < |s|
    ensures Sum(s[i := x], f) == Sum(s, f) - f(s[i]) + f(x)
  {
    var t := s[i := x];
    SumRemoveAt(s, i, f);
    SumRemoveAt(t, i, f);
    assert t[..i] + t[i + 1..] == s[..i] + s[i + 1..];
  }

  /** The order of the lines carries no meaning for the totals: any
      rearrangement of the same lines has the same fold. */
  lemma {:induction false} SumPermutation(a: Cart, b: Cart, f: LineItem -> int)
    requires multiset(a) == multiset(b)
    ensures Sum(a, f) == Sum(b, f)
    decreases |a|
  {
    if |a| == 0 {
      assert |multiset(b)| == 0;
    } else {
      var n := |a| - 1;
      var x := a[n];
      assert x in multiset(b);
      var i :| 0 <= i < |b| && b[i] == x;
      var b' := b[..i] + b[i + 1..];
      assert b == b[..i] + [x] + b[i + 1..];
      assert a == a[..n] + [x];
      assert multiset(a[..n]) == multiset(b') by {
        assert multiset(a) == multiset(a[..n]) + multiset{x};
        assert multiset(a[..n]) == multiset(a) - multiset{x};
        assert multiset(b) == multiset(b[..i]) + multiset{x} + multiset(b[i + 1..]);
        assert multiset(b') == multiset(b[..i]) + multiset(b[i + 1..]);
        assert multiset(b') == multiset(b) - multiset{x};
      }
      SumPermutation(a[..n], b', f);
      SumRemoveAt(b, i, f);
    }
  }

  /** The subtotal ignores line order. */
  lemma SubtotalIgnoresOrder(a: Cart, b: Cart)
    requires multiset(a) == multiset(b)
    ensures Subtotal(a) == Subtotal(b) && Tax(a) == Tax(b) && Total(a) == Total(b)
    ensures Count(a) == Count(b)
  {
    SumPermutation(a, b, LineTotal);
    SumPermutation(a, b, Quantity);
  }

  /** The subtotal of a cart with positive quantities is never negative,
      and neither are its tax and total; its count is at least its number
      of lines. */
  lemma TotalsNonNegative(s: Cart)
    requires PositiveQuantities(s)
    ensures Subtotal(s) >= 0 && Tax(s) >= 0 && Total(s) >= Subtotal(s)
    ensures Count(s) >= |s|
  {
    assert forall i :: 0 <= i < |s| ==> LineTotal(s[i]) >= 0;
    SumNonNegative(s, LineTotal);
    TaxBounds(Subtotal(s));
    TotalIsSubtotalPlusTax(Subtotal(s));
    CountAtLeastLength(s);
  }

  lemma {:induction false} CountAtLeastLength(s: Cart)
    requires PositiveQuantities(s)
    ensures Count(s) >= |s|
  {
    if |s| > 0 {
      CountAtLeastLength(s[..|s| - 1]);
    }
  }

  // ---------------------------------------------------------------------
  // The reductions as the source runs them

  /** The `reduce` computing the subtotal, run as a loop over the lines in
      order; it yields the sum of price times quantity. */
  method ComputeSubtotal(items: Cart) returns (sum: int)
    ensures sum == Subtotal(items)
  {
    sum := 0;
    var i := 0;
    while i < |items|
      invariant 0 <= i <= |items|
      invariant sum == Sum(items[..i], LineTotal)
    {
      assert items[..i + 1][..i] == items[..i];
      sum := sum + items[i].priceCents * items[i].quantity;
      i := i + 1;
    }
    assert items[..i] == items;
  }

  /** The `reduce` computing the badge count; it yields the sum of the
      quantities. */
  method ComputeCount(items: Cart) returns (count: int)
    ensures count == Count(items)
  {
    count := 0;
    var i := 0;
    while i < |items|
      invariant 0 <= i <= |items|
      invariant count == Sum(items[..i], Quantity)
    {
      assert items[..i + 1][..i] == items[..i];
      count := count + items[i].quantity;
      i := i + 1;
    }
    assert items[..i] == items;
  }
}
