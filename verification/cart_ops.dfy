/** The three cart mutations, each a pure function from the previous item
    list to the next one, and the properties relating them. */
module CartOps {
  import opened LineItems

  /** `addToCart(product, qty)`: when a line with the product's id exists,
      the first such line has its quantity raised by `qty` and keeps its
      captured title, price and image; otherwise a new line is appended. */
  function AddToCart(s: Cart, p: Product, qty: int): (r: Cart)
    ensures HasId(s, p.id) ==> |r| == |s|
    ensures HasId(s, p.id) ==>
      var k := FindIndex(s, p.id);
      && r[k].id == s[k].id && r[k].title == s[k].title
      && r[k].priceCents == s[k].priceCents && r[k].image == s[k].image
      && r[k].quantity == s[k].quantity + qty
      && forall j :: 0 <= j < |s| && j != k ==> r[j] == s[j]
    ensures !HasId(s, p.id) ==>
      |r| == |s| + 1 && r[..|s|] == s && r[|s|] == NewLine(p, qty)
    ensures HasId(r, p.id)
  {
    var idx := FindIndex(s, p.id);
    if idx != -1 then
      s[idx := Bump(s[idx], qty)]
    else
      s + [NewLine(p, qty)]
  }

  /** The line `{ ...line, quantity: line.quantity + qty }`: the same
      line with `qty` more units. */
  function Bump(x: LineItem, qty: int): (y: LineItem)
    ensures y.id == x.id && y.title == x.title && y.priceCents == x.priceCents && y.image == x.image
    ensures y.quantity == x.quantity + qty
  {
    x.(quantity := x.quantity + qty)
  }

  /** `removeFromCart(id)`: keeps, in order, exactly the lines whose id
      differs from `id`. */
  function RemoveFromCart(s: Cart, id: string): (r: Cart)
    ensures !HasId(r, id)
    ensures forall x :: x in r <==> x in s && x.id != id
    ensures |r| <= |s|
    ensures !HasId(s, id) <==> r == s
  {
    if |s| == 0 then []
    else
      var rest := RemoveFromCart(s[1..], id);
      assert forall x :: x in s[1..] ==> x in s;
      assert forall x :: x in s ==> x == s[0] || x in s[1..];
      if s[0].id == id then rest else [s[0]] + rest
  }

  /** `clearCart()`: the empty list, whatever the cart held. */
  function ClearCart(s: Cart): (r: Cart)
    ensures |r| == 0
  {
    []
  }

  /** `a` is obtained from `b` by deleting lines: the lines of `a` appear
      in `b` in the same relative order. */
  predicate Subsequence(a: Cart, b: Cart)
    decreases |b|
  {
    if |a| == 0 then true
    else if |b| == 0 then false
    else if a[0] == b[0] then Subsequence(a[1..], b[1..])
    else Subsequence(a, b[1..])
  }

  // ---------------------------------------------------------------------
  // addToCart

  /** Adding never creates a second line for a product id: the invariant
      "no two lines share an id" is preserved. */
  lemma AddPreservesUniqueIds(s: Cart, p: Product, qty: int)
    requires UniqueIds(s)
    ensures UniqueIds(AddToCart(s, p, qty))
  {
    var r := AddToCart(s, p, qty);
    if !HasId(s, p.id) {
      forall i, j | 0 <= i < |r| && 0 <= j < |r| && i != j
        ensures r[i].id != r[j].id
      {
        if i < |s| && j < |s| {
          assert r[i] == s[i] && r[j] == s[j];
        } else if i < |s| {
          assert r[i] == s[i] && r[j].id == p.id;
        } else {
          assert r[j] == s[j] && r[i].id == p.id;
        }
      }
    }
  }

  /** Adding a product already in the cart never grows the list, and adding
      an absent one grows it by exactly one line. */
  lemma AddLengthChange(s: Cart, p: Product, qty: int)
    ensures |AddToCart(s, p, qty)| == |s| + (if HasId(s, p.id) then 0 else 1)
  {
  }

  /** Adding a present product replaces its first line by the same line
      with the amount added to its quantity. */
  lemma AddExistingIsUpdate(s: Cart, p: Product, qty: int)
    requires HasId(s, p.id)
    ensures
      var k := FindIndex(s, p.id);
      AddToCart(s, p, qty) == s[k := Bump(s[k], qty)]
  {
  }

  /** Adding an absent product appends one new line. */
  lemma AddNewIsAppend(s: Cart, p: Product, qty: int)
    requires !HasId(s, p.id)
    ensures AddToCart(s, p, qty) == s + [NewLine(p, qty)]
  {
  }

  /** With a positive amount, all quantities stay positive. */
  lemma AddPreservesPositiveQuantities(s: Cart, p: Product, qty: int)
    requires PositiveQuantities(s)
    requires qty > 0
    ensures PositiveQuantities(AddToCart(s, p, qty))
  {
    var r := AddToCart(s, p, qty);
    if HasId(s, p.id) {
      var k := FindIndex(s, p.id);
      forall i | 0 <= i < |r| ensures r[i].quantity > 0 {
        if i != k {
          assert r[i] == s[i];
        }
      }
    } else {
      forall i | 0 <= i < |r| ensures r[i].quantity > 0 {
        if i < |s| {
          assert r[i] == r[..|s|][i];
        }
      }
    }
  }

  /** Two adds of the same product on an empty cart give one line whose
      quantity is the sum of both amounts and whose fields come from the
      product. */
  lemma AddTwiceMerges(p: Product, n: int, m: int)
    ensures AddToCart(AddToCart([], p, n), p, m) == [NewLine(p, n + m)]
  {
    var once := AddToCart([], p, n);
    assert once == [NewLine(p, n)];
    assert FindIndex(once, p.id) == 0;
  }

  /** Re-adding a product whose price, title or image changed keeps what
      the cart captured first: only the quantity of that line moves. */
  lemma ReAddKeepsCapturedFields(s: Cart, p: Product, q: Product, n: int, m: int)
    requires !HasId(s, p.id)
    requires q.id == p.id
    ensures
      var r := AddToCart(AddToCart(s, p, n), q, m);
      r == s + [NewLine(p, n + m)]
  {
    var once := AddToCart(s, p, n);
    assert once == s + [NewLine(p, n)];
    assert FindIndex(once, q.id) == |s| by {
      assert once[|s|].id == q.id;
      assert forall j :: 0 <= j < |s| ==> once[j] == s[j];
      assert forall j :: 0 <= j < |s| ==> s[j].id != q.id;
    }
  }

  // ---------------------------------------------------------------------
  // removeFromCart

  /** Removal keeps the relative order of the remaining lines. */
  lemma {:induction false} RemoveKeepsOrder(s: Cart, id: string)
    ensures Subsequence(RemoveFromCart(s, id), s)
  {
    if |s| == 0 {
    } else {
      var rest := RemoveFromCart(s[1..], id);
      RemoveKeepsOrder(s[1..], id);
      if s[0].id == id {
        SubsequenceOfTail(rest, s);
      } else {
        assert RemoveFromCart(s, id) == [s[0]] + rest;
        assert ([s[0]] + rest)[1..] == rest;
      }
    }
  }

  /** A subsequence of the tail is a subsequence of the whole. */
  lemma {:induction false} SubsequenceOfTail(a: Cart, b: Cart)
    requires |b| > 0
    requires Subsequence(a, b[1..])
    ensures Subsequence(a, b)
    decreases |b|, 0
  {
    if |a| == 0 {
    } else if a[0] == b[0] {
      // Subsequence(a, b) reduces to Subsequence(a[1..], b[1..]).
      SubsequenceDropHead(a, b[1..]);
    }
  }

  /** Dropping the first line of a subsequence keeps it a subsequence. */
  lemma {:induction false} SubsequenceDropHead(a: Cart, b: Cart)
    requires |a| > 0
    requires Subsequence(a, b)
    ensures Subsequence(a[1..], b)
    decreases |b|, 1
  {
    if |b| == 0 {
    } else if a[0] == b[0] {
      SubsequenceOfTail(a[1..], b);
    } else {
      SubsequenceDropHead(a, b[1..]);
      SubsequenceOfTail(a[1..], b);
    }
  }

  /** Removing twice removes no more than removing once. */
  lemma RemoveIdempotent(s: Cart, id: string)
    ensures RemoveFromCart(RemoveFromCart(s, id), id) == RemoveFromCart(s, id)
  {
  }

  /** Removal distributes over concatenation. */
  lemma {:induction false} RemoveAppend(a: Cart, b: Cart, id: string)
    ensures RemoveFromCart(a + b, id) == RemoveFromCart(a, id) + RemoveFromCart(b, id)
  {
    if |a| == 0 {
      assert a + b == b;
    } else {
      assert (a + b)[0] == a[0];
      assert (a + b)[1..] == a[1..] + b;
      RemoveAppend(a[1..], b, id);
    }
  }

  /** In a cart without duplicate ids, removing a present id deletes exactly
      the one line carrying it and closes the gap. */
  lemma RemoveDeletesTheLine(s: Cart, id: string)
    requires UniqueIds(s)
    requires HasId(s, id)
    ensures
      var k := FindIndex(s, id);
      RemoveFromCart(s, id) == s[..k] + s[k + 1..]
  {
    var k := FindIndex(s, id);
    var pre, post := s[..k], s[k + 1..];
    NoIdInPrefix(s, id, k);
    NoIdInSuffix(s, id, k);
    SplitAt(s, k);
    RemoveAroundLine(pre, s[k], post, id);
  }

  /** Removing the id of a line in the middle drops that line and removes
      the id from both sides. */
  lemma RemoveAroundLine(pre: Cart, x: LineItem, post: Cart, id: string)
    requires x.id == id
    ensures RemoveFromCart((pre + [x]) + post, id) == RemoveFromCart(pre, id) + RemoveFromCart(post, id)
  {
    RemoveAppend(pre + [x], post, id);
    RemoveAppend(pre, [x], id);
    RemoveOwnLine(x, id);
  }

  lemma RemoveOwnLine(x: LineItem, id: string)
    requires x.id == id
    ensures RemoveFromCart([x], id) == []
  {
  }

  /** No line before the first match carries the id. */
  lemma NoIdInPrefix(s: Cart, id: string, k: int)
    requires HasId(s, id) && k == FindIndex(s, id)
    ensures !HasId(s[..k], id)
  {
    forall j | 0 <= j < k ensures s[..k][j].id != id { assert s[..k][j] == s[j]; }
  }

  /** In a cart without duplicate ids, no line after the match carries it. */
  lemma NoIdInSuffix(s: Cart, id: string, k: int)
    requires UniqueIds(s) && 0 <= k < |s| && s[k].id == id
    ensures !HasId(s[k + 1..], id)
  {
    var post := s[k + 1..];
    forall j | 0 <= j < |post| ensures post[j].id != id { assert post[j] == s[k + 1 + j]; }
  }

  /** Removal keeps the cart free of duplicate ids. */
  lemma RemovePreservesUniqueIds(s: Cart, id: string)
    requires UniqueIds(s)
    ensures UniqueIds(RemoveFromCart(s, id))
  {
    if HasId(s, id) {
      RemoveDeletesTheLine(s, id);
      var k := FindIndex(s, id);
      var r := s[..k] + s[k + 1..];
      forall i, j | 0 <= i < |r| && 0 <= j < |r| && r[i].id == r[j].id
        ensures i == j
      {
        var i' := if i < k then i else i + 1;
        var j' := if j < k then j else j + 1;
        assert r[i] == s[i'] && r[j] == s[j'];
      }
    }
  }

  /** Removal keeps every quantity positive. */
  lemma RemovePreservesPositiveQuantities(s: Cart, id: string)
    requires PositiveQuantities(s)
    ensures PositiveQuantities(RemoveFromCart(s, id))
  {
    var r := RemoveFromCart(s, id);
    forall i | 0 <= i < |r| ensures r[i].quantity > 0 {
      assert r[i] in r;
    }
  }

  /** Removing a product that was just added as a new line gives back the
      cart as it was before the add. */
  lemma RemoveUndoesFreshAdd(s: Cart, p: Product, qty: int)
    requires !HasId(s, p.id)
    ensures RemoveFromCart(AddToCart(s, p, qty), p.id) == s
  {
    assert AddToCart(s, p, qty) == s + [NewLine(p, qty)];
    RemoveAppend(s, [NewLine(p, qty)], p.id);
    assert RemoveFromCart([NewLine(p, qty)], p.id) == [];
  }
}
