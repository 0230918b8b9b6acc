/** Products, cart line items, and the lookups and invariants over an
    ordered list of line items. Prices are integer cents. */
module LineItems {
  import opened Wrappers

  /** A product as the catalog hands it to the cart: the fields the cart
      keeps. `id` is the product's `_id`. */
  datatype Product = Product(id: string, title: string, priceCents: nat, image: Option<string>)

  /** One line of the cart: a product captured at add time plus a quantity.
      The quantity is an unbounded integer because the cart never checks
      the amount it is asked to add. */
  datatype LineItem = LineItem(id: string, title: string, priceCents: nat, image: Option<string>, quantity: int)

  type Cart = seq<LineItem>

  /** The quantity `addToCart` uses when the caller gives none. */
  const DefaultQuantity: int := 1

  /** The line `{...product, quantity: qty}` appended for a product not yet
      in the cart. */
  function NewLine(p: Product, qty: int): (x: LineItem)
    ensures x.id == p.id && x.title == p.title && x.priceCents == p.priceCents && x.image == p.image
    ensures x.quantity == qty
  {
    LineItem(p.id, p.title, p.priceCents, p.image, qty)
  }

  /** Some line of `s` carries product id `id`. */
  predicate HasId(s: Cart, id: string) {
    exists i :: 0 <= i < |s| && s[i].id == id
  }

  /** The cart invariant: no two lines share a product id. */
  predicate UniqueIds(s: Cart) {
    forall i, j :: 0 <= i < |s| && 0 <= j < |s| && s[i].id == s[j].id ==> i == j
  }

  /** Every line has a positive quantity. */
  predicate PositiveQuantities(s: Cart) {
    forall i :: 0 <= i < |s| ==> s[i].quantity > 0
  }

  /** Array.prototype.findIndex on the id: the index of the FIRST line with
      product id `id`, or -1 when there is none. */
  function FindIndex(s: Cart, id: string): (r: int)
    ensures -1 <= r < |s|
    ensures r == -1 <==> !HasId(s, id)
    ensures r != -1 ==> s[r].id == id && forall j :: 0 <= j < r ==> s[j].id != id
  {
    if |s| == 0 then -1
    else if s[0].id == id then 0
    else
      var k := FindIndex(s[1..], id);
      assert forall j :: 1 <= j < |s| ==> s[j] == s[1..][j - 1];
      if k == -1 then -1 else k + 1
  }

  /** In a cart without duplicate ids, the line found for `id` is the only
      line with that id. */
  lemma FindIndexIsOnlyMatch(s: Cart, id: string)
    requires UniqueIds(s)
    requires HasId(s, id)
    ensures forall j :: 0 <= j < |s| && s[j].id == id ==> j == FindIndex(s, id)
  {
  }

  /** A cart is its prefix before `i`, line `i`, and its suffix after `i`. */
  lemma SplitAt(s: Cart, i: int)
    requires 0 <= i < |s|
    ensures s == (s[..i] + [s[i]]) + s[i + 1..]
  {
  }
}
