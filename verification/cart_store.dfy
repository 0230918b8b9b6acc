/** The cart store as a whole: the mutations as actions, their effect on
    the derived values, runs of actions, and the write-through of the item
    list to the persisted value after each change. */
module CartStore {
  import opened Wrappers
  import opened LineItems
  import opened CartOps
  import opened Totals
  import opened Restore

  /** The calls consumers make on the store. */
  datatype Action = Add(product: Product, qty: int) | RemoveId(id: string) | Clear

  /** One `setItems` update. */
  function Apply(s: Cart, a: Action): (r: Cart)
    ensures a.Clear? ==> r == []
    ensures a.RemoveId? ==> !HasId(r, a.id)
    ensures a.Add? ==> HasId(r, a.product.id)
  {
    match a
    case Add(p, qty) => AddToCart(s, p, qty)
    case RemoveId(id) => RemoveFromCart(s, id)
    case Clear => ClearCart(s)
  }

  /** The updates applied in order. */
  function Run(s: Cart, actions: seq<Action>): (r: Cart)
    decreases |actions|
  {
    if |actions| == 0 then s else Run(Apply(s, actions[0]), actions[1..])
  }

  /** Every add in the run asks for a positive amount. */
  predicate PositiveAdds(actions: seq<Action>) {
    forall i :: 0 <= i < |actions| && actions[i].Add? ==> actions[i].qty > 0
  }

  // ---------------------------------------------------------------------
  // Invariants over any run of actions

  /** One update keeps the cart free of duplicate ids. */
  lemma ApplyPreservesUniqueIds(s: Cart, a: Action)
    requires UniqueIds(s)
    ensures UniqueIds(Apply(s, a))
  {
    match a
    case Add(p, qty) => AddPreservesUniqueIds(s, p, qty);
    case RemoveId(id) => RemovePreservesUniqueIds(s, id);
    case Clear =>
  }

  /** Whatever the sequence of adds, removes and clears, the cart never
      holds two lines with the same product id. */
  lemma {:induction false} RunPreservesUniqueIds(s: Cart, actions: seq<Action>)
    requires UniqueIds(s)
    ensures UniqueIds(Run(s, actions))
    decreases |actions|
  {
    if |actions| > 0 {
      ApplyPreservesUniqueIds(s, actions[0]);
      RunPreservesUniqueIds(Apply(s, actions[0]), actions[1..]);
    }
  }

  /** Starting from any cart with positive quantities, a run whose adds all
      ask for positive amounts keeps every quantity positive. */
  lemma {:induction false} RunPreservesPositiveQuantities(s: Cart, actions: seq<Action>)
    requires PositiveQuantities(s)
    requires PositiveAdds(actions)
    ensures PositiveQuantities(Run(s, actions))
    decreases |actions|
  {
    if |actions| > 0 {
      match actions[0] {
        case Add(p, qty) => AddPreservesPositiveQuantities(s, p, qty);
        case RemoveId(id) => RemovePreservesPositiveQuantities(s, id);
        case Clear =>
      }
      RunPreservesPositiveQuantities(Apply(s, actions[0]), actions[1..]);
    }
  }

  // ---------------------------------------------------------------------
  // Effect of the mutations on the derived values

  /** Adding raises the count by exactly the amount added. */
  lemma AddRaisesCount(s: Cart, p: Product, qty: int)
    ensures Count(AddToCart(s, p, qty)) == Count(s) + qty
  {
    if HasId(s, p.id) {
      var k := FindIndex(s, p.id);
      AddExistingIsUpdate(s, p, qty);
      SumUpdate(s, k, Bump(s[k], qty), Quantity);
    } else {
      AddNewIsAppend(s, p, qty);
      SumSnoc(s, NewLine(p, qty), Quantity);
    }
  }

  /** Adding raises the subtotal by the amount times the price the cart
      holds for that product: the captured price of the existing line, or
      the product's price for a new line. */
  lemma AddRaisesSubtotal(s: Cart, p: Product, qty: int)
    ensures HasId(s, p.id) ==>
      Subtotal(AddToCart(s, p, qty)) == Subtotal(s) + s[FindIndex(s, p.id)].priceCents * qty
    ensures !HasId(s, p.id) ==>
      Subtotal(AddToCart(s, p, qty)) == Subtotal(s) + p.priceCents * qty
  {
    if HasId(s, p.id) {
      AddExistingRaisesSubtotal(s, p, qty);
    } else {
      AddNewRaisesSubtotal(s, p, qty);
    }
  }

  lemma AddExistingRaisesSubtotal(s: Cart, p: Product, qty: int)
    requires HasId(s, p.id)
    ensures Subtotal(AddToCart(s, p, qty)) == Subtotal(s) + s[FindIndex(s, p.id)].priceCents * qty
  {
    var k := FindIndex(s, p.id);
    var x := Bump(s[k], qty);
    AddExistingIsUpdate(s, p, qty);
    SumUpdate(s, k, x, LineTotal);
    LineTotalRaise(s[k], qty);
  }

  /** Raising a line's quantity by `qty` raises its total by price times `qty`. */
  lemma LineTotalRaise(x: LineItem, qty: int)
    ensures LineTotal(Bump(x, qty)) == LineTotal(x) + x.priceCents * qty
  {
    var c, q := x.priceCents, x.quantity;
    assert c * (q + qty) == c * q + c * qty;
  }

  lemma AddNewRaisesSubtotal(s: Cart, p: Product, qty: int)
    requires !HasId(s, p.id)
    ensures Subtotal(AddToCart(s, p, qty)) == Subtotal(s) + p.priceCents * qty
  {
    AddNewIsAppend(s, p, qty);
    SumSnoc(s, NewLine(p, qty), LineTotal);
  }

  /** In a cart without duplicate ids, removing a present product lowers
      the count by that line's quantity and the subtotal by that line's
      price times quantity. */
  lemma RemoveLowersTotals(s: Cart, id: string)
    requires UniqueIds(s)
    requires HasId(s, id)
    ensures
      var k := FindIndex(s, id);
      && Count(RemoveFromCart(s, id)) == Count(s) - s[k].quantity
      && Subtotal(RemoveFromCart(s, id)) == Subtotal(s) - s[k].priceCents * s[k].quantity
  {
    var k := FindIndex(s, id);
    RemoveDeletesTheLine(s, id);
    SumRemoveAt(s, k, Quantity);
    SumRemoveAt(s, k, LineTotal);
  }

  /** After clearing, every derived value is zero. */
  lemma ClearZeroesTotals(s: Cart)
    ensures
      var c := ClearCart(s);
      Subtotal(c) == 0 && Tax(c) == 0 && Total(c) == 0 && Count(c) == 0
  {
    var c := ClearCart(s);
    assert Subtotal(c) == 0 && Count(c) == 0;
    TaxCharacterisation(0, 0);
    TotalIsSubtotalPlusTax(0);
  }

  // ---------------------------------------------------------------------
  // Worked examples

  /** A line priced 10.00 added once with the default amount, as the
      catalog and detail views do, then twice more: one line of quantity 3,
      subtotal 30.00, tax 3.00, total 33.00. */
  lemma ScenarioReAdd(id: string, title: string)
    ensures
      var a := Product(id, title, 1000, None);
      var s := Run([], [Add(a, DefaultQuantity), Add(a, 2)]);
      && s == [NewLine(a, 3)]
      && Subtotal(s) == 3000 && Tax(s) == 300 && Total(s) == 3300 && Count(s) == 3
  {
    var a := Product(id, title, 1000, None);
    var acts := [Add(a, DefaultQuantity), Add(a, 2)];
    AddTwiceMerges(a, 1, 2);
    var s := Run([], acts);
    assert acts[1..][1..] == [];
    assert s == Run(AddToCart([], a, 1), acts[1..]);
    assert s == Run(AddToCart(AddToCart([], a, 1), a, 2), []);
    assert s == [NewLine(a, 3)];
    SumSingleton(NewLine(a, 3), LineTotal);
    SumSingleton(NewLine(a, 3), Quantity);
    TaxCharacterisation(3000, 300);
    TotalIsSubtotalPlusTax(3000);
  }

  /** Lines 19.99 x 1 and 5.00 x 3: subtotal 34.99, tax 3.50 (a tenth is
      3.499, rounded once), total 38.49. */
  lemma ScenarioTwoLines()
    ensures
      var x := LineItem("a", "A", 1999, None, 1);
      var y := LineItem("b", "B", 500, None, 3);
      && Subtotal([x, y]) == 3499 && Tax([x, y]) == 350 && Total([x, y]) == 3849
  {
    var x := LineItem("a", "A", 1999, None, 1);
    var y := LineItem("b", "B", 500, None, 3);
    assert [x][..0] == [];
    assert [x, y][..1] == [x];
    assert Subtotal([x, y]) == 3499 by {
      assert Sum([x], LineTotal) == 1999;
      assert Sum([x, y], LineTotal) == Sum([x], LineTotal) + 1500;
    }
    TaxCharacterisation(3499, 350);
    TotalIsSubtotalPlusTax(3499);
  }

  // ---------------------------------------------------------------------
  // Write-through persistence

  /** The in-memory item list together with the last persisted raw text. */
  datatype Store = Store(items: Cart, persisted: Option<string>)

  /** One update followed by the write-through effect. A failed write
      (storage unavailable, quota exceeded) is swallowed: the in-memory
      items change anyway and the persisted text stays as it was. */
  function Dispatch(st: Store, a: Action, serialize: Cart -> string, writeOk: bool): (r: Store)
    ensures r.items == Apply(st.items, a)
    ensures writeOk ==> r.persisted == Some(serialize(r.items))
    ensures !writeOk ==> r.persisted == st.persisted
  {
    var next := Apply(st.items, a);
    Store(next, if writeOk then Some(serialize(next)) else st.persisted)
  }

  /** The store on startup, with the corrected restore: the restored items,
      and the persisted text that the first write-through then replaces
      with those items (or leaves as it was when that write fails). */
  function Start(raw: Option<string>, parse: string -> Option<JsonValue>, serialize: Cart -> string, writeOk: bool): (r: Store)
    ensures r.items == Restore.Restore(raw, parse)
    ensures r.items == [] || (!NothingStored(raw) && parse(raw.value) == Some(JList(r.items)))
    ensures !NothingStored(raw) && parse(raw.value).Some? && parse(raw.value).value.JList? ==>
      r.items == parse(raw.value).value.items
    ensures writeOk ==> r.persisted == Some(serialize(r.items))
    ensures !writeOk ==> r.persisted == raw
  {
    var items := Restore.Restore(raw, parse);
    Store(items, if writeOk then Some(serialize(items)) else raw)
  }

  /** After a successful write, a restart restores exactly the current
      items, when the parser reads back what the serialiser wrote. */
  lemma RestartObservesLatestItems(st: Store, a: Action, serialize: Cart -> string, parse: string -> Option<JsonValue>)
    requires forall c :: serialize(c) != "" && parse(serialize(c)) == Some(JList(c))
    ensures
      var next := Dispatch(st, a, serialize, true);
      Restore.Restore(next.persisted, parse) == next.items
  {
    var next := Dispatch(st, a, serialize, true);
    PersistThenRestore(next.items, serialize, parse);
  }
}
