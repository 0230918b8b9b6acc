/** Restoring the cart on startup from the persisted value. Reading the
    key-value store and `JSON.parse` are outside the model: the stored raw
    text is an input, and the parser is a parameter that either yields a
    JSON value or fails. */
module Restore {
  import opened Wrappers
  import opened LineItems

  /** The value a successful parse yields: a list of line items, or some
      other JSON value (`null`, a number, a string, an object). */
  datatype JsonValue = JList(items: Cart) | JNotList

  /** A stored raw text the source treats as "nothing stored": absent, or
      the empty string (which is falsy). */
  predicate NothingStored(raw: Option<string>) {
    raw == None || raw == Some("")
  }

  /** The restore step as the source writes it: whatever the parser yields
      becomes the item state, list or not. */
  function RestoreAsWritten(raw: Option<string>, parse: string -> Option<JsonValue>): (v: JsonValue)
    ensures NothingStored(raw) ==> v == JList([])
    ensures !NothingStored(raw) && parse(raw.value).None? ==> v == JList([])
    ensures !NothingStored(raw) && parse(raw.value).Some? ==> v == parse(raw.value).value
  {
    if NothingStored(raw) then JList([])
    else
      match parse(raw.value)
      case None => JList([])
      case Some(v) => v
  }

  /** A stored `null` is parsed successfully and becomes the item state, so
      the state is not a list and the subtotal's `reduce` fails on it. */
  lemma StoredNullIsNotACart(parse: string -> Option<JsonValue>)
    requires parse("null") == Some(JNotList)
    ensures !RestoreAsWritten(Some("null"), parse).JList?
  {
    assert !NothingStored(Some("null"));
  }

  /** The restore step as intended: the stored list when there is one,
      otherwise the empty cart. It never fails. */
  function Restore(raw: Option<string>, parse: string -> Option<JsonValue>): (r: Cart)
    ensures r == [] || (!NothingStored(raw) && parse(raw.value) == Some(JList(r)))
    ensures !NothingStored(raw) && parse(raw.value).Some? && parse(raw.value).value.JList? ==>
      r == parse(raw.value).value.items
    ensures NothingStored(raw) ==> r == []
    ensures !NothingStored(raw) && parse(raw.value).None? ==> r == []
    ensures !NothingStored(raw) && parse(raw.value) == Some(JNotList) ==> r == []
  {
    match RestoreAsWritten(raw, parse)
    case JList(items) => items
    case JNotList => []
  }

  /** The corrected restore agrees with the source's wherever the source
      yields a list, and differs only where the source yields a non-list. */
  lemma RestoreAgreesWithSource(raw: Option<string>, parse: string -> Option<JsonValue>)
    ensures RestoreAsWritten(raw, parse) == JList(Restore(raw, parse)) <==> RestoreAsWritten(raw, parse).JList?
  {
  }

  /** Restoring what was persisted gives back the same lines, in the same
      order, when the parser reads back what the serialiser wrote and the
      serialised text is not empty. */
  lemma PersistThenRestore(items: Cart, serialize: Cart -> string, parse: string -> Option<JsonValue>)
    requires serialize(items) != ""
    requires parse(serialize(items)) == Some(JList(items))
    ensures Restore(Some(serialize(items)), parse) == items
  {
  }
}
