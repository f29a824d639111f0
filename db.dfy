/**
 * The browser-side persistence helpers: a key-value store (`localStorage`)
 * holding the cart, the recently viewed products and arbitrary session
 * values as JSON text. JSON is modelled as an exact round trip: a stored
 * entry is either a value written by `JSON.stringify`, or text that does not
 * parse.
 */
module Db {
  import opened Wrappers
  import opened Domain
  import Lists

  const CartKey: string := "digital_store_cart"
  const RecentProductsKey: string := "digital_store_recent_products"

  /** How many recently viewed products are kept. */
  const MaxRecent: nat := 5

  /** The JSON values the store holds. */
  datatype Value =
    | Null
    | Bool(b: bool)
    | Num(n: int)
    | Str(s: string)
    | Item(item: CartItem)
    | Prod(product: Product)
    | Array(elems: seq<Value>)

  /** A stored string: the serialisation of a value, or text that is not valid JSON. */
  datatype Entry = Json(value: Value) | Raw(text: string)

  type Storage = map<string, Entry>

  /** The message of the `SyntaxError` that `JSON.parse` throws on text that is not JSON. */
  const ParseError: string := "Unexpected token in JSON"

  /** A stored value that is not an array of the expected records. */
  const ShapeError: string := "Stored value is not a list"

  function ItemValue(item: CartItem): Value {
    Item(item)
  }

  function ItemOf(v: Value): Option<CartItem> {
    if v.Item? then Some(v.item) else None
  }

  function ProductValue(p: Product): Value {
    Prod(p)
  }

  function ProductOf(v: Value): Option<Product> {
    if v.Prod? then Some(v.product) else None
  }

  /** `JSON.stringify` of an array of records. */
  function ListJson<T>(xs: seq<T>, wrap: T -> Value): (v: Value)
    ensures v.Array? && |v.elems| == |xs|
    ensures forall i :: 0 <= i < |xs| ==> v.elems[i] == wrap(xs[i])
  {
    Array(seq(|xs|, i requires 0 <= i < |xs| => wrap(xs[i])))
  }

  /** Reads back an array of records, or None when the value is not one. */
  function AsList<T>(v: Value, unwrap: Value -> Option<T>): (r: Option<seq<T>>)
    ensures r.Some? <==> v.Array? && forall i :: 0 <= i < |v.elems| ==> unwrap(v.elems[i]).Some?
    ensures r.Some? ==> |r.value| == |v.elems|
    ensures r.Some? ==> forall i :: 0 <= i < |v.elems| ==> unwrap(v.elems[i]) == Some(r.value[i])
  {
    if v.Array? && forall i :: 0 <= i < |v.elems| ==> unwrap(v.elems[i]).Some? then
      Some(seq(|v.elems|, i requires 0 <= i < |v.elems| && unwrap(v.elems[i]).Some? => unwrap(v.elems[i]).value))
    else None
  }

  /** Serialising records and reading them back gives the same records. */
  lemma ListJsonRoundTrip<T>(xs: seq<T>, wrap: T -> Value, unwrap: Value -> Option<T>)
    requires forall x :: unwrap(wrap(x)) == Some(x)
    ensures AsList(ListJson(xs, wrap), unwrap) == Some(xs)
  {
    var v := ListJson(xs, wrap);
    assert forall i :: 0 <= i < |xs| ==> unwrap(v.elems[i]) == Some(xs[i]);
    assert AsList(v, unwrap).Some?;
    var r := AsList(v, unwrap).value;
    assert forall i :: 0 <= i < |xs| ==> r[i] == xs[i];
    assert r == xs;
  }

  lemma CartJsonRoundTrip(items: seq<CartItem>)
    ensures AsList(ListJson(items, ItemValue), ItemOf) == Some(items)
  {
    ListJsonRoundTrip(items, ItemValue, ItemOf);
  }

  lemma ProductsJsonRoundTrip(ps: seq<Product>)
    ensures AsList(ListJson(ps, ProductValue), ProductOf) == Some(ps)
  {
    ListJsonRoundTrip(ps, ProductValue, ProductOf);
  }

  /**
   * `getCart` / `getRecentProducts`: `[]` without a window, for an absent key
   * or for an empty (falsy) string; otherwise the parsed list, which fails on
   * text that is not JSON.
   */
  function ReadList<T>(hasWindow: bool, storage: Storage, key: string, unwrap: Value -> Option<T>): (r: Result<seq<T>>)
    ensures !hasWindow || key !in storage ==> r == Ok([])
    ensures hasWindow && key in storage && storage[key].Raw? ==>
      r == if storage[key].text == "" then Ok([]) else Err(ParseError)
    ensures hasWindow && key in storage && storage[key].Json? ==>
      (r.Ok? <==> AsList(storage[key].value, unwrap).Some?) &&
      (r.Ok? ==> r.value == AsList(storage[key].value, unwrap).value)
  {
    if !hasWindow || key !in storage then Ok([])
    else match storage[key]
      case Raw(text) => if text == "" then Ok([]) else Err(ParseError)
      case Json(v) =>
        match AsList(v, unwrap)
        case Some(xs) => Ok(xs)
        case None => Err(ShapeError)
  }

  /** The store after `localStorage.setItem(key, JSON.stringify(v))`; unchanged without a window. */
  function Written(hasWindow: bool, storage: Storage, key: string, v: Value): (s: Storage)
    ensures hasWindow ==> key in s && s[key] == Json(v)
    ensures forall k :: k != key ==> (k in s <==> k in storage) && (k in s ==> s[k] == storage[k])
    ensures !hasWindow ==> s == storage
  {
    if hasWindow then storage[key := Json(v)] else storage
  }

  /** The store after `localStorage.removeItem(key)`; unchanged without a window. */
  function Removed(hasWindow: bool, storage: Storage, key: string): (s: Storage)
    ensures hasWindow ==> key !in s
    ensures forall k :: k != key ==> (k in s <==> k in storage) && (k in s ==> s[k] == storage[k])
    ensures !hasWindow ==> s == storage
  {
    if hasWindow then storage - {key} else storage
  }

  /** `getStoredValue(key, defaultValue)`: the default without a window or for an absent key. */
  function ReadValue(hasWindow: bool, storage: Storage, key: string, default: Value): (r: Result<Value>)
    ensures !hasWindow || key !in storage ==> r == Ok(default)
    ensures hasWindow && key in storage ==>
      r == if storage[key].Json? then Ok(storage[key].value) else Err(ParseError)
  {
    if !hasWindow || key !in storage then Ok(default)
    else match storage[key]
      case Json(v) => Ok(v)
      case Raw(_) => Err(ParseError)
  }

  /** Writing a list and reading it back gives the list, when there is a window. */
  lemma {:induction false} ReadListAfterWrite<T>(storage: Storage, key: string, xs: seq<T>,
                                                 wrap: T -> Value, unwrap: Value -> Option<T>)
    requires forall x :: unwrap(wrap(x)) == Some(x)
    ensures ReadList(true, Written(true, storage, key, ListJson(xs, wrap)), key, unwrap) == Ok(xs)
  {
    ListJsonRoundTrip(xs, wrap, unwrap);
  }

  /** After `clearCart` the cart reads as empty. */
  lemma ReadCartAfterRemove(hasWindow: bool, storage: Storage)
    ensures ReadList(hasWindow, Removed(hasWindow, storage, CartKey), CartKey, ItemOf) ==
      if hasWindow then Ok([]) else ReadList(hasWindow, storage, CartKey, ItemOf)
  {
  }

  /** `setStoredValue` then `getStoredValue` gives the value; `removeStoredValue` brings back the default. */
  lemma StoredValueRoundTrip(storage: Storage, key: string, v: Value, default: Value)
    ensures ReadValue(true, Written(true, storage, key, v), key, default) == Ok(v)
    ensures ReadValue(true, Removed(true, storage, key), key, default) == Ok(default)
  {
  }

  // ---------------------------------------------------------------------------
  // Recently viewed products

  /** The `filter` predicate `p => p.id !== id`. */
  function OtherThan(id: string): Product -> bool {
    (q: Product) => q.id != id
  }

  /**
   * `[product, ...list.filter(p => p.id !== product.id)].slice(0, 5)`: the
   * product first, then the other entries in their order, at most five.
   */
  function PushRecent(list: seq<Product>, p: Product): (r: seq<Product>)
    ensures 1 <= |r| <= MaxRecent && r[0] == p
    ensures forall i :: 1 <= i < |r| ==> r[i].id != p.id
    ensures Lists.SubsequenceOf(r[1..], list)
    ensures Lists.UniqueBy(list, ProductId) ==> Lists.UniqueBy(r, ProductId)
    ensures var others := Lists.Filter(list, OtherThan(p.id));
      |r| == (if 1 + |others| < MaxRecent then 1 + |others| else MaxRecent) && r[1..] == others[..|r| - 1]
  {
    var others := Lists.Filter(list, OtherThan(p.id));
    var updated := [p] + others;
    var r := updated[..if |updated| < MaxRecent then |updated| else MaxRecent];
    PushRecentFacts(list, p, others, r);
    r
  }

  /** While the list has room, pushing a product keeps every entry with another id. */
  lemma PushRecentKeepsOthersWhenRoom(list: seq<Product>, p: Product)
    requires |list| < MaxRecent
    ensures forall q :: q in list && q.id != p.id ==> q in PushRecent(list, p)
  {
    var others := Lists.Filter(list, OtherThan(p.id));
    var r := PushRecent(list, p);
    assert r[1..] == others;
    forall q | q in list && q.id != p.id
      ensures q in r
    {
      assert q in others;
    }
  }

  /** The proof of `PushRecent`'s contract, from the properties of `filter` and of prefixes. */
  lemma PushRecentFacts(list: seq<Product>, p: Product, others: seq<Product>, r: seq<Product>)
    requires forall i :: 0 <= i < |others| ==> others[i].id != p.id
    requires Lists.SubsequenceOf(others, list)
    requires 1 <= |r| <= 1 + |others| && r == ([p] + others)[..|r|]
    ensures forall i :: 1 <= i < |r| ==> r[i].id != p.id
    ensures Lists.SubsequenceOf(r[1..], list)
    ensures Lists.UniqueBy(list, ProductId) ==> Lists.UniqueBy(r, ProductId)
  {
    var kept := r[1..];
    assert kept == others[..|kept|];
    Lists.PrefixIsSubsequence(kept, others);
    Lists.SubsequenceTrans(kept, others, list);
    if Lists.UniqueBy(list, ProductId) {
      Lists.SubsequenceKeepsUnique(kept, list, ProductId);
      assert forall j :: 0 <= j < |kept| ==> ProductId(kept[j]) != ProductId(p);
      Lists.UniqueByCons(p, kept, ProductId);
      assert [p] + kept == r;
    }
  }

  /** Pushing the product that is already first, onto at most five unique entries, changes nothing. */
  lemma PushRecentAgain(list: seq<Product>, p: Product)
    requires list != [] && list[0] == p && |list| <= MaxRecent && Lists.UniqueBy(list, ProductId)
    ensures PushRecent(list, p) == list
  {
    var rest := list[1..];
    assert list == [p] + rest;
    Lists.UniqueByCons(p, rest, ProductId);
    assert forall i :: 0 <= i < |rest| ==> OtherThan(p.id)(rest[i]);
    Lists.FilterAll(rest, OtherThan(p.id));
  }

  // ---------------------------------------------------------------------------
  // The store

  /** `localStorage` and whether a window exists (false during server rendering). */
  class ClientDb {
    const hasWindow: bool
    var storage: Storage

    constructor (hasWindow: bool, storage: Storage)
      ensures this.hasWindow == hasWindow && this.storage == storage
    {
      this.hasWindow := hasWindow;
      this.storage := storage;
    }

    /** `getCart()`. */
    method GetCart() returns (r: Result<seq<CartItem>>)
      ensures r == ReadList(hasWindow, storage, CartKey, ItemOf)
      ensures !hasWindow || CartKey !in storage ==> r == Ok([])
    {
      if !hasWindow {
        return Ok([]);
      }
      if CartKey !in storage {
        return Ok([]);
      }
      match storage[CartKey]
      case Raw(text) =>
        r := if text == "" then Ok([]) else Err(ParseError);
      case Json(v) =>
        var items := AsList(v, ItemOf);
        r := if items.Some? then Ok(items.value) else Err(ShapeError);
    }

    /** `saveCart(items)`. */
    method SaveCart(items: seq<CartItem>)
      modifies this
      ensures storage == Written(hasWindow, old(storage), CartKey, ListJson(items, ItemValue))
    {
      if hasWindow {
        storage := storage[CartKey := Json(ListJson(items, ItemValue))];
      }
    }

    /** `clearCart()`. */
    method ClearCart()
      modifies this
      ensures storage == Removed(hasWindow, old(storage), CartKey)
    {
      if hasWindow {
        storage := storage - {CartKey};
      }
    }

    /** `getRecentProducts()`. */
    method GetRecentProducts() returns (r: Result<seq<Product>>)
      ensures r == ReadList(hasWindow, storage, RecentProductsKey, ProductOf)
    {
      r := ReadList(hasWindow, storage, RecentProductsKey, ProductOf);
    }

    /**
     * `addRecentProduct(product)`: reads the list (which may fail to parse),
     * pushes the product and writes the list back.
     */
    method AddRecentProduct(p: Product) returns (r: Result<seq<Product>>)
      modifies this
      ensures !hasWindow ==> r == Ok([]) && storage == old(storage)
      ensures hasWindow ==> var before := ReadList(true, old(storage), RecentProductsKey, ProductOf);
        if before.Ok? then
          && r == Ok(PushRecent(before.value, p))
          && storage == old(storage)[RecentProductsKey := Json(ListJson(r.value, ProductValue))]
        else r == before && storage == old(storage)
    {
      if !hasWindow {
        return Ok([]);
      }
      var recent := GetRecentProducts();
      if recent.Err? {
        return recent;
      }
      var updated := PushRecent(recent.value, p);
      storage := storage[RecentProductsKey := Json(ListJson(updated, ProductValue))];
      r := Ok(updated);
    }

    /** `getStoredValue(key, defaultValue)`. */
    method GetStoredValue(key: string, default: Value) returns (r: Result<Value>)
      ensures r == ReadValue(hasWindow, storage, key, default)
    {
      if !hasWindow || key !in storage {
        return Ok(default);
      }
      r := if storage[key].Json? then Ok(storage[key].value) else Err(ParseError);
    }

    /** `setStoredValue(key, value)`. */
    method SetStoredValue(key: string, v: Value)
      modifies this
      ensures storage == Written(hasWindow, old(storage), key, v)
    {
      if hasWindow {
        storage := storage[key := Json(v)];
      }
    }

    /** `removeStoredValue(key)`. */
    method RemoveStoredValue(key: string)
      modifies this
      ensures storage == Removed(hasWindow, old(storage), key)
    {
      if hasWindow {
        storage := storage - {key};
      }
    }
  }
}
