/**
 * The shopping cart hook: a list of cart lines keyed by product id, an open
 * flag for the cart drawer, and the derived item count, subtotal, fee and
 * total. Every change of the lines is saved to the browser store and the
 * item count is recomputed, as the hook's save effect does.
 */
module Cart {
  import opened Wrappers
  import opened Domain
  import Lists
  import Utils
  import Db

  /** `item.quantity || 1`: a zero quantity counts as one. */
  function LineQuantity(item: CartItem): int {
    if item.quantity == 0 then 1 else item.quantity
  }

  /** `item.price * (item.quantity || 1)`. */
  function LineTotal(item: CartItem): int {
    item.price * LineQuantity(item)
  }

  /** `items.reduce((count, item) => count + (item.quantity || 1), 0)`. */
  function ItemCount(items: seq<CartItem>): int {
    Lists.SumBy(items, LineQuantity)
  }

  /** `items.reduce((total, item) => total + item.price * (item.quantity || 1), 0)`. */
  function Subtotal(items: seq<CartItem>): int {
    Lists.SumBy(items, LineTotal)
  }

  /** The fee shown with the cart: the fee of the subtotal. */
  function CartFee(items: seq<CartItem>): int {
    Utils.TransactionFee(Subtotal(items))
  }

  /** The total shown with the cart. */
  function CartTotal(items: seq<CartItem>): int {
    Utils.Total(Subtotal(items))
  }

  predicate PositiveQuantities(items: seq<CartItem>) {
    forall i :: 0 <= i < |items| ==> items[i].quantity >= 1
  }

  predicate UniqueIds(items: seq<CartItem>) {
    Lists.UniqueBy(items, ItemId)
  }

  /** `items.find(item => item.id === id)` finds something. */
  predicate HasId(items: seq<CartItem>, id: string) {
    exists i :: 0 <= i < |items| && items[i].id == id
  }

  /** The line `addItem` appends for a product not yet in the cart. */
  function NewLine(p: Product, quantity: int): (item: CartItem)
    ensures item.id == p.id && item.name == p.name && item.description == p.description
    ensures item.price == UnitPrice(p) && item.quantity == quantity
    ensures item.priceId.Some? <==> p.defaultPrice.Some?
    ensures item.image.Some? <==> p.images.Some? && |p.images.value| > 0
  {
    CartItem(
      p.id, p.name, p.description, UnitPrice(p),
      if p.defaultPrice.Some? then Some(p.defaultPrice.value.id) else None,
      if p.images.Some? && |p.images.value| > 0 then Some(p.images.value[0]) else None,
      quantity)
  }

  /** An existing line after adding `quantity` more: `(item.quantity || 1) + quantity`. */
  function Bumped(item: CartItem, quantity: int): CartItem {
    item.(quantity := LineQuantity(item) + quantity)
  }

  /**
   * The update `addItem` applies: a product already in the cart gets its
   * quantity increased on every line with its id, and no line is added;
   * otherwise a new line is appended.
   */
  function AddLine(items: seq<CartItem>, p: Product, quantity: int): (r: seq<CartItem>)
    ensures HasId(items, p.id) ==> |r| == |items|
    ensures !HasId(items, p.id) ==> r == items + [NewLine(p, quantity)]
    ensures |r| >= |items| && forall i :: 0 <= i < |items| ==> r[i].id == items[i].id
    ensures forall i :: 0 <= i < |items| && items[i].id != p.id ==> r[i] == items[i]
    ensures forall i :: 0 <= i < |items| && items[i].id == p.id ==>
      r[i].quantity == LineQuantity(items[i]) + quantity && r[i] == items[i].(quantity := r[i].quantity)
  {
    if HasId(items, p.id) then
      seq(|items|, i requires 0 <= i < |items| => if items[i].id == p.id then Bumped(items[i], quantity) else items[i])
    else items + [NewLine(p, quantity)]
  }

  /** With unique ids, the add changes exactly the one line carrying the product's id. */
  lemma AddLineIsUpdate(items: seq<CartItem>, p: Product, quantity: int, k: int)
    requires UniqueIds(items) && 0 <= k < |items| && items[k].id == p.id
    ensures AddLine(items, p, quantity) == items[k := Bumped(items[k], quantity)]
  {
    var r := AddLine(items, p, quantity);
    forall i | 0 <= i < |items| ensures r[i] == items[k := Bumped(items[k], quantity)][i] {
      if i != k {
        assert ItemId(items[i]) != ItemId(items[k]);
      }
    }
  }

  /** Adding keeps ids unique. */
  lemma AddLineKeepsUnique(items: seq<CartItem>, p: Product, quantity: int)
    requires UniqueIds(items)
    ensures UniqueIds(AddLine(items, p, quantity))
  {
    var r := AddLine(items, p, quantity);
    if !HasId(items, p.id) {
      forall i, j | 0 <= i < j < |r| ensures ItemId(r[i]) != ItemId(r[j]) {
        if j == |items| {
          assert r[i] == items[i];
        } else {
          assert r[i] == items[i] && r[j] == items[j];
        }
      }
    }
  }

  /** Adding at least one keeps every quantity at least one. */
  lemma AddLinePositive(items: seq<CartItem>, p: Product, quantity: int)
    requires PositiveQuantities(items) && quantity >= 1
    ensures PositiveQuantities(AddLine(items, p, quantity))
  {
  }

  /** Adding to the line at `k` raises the count by `quantity` and the subtotal by `quantity` unit prices. */
  lemma AddExistingTotals(items: seq<CartItem>, p: Product, quantity: int, k: int)
    requires UniqueIds(items) && 0 <= k < |items| && items[k].id == p.id
    requires items[k].quantity >= 1 && quantity >= 1
    ensures ItemCount(AddLine(items, p, quantity)) == ItemCount(items) + quantity
    ensures Subtotal(AddLine(items, p, quantity)) == Subtotal(items) + quantity * items[k].price
  {
    AddLineIsUpdate(items, p, quantity, k);
    var b := Bumped(items[k], quantity);
    assert LineQuantity(b) == LineQuantity(items[k]) + quantity;
    Lists.SumByUpdate(items, k, b, LineQuantity);
    assert LineTotal(b) == LineTotal(items[k]) + quantity * items[k].price by {
      assert LineTotal(b) == items[k].price * (items[k].quantity + quantity);
    }
    Lists.SumByUpdate(items, k, b, LineTotal);
  }

  /** Adding a new product raises the count by `quantity` and the subtotal by `quantity` unit prices. */
  lemma AddNewTotals(items: seq<CartItem>, p: Product, quantity: int)
    requires !HasId(items, p.id) && quantity >= 1
    ensures ItemCount(AddLine(items, p, quantity)) == ItemCount(items) + quantity
    ensures Subtotal(AddLine(items, p, quantity)) == Subtotal(items) + quantity * UnitPrice(p)
  {
    Lists.SumByAppend(items, NewLine(p, quantity), LineQuantity);
    Lists.SumByAppend(items, NewLine(p, quantity), LineTotal);
  }

  /**
   * With unique ids and quantities of at least one, adding `quantity >= 1`
   * raises the item count by exactly `quantity`, and the subtotal by
   * `quantity` times the unit price of the line that grows.
   */
  lemma AddLineTotals(items: seq<CartItem>, p: Product, quantity: int)
    requires UniqueIds(items) && PositiveQuantities(items) && quantity >= 1
    ensures ItemCount(AddLine(items, p, quantity)) == ItemCount(items) + quantity
    ensures !HasId(items, p.id) ==>
      Subtotal(AddLine(items, p, quantity)) == Subtotal(items) + quantity * UnitPrice(p)
    ensures forall k :: 0 <= k < |items| && items[k].id == p.id ==>
      Subtotal(AddLine(items, p, quantity)) == Subtotal(items) + quantity * items[k].price
  {
    if HasId(items, p.id) {
      var k :| 0 <= k < |items| && items[k].id == p.id;
      AddExistingTotals(items, p, quantity, k);
      forall k' | 0 <= k' < |items| && items[k'].id == p.id
        ensures Subtotal(AddLine(items, p, quantity)) == Subtotal(items) + quantity * items[k'].price
      {
        AddExistingTotals(items, p, quantity, k');
      }
    } else {
      AddNewTotals(items, p, quantity);
    }
  }

  /** The `filter` predicate `item => item.id !== id`. */
  function OtherThan(id: string): CartItem -> bool {
    (item: CartItem) => item.id != id
  }

  /**
   * `items.filter(item => item.id !== id)`: every line with the id dropped,
   * the others kept in order; an absent id changes nothing.
   */
  function RemoveLine(items: seq<CartItem>, id: string): (r: seq<CartItem>)
    ensures forall i :: 0 <= i < |r| ==> r[i].id != id
    ensures forall x :: x in r <==> x in items && x.id != id
    ensures Lists.SubsequenceOf(r, items)
    ensures !HasId(items, id) ==> r == items
    ensures PositiveQuantities(items) ==> PositiveQuantities(r)
    ensures UniqueIds(items) ==> UniqueIds(r)
  {
    var r := Lists.Filter(items, OtherThan(id));
    RemoveLineFacts(items, id, r);
    r
  }

  /** The proof of `RemoveLine`'s contract from the properties of `filter`. */
  lemma RemoveLineFacts(items: seq<CartItem>, id: string, r: seq<CartItem>)
    requires r == Lists.Filter(items, OtherThan(id))
    ensures !HasId(items, id) ==> r == items
    ensures PositiveQuantities(items) ==> PositiveQuantities(r)
    ensures UniqueIds(items) ==> UniqueIds(r)
  {
    if !HasId(items, id) {
      Lists.FilterAll(items, OtherThan(id));
    }
    assert forall i :: 0 <= i < |r| ==> r[i] in r;
    if UniqueIds(items) {
      Lists.SubsequenceKeepsUnique(r, items, ItemId);
    }
  }

  /** `items.map(item => item.id === id ? {...item, quantity} : item)`. */
  function SetLineQuantity(items: seq<CartItem>, id: string, quantity: int): (r: seq<CartItem>)
    ensures |r| == |items|
    ensures forall i :: 0 <= i < |items| ==> r[i] == if items[i].id == id then items[i].(quantity := quantity) else items[i]
  {
    seq(|items|, i requires 0 <= i < |items| => if items[i].id == id then items[i].(quantity := quantity) else items[i])
  }

  /** Setting a quantity never adds a line or changes an id, and keeps the invariants. */
  lemma SetLineQuantityKeeps(items: seq<CartItem>, id: string, quantity: int)
    ensures forall i :: 0 <= i < |items| ==> SetLineQuantity(items, id, quantity)[i].id == items[i].id
    ensures UniqueIds(items) ==> UniqueIds(SetLineQuantity(items, id, quantity))
    ensures PositiveQuantities(items) && quantity >= 1 ==> PositiveQuantities(SetLineQuantity(items, id, quantity))
  {
    var r := SetLineQuantity(items, id, quantity);
    if UniqueIds(items) {
      forall i, j | 0 <= i < j < |r| ensures ItemId(r[i]) != ItemId(r[j]) {
        assert ItemId(r[i]) == ItemId(items[i]) && ItemId(r[j]) == ItemId(items[j]);
      }
    }
  }

  /** With quantities of at least one, the count covers every line. */
  lemma CountCoversLines(items: seq<CartItem>)
    requires PositiveQuantities(items)
    ensures ItemCount(items) >= |items|
  {
    Lists.SumByAtLeastLength(items, LineQuantity);
  }

  /** The cart's fee and total agree with the fee rules: the total is the subtotal plus 5%, rounded half up. */
  lemma CartTotalsAgree(items: seq<CartItem>)
    ensures CartTotal(items) == Subtotal(items) + CartFee(items)
    ensures 20 * CartTotal(items) - 10 <= 21 * Subtotal(items) < 20 * CartTotal(items) + 10
  {
  }

  /** `{ items, isOpen, itemCount }` shared through the cart context. */
  class CartStore {
    var items: seq<CartItem>
    var isOpen: bool
    var itemCount: int
    const db: Db.ClientDb

    /** The stored count is the count of the lines. */
    ghost predicate Valid()
      reads this
    {
      itemCount == ItemCount(items)
    }

    constructor (db: Db.ClientDb)
      ensures items == [] && !isOpen && itemCount == 0 && this.db == db
      ensures Valid()
    {
      items := [];
      isOpen := false;
      itemCount := 0;
      this.db := db;
    }

    /** The save effect: `saveCart(items)` and the recount. */
    method Persist()
      modifies this, db
      ensures items == old(items) && isOpen == old(isOpen) && Valid()
      ensures db.storage == Db.Written(db.hasWindow, old(db.storage), Db.CartKey, Db.ListJson(items, Db.ItemValue))
    {
      db.SaveCart(items);
      itemCount := ItemCount(items);
    }

    /**
     * The load effect: a saved cart that is not empty replaces the lines;
     * a stored cart that does not parse fails.
     */
    method Hydrate() returns (saved: Result<seq<CartItem>>)
      requires Valid()
      modifies this, db
      ensures Valid() && isOpen == old(isOpen)
      ensures saved == Db.ReadList(db.hasWindow, old(db.storage), Db.CartKey, Db.ItemOf)
      ensures saved.Ok? && saved.value != [] ==>
        items == saved.value &&
        db.storage == Db.Written(db.hasWindow, old(db.storage), Db.CartKey, Db.ListJson(items, Db.ItemValue))
      ensures saved.Err? || saved.value == [] ==> items == old(items) && db.storage == old(db.storage)
    {
      saved := db.GetCart();
      if saved.Ok? && |saved.value| > 0 {
        items := saved.value;
        Persist();
      }
    }

    /** `addItem(product, quantity)`: adds the product and opens the drawer. */
    method AddItem(p: Product, quantity: int)
      requires Valid()
      modifies this, db
      ensures items == AddLine(old(items), p, quantity) && isOpen && Valid()
      ensures db.storage == Db.Written(db.hasWindow, old(db.storage), Db.CartKey, Db.ListJson(items, Db.ItemValue))
      ensures old(UniqueIds(items)) ==> UniqueIds(items)
      ensures old(UniqueIds(items) && PositiveQuantities(items)) && quantity >= 1 ==>
        itemCount == old(itemCount) + quantity && PositiveQuantities(items)
    {
      if UniqueIds(items) {
        AddLineKeepsUnique(items, p, quantity);
        if PositiveQuantities(items) && quantity >= 1 {
          AddLineTotals(items, p, quantity);
          AddLinePositive(items, p, quantity);
        }
      }
      items := AddLine(items, p, quantity);
      Persist();
      if !isOpen {
        isOpen := true;
      }
    }

    /** `removeItem(id)`. */
    method RemoveItem(id: string)
      requires Valid()
      modifies this, db
      ensures items == RemoveLine(old(items), id) && isOpen == old(isOpen) && Valid()
      ensures db.storage == Db.Written(db.hasWindow, old(db.storage), Db.CartKey, Db.ListJson(items, Db.ItemValue))
    {
      items := RemoveLine(items, id);
      Persist();
    }

    /** `updateQuantity(id, quantity)`: below one it removes the lines, otherwise it sets their quantity. */
    method UpdateQuantity(id: string, quantity: int)
      requires Valid()
      modifies this, db
      ensures quantity < 1 ==> items == RemoveLine(old(items), id)
      ensures quantity >= 1 ==> items == SetLineQuantity(old(items), id, quantity)
      ensures isOpen == old(isOpen) && Valid()
      ensures db.storage == Db.Written(db.hasWindow, old(db.storage), Db.CartKey, Db.ListJson(items, Db.ItemValue))
      ensures old(UniqueIds(items)) ==> UniqueIds(items)
      ensures old(PositiveQuantities(items)) ==> PositiveQuantities(items)
    {
      if quantity < 1 {
        RemoveItem(id);
        return;
      }
      SetLineQuantityKeeps(items, id, quantity);
      items := SetLineQuantity(items, id, quantity);
      Persist();
    }

    /** `clearCart()`. */
    method ClearCart()
      requires Valid()
      modifies this, db
      ensures items == [] && itemCount == 0 && isOpen == old(isOpen)
      ensures db.storage == Db.Written(db.hasWindow, old(db.storage), Db.CartKey, Db.ListJson([], Db.ItemValue))
    {
      items := [];
      Persist();
    }

    /** `openCart()`. */
    method OpenCart()
      modifies this
      ensures isOpen && items == old(items) && itemCount == old(itemCount)
    {
      isOpen := true;
    }

    /** `closeCart()`. */
    method CloseCart()
      modifies this
      ensures !isOpen && items == old(items) && itemCount == old(itemCount)
    {
      isOpen := false;
    }
  }
}
