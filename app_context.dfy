/**
 * The app provider's recently viewed products: at most five, most recent
 * first, one entry per product id, mirrored to the browser store under
 * `recentlyViewedProducts` after every change.
 */
module AppContext {
  import opened Wrappers
  import opened Domain
  import Lists
  import Db

  /** The store key the provider mirrors the list to. */
  const RecentlyViewedKey: string := "recentlyViewedProducts"

  /** The value the save effect stores for a list. */
  function Stored(list: seq<Product>): Db.Value {
    Db.ListJson(list, Db.ProductValue)
  }

  /** What the provider stores it reads back on the next mount. */
  lemma {:induction false} StoredListReadsBack(storage: Db.Storage, list: seq<Product>)
    ensures var read := Db.ReadValue(true, Db.Written(true, storage, RecentlyViewedKey, Stored(list)),
                                     RecentlyViewedKey, Db.Array([]));
      read.Ok? && Db.AsList(read.value, Db.ProductOf) == Some(list)
  {
    Db.StoredValueRoundTrip(storage, RecentlyViewedKey, Stored(list), Db.Array([]));
    Db.ProductsJsonRoundTrip(list);
  }

  /** `AppProvider`'s recently viewed state and the store it is mirrored to. */
  class AppState {
    var recentlyViewed: seq<Product>
    const db: Db.ClientDb

    constructor (db: Db.ClientDb)
      ensures recentlyViewed == [] && this.db == db
    {
      recentlyViewed := [];
      this.db := db;
    }

    /** The save effect on `recentlyViewedProducts`. */
    method Persist()
      modifies db
      ensures db.storage == Db.Written(db.hasWindow, old(db.storage), RecentlyViewedKey, Stored(recentlyViewed))
    {
      db.SetStoredValue(RecentlyViewedKey, Stored(recentlyViewed));
    }

    /**
     * The mount effect: a stored product list replaces the (empty) state;
     * without a window, with nothing stored, or with a stored value that
     * does not parse as a product list, the state is unchanged.
     */
    method Restore() returns (read: Result<Db.Value>)
      modifies this, db
      ensures read == (if db.hasWindow then Db.ReadValue(true, old(db.storage), RecentlyViewedKey, Db.Array([]))
                       else Ok(Db.Array([])))
      ensures db.hasWindow && read.Ok? && Db.AsList(read.value, Db.ProductOf).Some? ==>
        recentlyViewed == Db.AsList(read.value, Db.ProductOf).value &&
        db.storage == Db.Written(true, old(db.storage), RecentlyViewedKey, Stored(recentlyViewed))
      ensures !(db.hasWindow && read.Ok? && Db.AsList(read.value, Db.ProductOf).Some?) ==>
        recentlyViewed == old(recentlyViewed) && db.storage == old(db.storage)
    {
      if !db.hasWindow {
        return Ok(Db.Array([]));
      }
      read := db.GetStoredValue(RecentlyViewedKey, Db.Array([]));
      if read.Ok? {
        var list := Db.AsList(read.value, Db.ProductOf);
        if list.Some? {
          recentlyViewed := list.value;
          Persist();
        }
      }
    }

    /**
     * `addToRecentlyViewed(product)`: nothing for no product; otherwise the
     * product moves to the front, any older entry with its id is dropped,
     * and the list is cut to five.
     */
    method AddToRecentlyViewed(product: Option<Product>)
      modifies this, db
      ensures product.None? ==> recentlyViewed == old(recentlyViewed) && db.storage == old(db.storage)
      ensures product.Some? ==>
        recentlyViewed == Db.PushRecent(old(recentlyViewed), product.value) &&
        db.storage == Db.Written(db.hasWindow, old(db.storage), RecentlyViewedKey, Stored(recentlyViewed))
      ensures product.Some? ==> recentlyViewed[0] == product.value && 1 <= |recentlyViewed| <= Db.MaxRecent
      ensures product.Some? ==> forall i :: 1 <= i < |recentlyViewed| ==> recentlyViewed[i].id != product.value.id
      ensures product.Some? ==> Lists.SubsequenceOf(recentlyViewed[1..], old(recentlyViewed))
      ensures old(Lists.UniqueBy(recentlyViewed, ProductId)) ==> Lists.UniqueBy(recentlyViewed, ProductId)
    {
      if product.None? {
        return;
      }
      recentlyViewed := Db.PushRecent(recentlyViewed, product.value);
      Persist();
    }

    /** `clearRecentlyViewed()`. */
    method ClearRecentlyViewed()
      modifies this, db
      ensures recentlyViewed == []
      ensures db.storage == Db.Written(db.hasWindow, old(db.storage), RecentlyViewedKey, Stored([]))
    {
      recentlyViewed := [];
      Persist();
    }
  }
}
