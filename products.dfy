/**
 * The product list hook: all products of the current category, the list on
 * display (filtered by type, sorted by price or replaced by search results),
 * the last error, and the distinct categories of the products. The product
 * queries are parameters; the 500 ms debounce of the search is not modelled.
 */
module Products {
  import opened Wrappers
  import opened Js
  import opened Domain
  import Lists
  import Sorting

  /** The query `fetchProducts` issues: by category when one is set, else all products. */
  datatype ProductQuery = ByCategory(category: string) | AllProducts

  function QueryFor(category: Option<string>): (q: ProductQuery)
    ensures q.ByCategory? <==> Truthy(category)
    ensures q.ByCategory? ==> q.category == category.value
  {
    if Truthy(category) then ByCategory(category.value) else AllProducts
  }

  /** `err.message || fallback`. */
  function ErrorMessage(message: string, fallback: string): (m: string)
    ensures message != "" ==> m == message
    ensures message == "" ==> m == fallback
  {
    if message != "" then message else fallback
  }

  const FetchFailed: string := "Failed to fetch products"
  const SearchFailed: string := "Failed to search products"

  /** Queries shorter than this, once trimmed, do not search; the length counts UTF-16 code units. */
  const MinSearchLength: int := 3

  /** `!query || query.trim().length < 3`. */
  predicate IsShortQuery(query: Option<string>) {
    !Truthy(query) || Utf16Length(Trim(query.value)) < MinSearchLength
  }

  /** Two characters make a long enough query when one of them lies beyond U+FFFF. */
  lemma AstralQuerySearches()
    ensures !IsShortQuery(Some("\U{1F600}a"))
  {
    var q := "\U{1F600}a";
    assert LeadingSpaces(q) == 0;
    assert TrimStart(q) == q;
    assert TrimEnd(q) == q;
    assert Utf16Length(q[1..]) == 1;
  }

  /** The white space around a query does not count towards its length. */
  lemma PaddedQueryIsShort()
    ensures IsShortQuery(Some(" ab "))
  {
    assert LeadingSpaces("ab ") == 0;
    assert TrimStart(" ab ") == "ab ";
    assert |TrimEnd("ab ")| <= 2;
  }

  /** `product.prices?.some(price => price.recurring)`; no price list means none. */
  predicate HasRecurringPrice(p: Product) {
    p.prices.Some? && exists i :: 0 <= i < |p.prices.value| && p.prices.value[i].recurring
  }

  function IsRecurring(p: Product): bool {
    HasRecurringPrice(p)
  }

  function IsOneOff(p: Product): bool {
    !HasRecurringPrice(p)
  }

  /** `!type || type === 'all'`. */
  predicate ShowsAll(kind: Option<string>) {
    !Truthy(kind) || kind.value == "all"
  }

  /**
   * The list `filterByType(type)` displays: everything for no type or
   * `'all'`, the products with a recurring price for `'subscription'`,
   * and those without one for any other type.
   */
  function OfType(products: seq<Product>, kind: Option<string>): (r: seq<Product>)
    ensures ShowsAll(kind) ==> r == products
    ensures Lists.SubsequenceOf(r, products)
    ensures !ShowsAll(kind) && kind.value == "subscription" ==>
      forall p :: p in r <==> p in products && HasRecurringPrice(p)
    ensures !ShowsAll(kind) && kind.value != "subscription" ==>
      forall p :: p in r <==> p in products && !HasRecurringPrice(p)
  {
    if ShowsAll(kind) then
      Lists.PrefixIsSubsequence(products, products);
      products
    else if kind.value == "subscription" then Lists.Filter(products, IsRecurring)
    else Lists.Filter(products, IsOneOff)
  }

  /** `direction === 'asc'`, with `'asc'` the default; `None` is an omitted (`undefined`) argument. */
  predicate IsAscending(direction: Option<string>) {
    direction.None? || direction.value == "asc"
  }

  /** The key of the descending comparator `priceB - priceA`. */
  function NegatedUnitPrice(p: Product): int {
    -UnitPrice(p)
  }

  /**
   * `[...products].sort(...)` by `defaultPrice?.unit_amount || 0`: a
   * permutation, ascending for `'asc'`, descending for any other direction.
   */
  function SortedByPrice(products: seq<Product>, direction: Option<string>): (r: seq<Product>)
    ensures multiset(r) == multiset(products) && |r| == |products|
    ensures IsAscending(direction) ==> forall i :: 0 < i < |r| ==> UnitPrice(r[i - 1]) <= UnitPrice(r[i])
    ensures !IsAscending(direction) ==> forall i :: 0 < i < |r| ==> UnitPrice(r[i - 1]) >= UnitPrice(r[i])
  {
    if IsAscending(direction) then Sorting.SortBy(products, UnitPrice)
    else
      var r := Sorting.SortBy(products, NegatedUnitPrice);
      assert forall i :: 0 < i < |r| ==> NegatedUnitPrice(r[i - 1]) <= NegatedUnitPrice(r[i]);
      r
  }

  /** Sorting by price orders every pair, not only neighbours. */
  lemma SortedByPricePairs(products: seq<Product>, direction: Option<string>, i: int, j: int)
    requires 0 <= i <= j < |products|
    ensures var r := SortedByPrice(products, direction);
      if IsAscending(direction) then UnitPrice(r[i]) <= UnitPrice(r[j]) else UnitPrice(r[i]) >= UnitPrice(r[j])
  {
    var r := SortedByPrice(products, direction);
    if IsAscending(direction) {
      Sorting.SortedPairwise(r, UnitPrice, i, j);
    } else {
      assert Sorting.SortedBy(r, NegatedUnitPrice);
      Sorting.SortedPairwise(r, NegatedUnitPrice, i, j);
    }
  }

  /**
   * `Array.from(categorySet)` after adding every truthy
   * `product.metadata.category` in order: a set keeps first-insertion order,
   * so a category joins the list at its first appearance.
   */
  function CategoriesOf(products: seq<Product>): (r: seq<string>)
    ensures forall i, j :: 0 <= i < j < |r| ==> r[i] != r[j]
    ensures forall c :: c in r <==>
      exists i :: 0 <= i < |products| && products[i].category == Some(c) && c != ""
  {
    if products == [] then []
    else
      var init := products[..|products| - 1];
      var last := products[|products| - 1];
      var r := CategoriesOf(init);
      assert forall i :: 0 <= i < |init| ==> init[i] == products[i];
      if Truthy(last.category) && last.category.value !in r then r + [last.category.value] else r
  }

  /** Products added later never reorder or drop the categories already listed. */
  lemma {:induction false} CategoriesGrow(products: seq<Product>, k: nat)
    requires k <= |products|
    ensures var before := CategoriesOf(products[..k]);
      |before| <= |CategoriesOf(products)| && before == CategoriesOf(products)[..|before|]
    decreases |products| - k
  {
    if k < |products| {
      var n := |products|;
      CategoriesGrow(products[..n - 1], k);
      assert products[..n - 1][..k] == products[..k];
      if k == n - 1 {
        assert products[..k] == products[..n - 1];
      }
    } else {
      assert products[..k] == products;
    }
  }

  /** `useProducts(options)`'s state. */
  class ProductCatalog {
    var products: seq<Product>
    var filteredProducts: seq<Product>
    var error: Option<string>
    var loading: bool
    var category: Option<string>

    /** `useProducts({ category })`: nothing loaded yet, loading. */
    constructor (category: Option<string>)
      ensures products == [] && filteredProducts == [] && error == None && loading
      ensures this.category == (if Truthy(category) then category else None)
    {
      products := [];
      filteredProducts := [];
      error := None;
      loading := true;
      this.category := if Truthy(category) then category else None;
    }

    /**
     * `fetchProducts()`: the result of the query for the current category
     * replaces both lists; a failure keeps them and records the message.
     */
    method FetchProducts(fetch: ProductQuery -> Result<seq<Product>>) returns (q: ProductQuery)
      modifies this
      ensures q == QueryFor(category) && category == old(category) && !loading
      ensures fetch(q).Ok? ==> products == fetch(q).value && filteredProducts == fetch(q).value && error == None
      ensures fetch(q).Err? ==>
        products == old(products) && filteredProducts == old(filteredProducts) &&
        error == Some(ErrorMessage(fetch(q).error, FetchFailed))
    {
      loading := true;
      error := None;
      q := QueryFor(category);
      var result := fetch(q);
      if result.Ok? {
        products := result.value;
        filteredProducts := result.value;
      } else {
        error := Some(ErrorMessage(result.error, FetchFailed));
      }
      loading := false;
    }

    /**
     * `handleSearch(query)` once the debounce fires: a short query shows
     * all products without searching; otherwise the search results are
     * shown, or all products and the message when the search fails.
     * Returns whether the search was called.
     */
    method HandleSearch(query: Option<string>, search: string -> Result<seq<Product>>) returns (searched: bool)
      modifies this
      ensures searched <==> !IsShortQuery(query)
      ensures products == old(products) && category == old(category)
      ensures !searched ==> filteredProducts == products && error == old(error) && loading == old(loading)
      ensures searched && search(query.value).Ok? ==>
        filteredProducts == search(query.value).value && error == old(error) && !loading
      ensures searched && search(query.value).Err? ==>
        filteredProducts == products && error == Some(ErrorMessage(search(query.value).error, SearchFailed)) && !loading
    {
      if IsShortQuery(query) {
        filteredProducts := products;
        searched := false;
      } else {
        var text := query.value;
        loading := true;
        var results := search(text);
        if results.Ok? {
          filteredProducts := results.value;
        } else {
          error := Some(ErrorMessage(results.error, SearchFailed));
          filteredProducts := products;
        }
        loading := false;
        searched := true;
      }
    }

    /** `filterByType(type)`: the displayed list becomes the products of that type. */
    method FilterByType(kind: Option<string>)
      modifies this
      ensures filteredProducts == OfType(products, kind)
      ensures products == old(products) && error == old(error) && loading == old(loading) && category == old(category)
    {
      if ShowsAll(kind) {
        filteredProducts := products;
        return;
      }
      var isSubscription := kind.value == "subscription";
      filteredProducts := Lists.Filter(products, if isSubscription then IsRecurring else IsOneOff);
    }

    /** `sortByPrice(direction)`: the displayed list, sorted by unit price. */
    method SortByPrice(direction: Option<string>)
      modifies this
      ensures filteredProducts == SortedByPrice(old(filteredProducts), direction)
      ensures products == old(products) && error == old(error) && loading == old(loading) && category == old(category)
    {
      filteredProducts := SortedByPrice(filteredProducts, direction);
    }

    /** `categories`: one pass over the products, adding each truthy category to an ordered set. */
    method Categories() returns (categories: seq<string>)
      ensures categories == CategoriesOf(products)
    {
      categories := [];
      var i := 0;
      while i < |products|
        invariant 0 <= i <= |products|
        invariant categories == CategoriesOf(products[..i])
      {
        var c := products[i].category;
        assert products[..i + 1][..i] == products[..i];
        if Truthy(c) && c.value !in categories {
          categories := categories + [c.value];
        }
        i := i + 1;
      }
      assert products[..i] == products;
    }

    /** `changeCategory(newCategory)`; the refetch it causes is `FetchProducts`. */
    method ChangeCategory(newCategory: Option<string>)
      modifies this
      ensures category == newCategory
      ensures products == old(products) && filteredProducts == old(filteredProducts) && error == old(error)
      ensures loading == old(loading)
    {
      category := newCategory;
    }
  }
}
