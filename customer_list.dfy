/**
 * The customer list's search box: the customers whose name or email
 * contains the query, ignoring ASCII case, or whose phone contains it as
 * typed.
 */
module CustomerList {
  import opened Wrappers
  import opened Js
  import Lists

  /** The fields of a Stripe customer the search looks at; each may be missing. */
  datatype Customer = Customer(id: string, name: Option<string>, email: Option<string>, phone: Option<string>)

  /** `field && field.toLowerCase().includes(query.toLowerCase())`. */
  predicate ContainsIgnoringCase(field: Option<string>, query: string) {
    Truthy(field) && Includes(ToLowerCase(field.value), ToLowerCase(query))
  }

  /** `field && field.includes(query)`. */
  predicate ContainsExactly(field: Option<string>, query: string) {
    Truthy(field) && Includes(field.value, query)
  }

  /** The search predicate for one customer. */
  function Matches(query: string): Customer -> bool {
    (c: Customer) =>
      ContainsIgnoringCase(c.name, query) || ContainsIgnoringCase(c.email, query) || ContainsExactly(c.phone, query)
  }

  /** `filteredCustomers`: every customer for an empty query, else the matching ones in order. */
  function FilterCustomers(customers: seq<Customer>, query: string): (r: seq<Customer>)
    ensures query == "" ==> r == customers
    ensures Lists.SubsequenceOf(r, customers)
    ensures query != "" ==> forall c :: c in r <==> c in customers && Matches(query)(c)
  {
    if query == "" then
      Lists.PrefixIsSubsequence(customers, customers);
      customers
    else Lists.Filter(customers, Matches(query))
  }

  /** A customer with no name, email or phone matches no non-empty query. */
  lemma MissingFieldsNeverMatch(customers: seq<Customer>, query: string, c: Customer)
    requires query != "" && c.name.None? && c.email.None? && c.phone.None?
    ensures c !in FilterCustomers(customers, query)
  {
  }

  /** A name containing the query anywhere, in another ASCII case, still matches. */
  lemma NameMatchIgnoresCase(customers: seq<Customer>, query: string, c: Customer, at: int)
    requires query != "" && c in customers && Truthy(c.name)
    requires OccursAt(ToLowerCase(c.name.value), ToLowerCase(query), at)
    ensures c in FilterCustomers(customers, query)
  {
  }

  /** A phone number matches only as typed: one holding the query exactly keeps its customer. */
  lemma PhoneMatchExact(customers: seq<Customer>, query: string, c: Customer, at: int)
    requires query != "" && c in customers && Truthy(c.phone) && OccursAt(c.phone.value, query, at)
    ensures c in FilterCustomers(customers, query)
  {
  }

  /** Searching twice with the same query changes nothing the second time. */
  lemma {:induction false} FilterCustomersIdempotent(customers: seq<Customer>, query: string)
    ensures FilterCustomers(FilterCustomers(customers, query), query) == FilterCustomers(customers, query)
  {
    if query != "" {
      var r := FilterCustomers(customers, query);
      Lists.FilterAll(r, Matches(query));
    }
  }
}
