/**
 * Orders are Stripe payment intents. The order queries keep the paid ones;
 * download links are generated for a paid order from the comma-separated
 * product ids that checkout stored in its metadata. The Stripe list and
 * retrieve calls, and the clock, are parameters.
 */
module Orders {
  import opened Wrappers
  import opened Js
  import Lists

  /** A payment intent; `created` is Stripe's Unix timestamp in seconds. */
  datatype PaymentIntent = PaymentIntent(
    id: string,
    status: string,
    created: int,
    customer: Option<string>,
    metadata: Option<map<string, string>>)

  /** One entry of `downloadLinks`; `expiresAt` is in milliseconds. */
  datatype DownloadLink = DownloadLink(productId: string, productName: string, downloadUrl: string, expiresAt: int)

  /** Seven days in milliseconds. */
  const LinkLifetime: int := 7 * 24 * 60 * 60 * 1000

  const LinkFailure: string := "Failed to generate download link"

  /** `pi.status === 'succeeded' || pi.status === 'processing'`. */
  predicate IsPaid(pi: PaymentIntent) {
    pi.status == "succeeded" || pi.status == "processing"
  }

  /** The paid intents of a listing, in order. */
  function PaidOnly(intents: seq<PaymentIntent>): (r: seq<PaymentIntent>)
    ensures forall x :: x in r <==> x in intents && IsPaid(x)
    ensures Lists.SubsequenceOf(r, intents)
    ensures forall x :: multiset(r)[x] == if IsPaid(x) then multiset(intents)[x] else 0
  {
    Lists.FilterCounts(intents, IsPaid);
    Lists.Filter(intents, IsPaid)
  }

  /** `getOrders()`, given what `paymentIntents.list` returns. */
  function GetOrders(listed: Result<seq<PaymentIntent>>): (r: Result<seq<PaymentIntent>>)
    ensures listed.Err? ==> r == Err("Failed to fetch orders")
    ensures listed.Ok? ==> r == Ok(PaidOnly(listed.value))
  {
    match listed
    case Err(_) => Err("Failed to fetch orders")
    case Ok(intents) => Ok(PaidOnly(intents))
  }

  /** `getCustomerOrders(customerId)`: the id is required before Stripe is asked. */
  function GetCustomerOrders(customerId: Option<string>, list: string -> Result<seq<PaymentIntent>>): (r: Result<seq<PaymentIntent>>)
    ensures !Truthy(customerId) ==> r == Err("Customer ID is required")
    ensures Truthy(customerId) && list(customerId.value).Err? ==> r == Err("Failed to fetch customer orders")
    ensures Truthy(customerId) && list(customerId.value).Ok? ==> r == Ok(PaidOnly(list(customerId.value).value))
  {
    if !Truthy(customerId) then Err("Customer ID is required")
    else
      match list(customerId.value)
      case Err(_) => Err("Failed to fetch customer orders")
      case Ok(intents) => Ok(PaidOnly(intents))
  }

  /** `order.metadata.productIds.split(',')` when that field is truthy, else no ids. */
  function ProductIdsOf(order: PaymentIntent): (ids: seq<string>)
    ensures order.metadata.None? || "productIds" !in order.metadata.value || order.metadata.value["productIds"] == "" ==> ids == []
  {
    if order.metadata.Some? && "productIds" in order.metadata.value && order.metadata.value["productIds"] != "" then
      Split(order.metadata.value["productIds"], ',')
    else []
  }

  /** The link pushed for one product. */
  function MakeLink(orderId: string, productId: string, productName: string, now: int): DownloadLink {
    DownloadLink(productId, productName, "/api/download/" + orderId + "/" + productId, now + LinkLifetime)
  }

  /** The links for `ids`, looking up each product's name; any failed lookup fails the whole. */
  function LinksFor(orderId: string, ids: seq<string>, lookup: string -> Result<string>, now: int): (r: Result<seq<DownloadLink>>)
    ensures r.Ok? <==> forall i :: 0 <= i < |ids| ==> lookup(ids[i]).Ok?
    ensures r.Err? ==> r.error == LinkFailure
    ensures r.Ok? ==> |r.value| == |ids|
    ensures r.Ok? ==> forall i :: 0 <= i < |ids| ==> r.value[i] == MakeLink(orderId, ids[i], lookup(ids[i]).value, now)
  {
    if ids == [] then Ok([])
    else
      match lookup(ids[0])
      case Err(_) => Err(LinkFailure)
      case Ok(name) =>
        var rest := LinksFor(orderId, ids[1..], lookup, now);
        assert forall i :: 1 <= i < |ids| ==> ids[1..][i - 1] == ids[i];
        if rest.Err? then Err(LinkFailure) else Ok([MakeLink(orderId, ids[0], name, now)] + rest.value)
  }

  /** What `generateOrderDownloadLink(orderId)` returns, given Stripe's answers and the time. */
  function DownloadLinks(orderId: Option<string>, retrieve: string -> Result<PaymentIntent>,
                         lookup: string -> Result<string>, now: int): (r: Result<seq<DownloadLink>>)
    ensures !Truthy(orderId) ==> r == Err("Order ID is required")
    ensures Truthy(orderId) && r.Err? ==> r.error == LinkFailure
    ensures Truthy(orderId) && r.Ok? ==>
      retrieve(orderId.value).Ok? && retrieve(orderId.value).value.status == "succeeded"
  {
    if !Truthy(orderId) then Err("Order ID is required")
    else
      match retrieve(orderId.value)
      case Err(_) => Err(LinkFailure)
      case Ok(order) =>
        if order.status != "succeeded" then Err(LinkFailure)
        else LinksFor(orderId.value, ProductIdsOf(order), lookup, now)
  }

  /**
   * `generateOrderDownloadLink(orderId)`: one link per product id, built in a
   * loop that stops at the first product Stripe cannot retrieve.
   */
  method GenerateOrderDownloadLink(orderId: Option<string>, retrieve: string -> Result<PaymentIntent>,
                                   lookup: string -> Result<string>, now: int)
    returns (r: Result<seq<DownloadLink>>)
    ensures r == DownloadLinks(orderId, retrieve, lookup, now)
  {
    if !Truthy(orderId) {
      return Err("Order ID is required");
    }
    var order := retrieve(orderId.value);
    if order.Err? || order.value.status != "succeeded" {
      return Err(LinkFailure);
    }
    r := BuildLinks(orderId.value, ProductIdsOf(order.value), lookup, now);
  }

  /** The loop of `generateOrderDownloadLink` over the product ids, stopping at the first failed lookup. */
  method BuildLinks(id: string, ids: seq<string>, lookup: string -> Result<string>, now: int)
    returns (r: Result<seq<DownloadLink>>)
    ensures r == LinksFor(id, ids, lookup, now)
  {
    ghost var spec := LinksFor(id, ids, lookup, now);
    var links: seq<DownloadLink> := [];
    var i := 0;
    while i < |ids|
      invariant 0 <= i <= |ids| && |links| == i
      invariant forall j :: 0 <= j < i ==> lookup(ids[j]).Ok?
      invariant forall j :: 0 <= j < i ==> links[j] == MakeLink(id, ids[j], lookup(ids[j]).value, now)
    {
      var product := lookup(ids[i]);
      if product.Err? {
        assert spec.Err?;
        return Err(LinkFailure);
      }
      links := links + [MakeLink(id, ids[i], product.value, now)];
      i := i + 1;
    }
    assert spec.Ok? && spec.value == links;
    r := Ok(links);
  }

  /**
   * An order that is not `succeeded` (a `processing` one included, though the
   * order lists show it as paid) gets no links.
   */
  lemma UnpaidOrderGetsNoLinks(orderId: string, retrieve: string -> Result<PaymentIntent>,
                               lookup: string -> Result<string>, now: int)
    requires orderId != "" && retrieve(orderId).Ok? && retrieve(orderId).value.status != "succeeded"
    ensures DownloadLinks(Some(orderId), retrieve, lookup, now) == Err(LinkFailure)
  {
  }

  /**
   * For a paid order whose `productIds` is the comma-join of ids holding no
   * comma, there is one link per id, in order, at
   * `/api/download/<order>/<product>`, expiring seven days from now.
   */
  lemma {:induction false} LinksFollowProductIds(orderId: string, order: PaymentIntent, ids: seq<string>,
                                                 retrieve: string -> Result<PaymentIntent>,
                                                 lookup: string -> Result<string>, now: int)
    requires orderId != "" && retrieve(orderId) == Ok(order) && order.status == "succeeded"
    requires order.metadata.Some? && "productIds" in order.metadata.value
    requires order.metadata.value["productIds"] == Join(ids, ',') && Join(ids, ',') != ""
    requires |ids| >= 1 && forall i :: 0 <= i < |ids| ==> ',' !in ids[i]
    requires forall i :: 0 <= i < |ids| ==> lookup(ids[i]).Ok?
    ensures var r := DownloadLinks(Some(orderId), retrieve, lookup, now);
      && r.Ok? && |r.value| == |ids|
      && forall i :: 0 <= i < |ids| ==>
           && r.value[i].productId == ids[i]
           && r.value[i].downloadUrl == "/api/download/" + orderId + "/" + ids[i]
           && r.value[i].expiresAt == now + LinkLifetime
  {
    SplitJoin(ids, ',');
    assert ProductIdsOf(order) == ids;
  }
}
