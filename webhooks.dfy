/**
 * Stripe webhook handling: signature verification around Stripe's
 * `constructEvent`, five event handlers that revalidate cached pages with
 * `revalidatePath`, and the dispatch over the event type. `constructEvent`
 * is a parameter; `revalidatePath` is a call on a page cache that records
 * each path it revalidates and may refuse one (throw).
 */
module Webhooks {
  import opened Wrappers
  import opened Js

  /** `event.data.object`: a payment intent or a subscription. */
  datatype EventObject = EventObject(id: string, customer: Option<string>)

  datatype Event = Event(eventType: string, data: EventObject)

  /** `{success: true, paymentIntentId}`, `{success: true, subscriptionId}` or `{success: true, handled: false}`. */
  datatype WebhookResult =
    | PaymentResult(paymentIntentId: string)
    | SubscriptionResult(subscriptionId: string)
    | Unhandled

  /** What a handler does: the paths it revalidates in order, its result, and its error message. */
  datatype Handler = Handler(paths: seq<string>, success: WebhookResult, failure: string)

  const PaymentSucceeded: string := "payment_intent.succeeded"
  const PaymentFailed: string := "payment_intent.payment_failed"
  const SubscriptionCreated: string := "customer.subscription.created"
  const SubscriptionUpdated: string := "customer.subscription.updated"
  const SubscriptionDeleted: string := "customer.subscription.deleted"

  /** The event types that reach a handler. */
  predicate IsHandledType(t: string) {
    t == PaymentSucceeded || t == PaymentFailed || t == SubscriptionCreated
    || t == SubscriptionUpdated || t == SubscriptionDeleted
  }

  /**
   * `verifyStripeWebhook(payload, signature)`: a falsy secret fails before
   * the signature is checked; a failed check is reported with a prefix.
   */
  function VerifyStripeWebhook(payload: string, signature: string, secret: Option<string>,
                               constructEvent: (string, string, string) -> Result<Event>): (r: Result<Event>)
    ensures !Truthy(secret) ==> r == Err("Missing Stripe webhook secret")
    ensures Truthy(secret) ==>
      var checked := constructEvent(payload, signature, secret.value);
      && (r.Ok? <==> checked.Ok?)
      && (r.Ok? ==> r.value == checked.value)
      && (r.Err? ==> r.error == "Webhook verification failed: " + checked.error)
  {
    if !Truthy(secret) then Err("Missing Stripe webhook secret")
    else
      match constructEvent(payload, signature, secret.value)
      case Ok(event) => Ok(event)
      case Err(msg) => Err("Webhook verification failed: " + msg)
  }

  /** `` `/customers/${customer}` `` when the object has a customer, else nothing. */
  function CustomerPaths(o: EventObject): seq<string> {
    if Truthy(o.customer) then ["/customers/" + o.customer.value] else []
  }

  /** The `switch (event.type)` of `processWebhookEvent`, with each handler's effects and results. */
  function HandlerFor(event: Event): (h: Option<Handler>)
    ensures h.Some? <==> IsHandledType(event.eventType)
  {
    var o := event.data;
    if event.eventType == PaymentSucceeded then
      Some(Handler(["/orders"] + CustomerPaths(o), PaymentResult(o.id), "Failed to process payment success"))
    else if event.eventType == PaymentFailed then
      Some(Handler([], PaymentResult(o.id), "Failed to process payment failure"))
    else if event.eventType == SubscriptionCreated then
      Some(Handler(["/subscriptions"] + CustomerPaths(o), SubscriptionResult(o.id), "Failed to process subscription creation"))
    else if event.eventType == SubscriptionUpdated then
      Some(Handler(["/subscriptions/" + o.id, "/subscriptions"], SubscriptionResult(o.id), "Failed to process subscription update"))
    else if event.eventType == SubscriptionDeleted then
      Some(Handler(["/subscriptions"], SubscriptionResult(o.id), "Failed to process subscription deletion"))
    else None
  }

  /**
   * What the handlers revalidate: the payment handlers report the payment
   * intent and the subscription handlers the subscription; only the failed
   * payment revalidates nothing; `/orders` only on a successful payment; the
   * customer's page exactly when a customer is present on a successful
   * payment or a new subscription.
   */
  lemma HandlerEffects(event: Event)
    requires IsHandledType(event.eventType)
    ensures var h := HandlerFor(event).value;
      && (h.paths == [] <==> event.eventType == PaymentFailed)
      && (h.success.PaymentResult? <==> event.eventType == PaymentSucceeded || event.eventType == PaymentFailed)
      && (h.success.PaymentResult? ==> h.success.paymentIntentId == event.data.id)
      && (h.success.SubscriptionResult? ==> h.success.subscriptionId == event.data.id)
      && ("/orders" in h.paths <==> event.eventType == PaymentSucceeded)
      && (Truthy(event.data.customer) ==>
            ("/customers/" + event.data.customer.value in h.paths <==>
               event.eventType == PaymentSucceeded || event.eventType == SubscriptionCreated))
  {
    var o := event.data;
    var h := HandlerFor(event).value;
    assert "/orders"[1] == 'o' && "/subscriptions"[1] == 's';
    assert forall c: string :: ("/customers/" + c)[1] == 'c';
    assert forall c: string :: ("/subscriptions/" + c)[1] == 's';
  }

  /** The paths a cache accepting `accepts` revalidates before the first refusal. */
  function Revalidated(paths: seq<string>, accepts: string -> bool): (done: seq<string>)
    ensures |done| <= |paths| && done == paths[..|done|]
    ensures forall i :: 0 <= i < |done| ==> accepts(paths[i])
    ensures |done| < |paths| ==> !accepts(paths[|done|])
  {
    if paths == [] || !accepts(paths[0]) then []
    else [paths[0]] + Revalidated(paths[1..], accepts)
  }

  /** Every path is accepted. */
  predicate AllAccepted(paths: seq<string>, accepts: string -> bool) {
    forall i :: 0 <= i < |paths| ==> accepts(paths[i])
  }

  /** The result of `processWebhookEvent`: unhandled types succeed untouched; a refused path fails the handler. */
  function Dispatch(event: Event, accepts: string -> bool): (r: Result<WebhookResult>)
    ensures !IsHandledType(event.eventType) <==> r == Ok(Unhandled)
    ensures r.Err? <==> IsHandledType(event.eventType) && !AllAccepted(HandlerFor(event).value.paths, accepts)
  {
    match HandlerFor(event)
    case None => Ok(Unhandled)
    case Some(h) => if AllAccepted(h.paths, accepts) then Ok(h.success) else Err(h.failure)
  }

  /** The paths `processWebhookEvent` revalidates. */
  function DispatchLog(event: Event, accepts: string -> bool): (log: seq<string>)
    ensures !IsHandledType(event.eventType) ==> log == []
  {
    match HandlerFor(event)
    case None => []
    case Some(h) => Revalidated(h.paths, accepts)
  }

  /** The Next.js page cache: the paths revalidated so far, and which paths it accepts. */
  class PageCache {
    var revalidated: seq<string>
    const accepts: string -> bool

    constructor (accepts: string -> bool)
      ensures revalidated == [] && this.accepts == accepts
    {
      revalidated := [];
      this.accepts := accepts;
    }

    /** `revalidatePath(path)`: records the path, or refuses it. */
    method RevalidatePath(path: string) returns (ok: bool)
      modifies this
      ensures ok == accepts(path)
      ensures revalidated == old(revalidated) + if ok then [path] else []
    {
      ok := accepts(path);
      if ok {
        revalidated := revalidated + [path];
      }
    }
  }

  /** A handler body: `revalidatePath` on each path in order, stopping at the first that throws. */
  method RunHandler(h: Handler, cache: PageCache) returns (r: Result<WebhookResult>)
    modifies cache
    ensures cache.revalidated == old(cache.revalidated) + Revalidated(h.paths, cache.accepts)
    ensures r == if AllAccepted(h.paths, cache.accepts) then Ok(h.success) else Err(h.failure)
  {
    var i := 0;
    while i < |h.paths|
      invariant 0 <= i <= |h.paths|
      invariant forall j :: 0 <= j < i ==> cache.accepts(h.paths[j])
      invariant Revalidated(h.paths, cache.accepts)[..i] == h.paths[..i] && |Revalidated(h.paths, cache.accepts)| >= i
      invariant cache.revalidated == old(cache.revalidated) + h.paths[..i]
    {
      var ok := cache.RevalidatePath(h.paths[i]);
      if !ok {
        assert |Revalidated(h.paths, cache.accepts)| == i;
        return Err(h.failure);
      }
      i := i + 1;
    }
    assert h.paths[..i] == h.paths;
    return Ok(h.success);
  }

  /** `processWebhookEvent(event)`. */
  method ProcessWebhookEvent(event: Event, cache: PageCache) returns (r: Result<WebhookResult>)
    modifies cache
    ensures r == Dispatch(event, cache.accepts)
    ensures cache.revalidated == old(cache.revalidated) + DispatchLog(event, cache.accepts)
  {
    var h := HandlerFor(event);
    if h.None? {
      return Ok(Unhandled);
    }
    r := RunHandler(h.value, cache);
  }
}
