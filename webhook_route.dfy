/**
 * The `POST /api/webhooks/stripe` route: a signature header is required,
 * the event is verified, then dispatched; any error becomes a 400 response
 * carrying its message.
 */
module WebhookRoute {
  import opened Wrappers
  import opened Js
  import opened Webhooks

  /** A JSON response body: `{error}` or the dispatcher's result. */
  datatype Body = ErrorBody(error: string) | ResultBody(result: WebhookResult)

  datatype Response = Response(status: int, body: Body)

  const MissingSignature: string := "Missing stripe signature"

  /** The response `POST` gives. */
  function PostResponse(signature: Option<string>, payload: string, secret: Option<string>,
                        constructEvent: (string, string, string) -> Result<Event>,
                        accepts: string -> bool): Response
  {
    if !Truthy(signature) then Response(400, ErrorBody(MissingSignature))
    else
      match VerifyStripeWebhook(payload, signature.value, secret, constructEvent)
      case Err(msg) => Response(400, ErrorBody(msg))
      case Ok(event) =>
        match Dispatch(event, accepts)
        case Ok(result) => Response(200, ResultBody(result))
        case Err(msg) => Response(400, ErrorBody(msg))
  }

  /** The paths revalidated while answering `POST`. */
  function PostLog(signature: Option<string>, payload: string, secret: Option<string>,
                   constructEvent: (string, string, string) -> Result<Event>,
                   accepts: string -> bool): seq<string>
  {
    if !Truthy(signature) then []
    else
      match VerifyStripeWebhook(payload, signature.value, secret, constructEvent)
      case Err(_) => []
      case Ok(event) => DispatchLog(event, accepts)
  }

  /** `POST(request)`, with the signature header, body and webhook secret as inputs. */
  method Post(signature: Option<string>, payload: string, secret: Option<string>,
              constructEvent: (string, string, string) -> Result<Event>, cache: PageCache)
    returns (response: Response)
    modifies cache
    ensures response == PostResponse(signature, payload, secret, constructEvent, cache.accepts)
    ensures cache.revalidated == old(cache.revalidated) + PostLog(signature, payload, secret, constructEvent, cache.accepts)
  {
    if !Truthy(signature) {
      return Response(400, ErrorBody(MissingSignature));
    }
    var event := VerifyStripeWebhook(payload, signature.value, secret, constructEvent);
    if event.Err? {
      return Response(400, ErrorBody(event.error));
    }
    var result := ProcessWebhookEvent(event.value, cache);
    if result.Err? {
      return Response(400, ErrorBody(result.error));
    }
    response := Response(200, ResultBody(result.value));
  }

  /** A missing or empty signature is answered with 400 whatever the rest of the request, and nothing is revalidated. */
  lemma MissingSignatureRejected(signature: Option<string>, payload: string, secret: Option<string>,
                                 constructEvent: (string, string, string) -> Result<Event>,
                                 accepts: string -> bool)
    requires !Truthy(signature)
    ensures PostResponse(signature, payload, secret, constructEvent, accepts) == Response(400, ErrorBody(MissingSignature))
    ensures PostLog(signature, payload, secret, constructEvent, accepts) == []
  {
  }

  /**
   * Fail-closed: a 200 answer needs a signature, a secret and an event
   * Stripe verified; a failed verification revalidates nothing and is
   * answered with 400 and its message.
   */
  lemma FailClosed(signature: Option<string>, payload: string, secret: Option<string>,
                   constructEvent: (string, string, string) -> Result<Event>,
                   accepts: string -> bool)
    ensures PostResponse(signature, payload, secret, constructEvent, accepts).status == 200 ==>
      Truthy(signature) && Truthy(secret) && constructEvent(payload, signature.value, secret.value).Ok?
    ensures Truthy(signature) && VerifyStripeWebhook(payload, signature.value, secret, constructEvent).Err? ==>
      && PostLog(signature, payload, secret, constructEvent, accepts) == []
      && PostResponse(signature, payload, secret, constructEvent, accepts) ==
         Response(400, ErrorBody(VerifyStripeWebhook(payload, signature.value, secret, constructEvent).error))
  {
  }

  /**
   * A verified event is answered with 200 and exactly the dispatcher's
   * result, or with 400 and the handler's message when a revalidation fails.
   */
  lemma VerifiedEventAnswered(signature: Option<string>, payload: string, secret: Option<string>,
                              constructEvent: (string, string, string) -> Result<Event>,
                              accepts: string -> bool)
    requires Truthy(signature) && VerifyStripeWebhook(payload, signature.value, secret, constructEvent).Ok?
    ensures var event := VerifyStripeWebhook(payload, signature.value, secret, constructEvent).value;
      var response := PostResponse(signature, payload, secret, constructEvent, accepts);
      && (response.status == 200 <==> Dispatch(event, accepts).Ok?)
      && (response.status == 200 ==> response.body == ResultBody(Dispatch(event, accepts).value))
      && (response.status != 200 ==> response == Response(400, ErrorBody(Dispatch(event, accepts).error)))
      && (!IsHandledType(event.eventType) ==> response == Response(200, ResultBody(Unhandled)))
  {
  }
}
