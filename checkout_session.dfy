/**
 * The serverless function that creates a Stripe Checkout session for a
 * single price. `JSON.parse` of the request body and the
 * `stripe.checkout.sessions.create` call are taken as their outcomes.
 */
module CheckoutSession {
  import opened Wrappers
  import opened Http

  const DefaultSiteUrl := "http://localhost:8888"
  const MissingPriceIdMessage := "Missing Price ID in the request from the website."
  const NullBodyMessage := "Cannot destructure property 'priceId' of 'JSON.parse(...)' as it is null."

  /** The incoming request: its method, and what `JSON.parse(event.body)` returned or threw. */
  datatype Request = Request(httpMethod: string, parsedBody: Result<Json>)

  datatype SessionLineItem = SessionLineItem(price: Json, quantity: int)

  /** The argument of `stripe.checkout.sessions.create`. */
  datatype SessionRequest = SessionRequest(
    paymentMethodTypes: seq<string>,
    lineItems: seq<SessionLineItem>,
    mode: string,
    successUrl: string,
    cancelUrl: string)

  /** One invocation: the session request sent to Stripe (if any) and the response. */
  datatype Run = Run(sessionRequest: Option<SessionRequest>, response: Response)

  /** `process.env.URL || 'http://localhost:8888'`; None is an unset variable. */
  function SiteUrl(envUrl: Option<string>): (u: string)
    ensures envUrl.Some? && envUrl.value != "" ==> u == envUrl.value
    ensures envUrl.None? || envUrl.value == "" ==> u == DefaultSiteUrl
    ensures u != ""
  {
    if envUrl.Some? && envUrl.value != "" then envUrl.value else DefaultSiteUrl
  }

  /**
   * `const { priceId } = body` followed by the `!priceId` check: the price
   * id when it is truthy, the thrown error's message otherwise.
   */
  function PriceId(body: Json): (r: Result<Json>)
    ensures body.JNull? ==> r == Failure(NullBodyMessage)
    ensures !body.JNull? && !Truthy(Property(body, "priceId")) ==> r == Failure(MissingPriceIdMessage)
    ensures r.Success? <==> !body.JNull? && Truthy(Property(body, "priceId"))
    ensures r.Success? ==> Property(body, "priceId") == Some(r.value)
  {
    if body.JNull? then Failure(NullBodyMessage)
    else
      var priceId := Property(body, "priceId");
      if !Truthy(priceId) then Failure(MissingPriceIdMessage) else Success(priceId.value)
  }

  /** The session request: card payment of one unit of `priceId`, returning to the site. */
  function BuildSessionRequest(priceId: Json, siteUrl: string): (s: SessionRequest)
    ensures |s.lineItems| == 1
    ensures s.lineItems[0].price == priceId && s.lineItems[0].quantity == 1
    ensures s.paymentMethodTypes == ["card"] && s.mode == "payment"
    ensures s.successUrl == siteUrl + "/payment-success.html"
    ensures s.cancelUrl == siteUrl + "/payment-cancelled.html"
  {
    SessionRequest(
      ["card"],
      [SessionLineItem(priceId, 1)],
      "payment",
      siteUrl + "/payment-success.html",
      siteUrl + "/payment-cancelled.html")
  }

  /** The 500 reply to any thrown error: the message, after a fixed prefix, under `error`. */
  function SessionError(message: string): (r: Response)
    ensures r.statusCode == 500 && r.body.JsonBody?
    ensures Property(r.body.value, "error") == Some(JStr("Failed to create Stripe session: " + message))
  {
    Response(500, JsonBody(JObj([("error", JStr("Failed to create Stripe session: " + message))])))
  }

  /**
   * The handler. `envUrl` is `process.env.URL`; `created` is the session id
   * Stripe returned, or the message of the error `create` threw.
   */
  function Handle(request: Request, envUrl: Option<string>, created: Result<string>): (r: Run)
    ensures r.response.statusCode in {405, 500, 200}
    ensures request.httpMethod != "POST" ==> r == Run(None, Response(405, Text("Method Not Allowed")))
    ensures request.httpMethod == "POST" && request.parsedBody.Failure? ==>
      r == Run(None, SessionError(request.parsedBody.error))
    ensures request.httpMethod == "POST" && request.parsedBody.Success? && PriceId(request.parsedBody.value).Failure? ==>
      r == Run(None, SessionError(PriceId(request.parsedBody.value).error))
    ensures r.sessionRequest.Some? <==>
      request.httpMethod == "POST" && request.parsedBody.Success? && PriceId(request.parsedBody.value).Success?
    ensures r.sessionRequest.Some? ==>
      r.sessionRequest.value == BuildSessionRequest(PriceId(request.parsedBody.value).value, SiteUrl(envUrl))
    ensures r.response.statusCode == 200 <==> r.sessionRequest.Some? && created.Success?
    ensures r.response.statusCode == 200 ==> r.response.body == JsonBody(JObj([("id", JStr(created.value))]))
    ensures r.sessionRequest.Some? && created.Failure? ==> r.response == SessionError(created.error)
  {
    if request.httpMethod != "POST" then Run(None, Response(405, Text("Method Not Allowed")))
    else
      match request.parsedBody
      case Failure(message) => Run(None, SessionError(message))
      case Success(body) =>
        match PriceId(body)
        case Failure(message) => Run(None, SessionError(message))
        case Success(priceId) =>
          var sessionRequest := BuildSessionRequest(priceId, SiteUrl(envUrl));
          match created
          case Failure(message) => Run(Some(sessionRequest), SessionError(message))
          case Success(id) => Run(Some(sessionRequest), Response(200, JsonBody(JObj([("id", JStr(id))]))))
  }

  /**
   * The cart the storefront page posts (`{cart: [...]}`) carries no
   * `priceId` member, so such a request never reaches Stripe and is
   * answered 500.
   */
  lemma CartBodyRejected(cartItems: seq<Json>, envUrl: Option<string>, created: Result<string>)
    ensures Handle(Request("POST", Success(JObj([("cart", JArr(cartItems))]))), envUrl, created)
            == Run(None, SessionError(MissingPriceIdMessage))
  {
  }

  /** A body that parses to `null` is answered 500 with the destructuring TypeError's message. */
  lemma NullBodyRejected(envUrl: Option<string>, created: Result<string>)
    ensures Handle(Request("POST", Success(JNull)), envUrl, created) == Run(None, SessionError(NullBodyMessage))
  {
  }
}
