/**
 * The Stripe webhook handler that turns a paid checkout session into a
 * Printful order. The Stripe and Printful calls are taken as their outcomes:
 * `Handle` receives what `constructEvent`, `listLineItems` and the Printful
 * `fetch` produced, and reports which calls it made alongside its response.
 */
module PaymentWebhook {
  import opened Wrappers
  import opened Http
  import opened NumberParsing

  const CompletedEvent := "checkout.session.completed"
  const SubmissionFailedMessage := "Failed to submit order to Printful."

  datatype Address = Address(
    line1: string, line2: Option<string>, city: string,
    state: string, country: string, postalCode: string)

  datatype ShippingDetails = ShippingDetails(name: string, address: Address)

  datatype CustomerDetails = CustomerDetails(email: string)

  /** `event.data.object` of a completed checkout; absent details are Stripe's `null`. */
  datatype Session = Session(
    id: string,
    shippingDetails: Option<ShippingDetails>,
    customerDetails: Option<CustomerDetails>)

  /** A verified Stripe event. */
  datatype Event = Event(eventType: string, session: Session)

  const VariantIdKey := "printfulVariantId"

  /**
   * A line item's `price.product`: the product's id, which is how Stripe
   * lists it unless the listing asks for it to be expanded, or the product
   * object with its metadata.
   */
  datatype ProductRef = ProductId(id: string) | ProductObject(metadata: map<string, string>)

  /** One entry of `lineItems.data`: its quantity and its price's product. */
  datatype LineItem = LineItem(quantity: int, product: ProductRef)

  datatype Recipient = Recipient(
    name: string, address1: string, address2: string, city: string,
    stateCode: string, countryCode: string, zip: string, email: string)

  datatype OrderItem = OrderItem(variantId: Number, quantity: int)

  /** The body of the Printful order request. */
  datatype OrderPayload = OrderPayload(recipient: Recipient, items: seq<OrderItem>, externalId: string)

  /**
   * The Printful `fetch`: it threw with a message, or a response came back
   * with its `ok` flag. `bodyError` is the message of the error thrown while
   * reading that response's body (`text()` after a non-ok reply, `json()` and
   * its `id` after an ok one), or None when the body was read.
   */
  datatype PrintfulReply = FetchFailed(message: string) | Replied(ok: bool, bodyError: Option<string>)

  /**
   * One invocation of the handler: the session id whose line items were
   * listed (if any), the order payload sent to Printful (if any), and the response.
   */
  datatype Run = Run(lineItemsOf: Option<string>, submitted: Option<OrderPayload>, response: Response)

  /** `{statusCode: 200, body: JSON.stringify({received: true})}`. */
  function Acknowledged(): (r: Response)
    ensures r.statusCode == 200 && r.body.JsonBody?
    ensures Property(r.body.value, "received") == Some(JBool(true))
  {
    Response(200, JsonBody(JObj([("received", JBool(true))])))
  }

  /** The 400 reply to any thrown error; the error's message follows a fixed prefix. */
  function WebhookError(message: string): (r: Response)
    ensures r.statusCode == 400 && r.body.Text?
    ensures |r.body.text| == 15 + |message|
    ensures r.body.text[..15] == "Webhook Error: " && r.body.text[15..] == message
  {
    Response(400, Text("Webhook Error: " + message))
  }

  /**
   * The Printful recipient built from the session. The fields are read in
   * order, so a null `shipping_details` throws on `name` before a null
   * `customer_details` can throw on `email`.
   */
  function ToRecipient(session: Session): (r: Result<Recipient>)
    ensures r.Success? <==> session.shippingDetails.Some? && session.customerDetails.Some?
    ensures session.shippingDetails.None? ==> r == Failure(NullReadMessage("name"))
    ensures session.shippingDetails.Some? && session.customerDetails.None? ==> r == Failure(NullReadMessage("email"))
    ensures r.Success? ==>
      var shipping := session.shippingDetails.value;
      var a := shipping.address;
      && r.value.name == shipping.name
      && r.value.address1 == a.line1
      && r.value.city == a.city
      && r.value.stateCode == a.state
      && r.value.countryCode == a.country
      && r.value.zip == a.postalCode
      && r.value.email == session.customerDetails.value.email
      && (r.value.address2 == "" <==> a.line2.None? || a.line2.value == "")
      && (a.line2.Some? ==> r.value.address2 == a.line2.value)
  {
    match session.shippingDetails
    case None => Failure(NullReadMessage("name"))
    case Some(shipping) =>
      match session.customerDetails
      case None => Failure(NullReadMessage("email"))
      case Some(customer) =>
        var a := shipping.address;
        Success(Recipient(
          shipping.name, a.line1, a.line2.GetOr(""), a.city,
          a.state, a.country, a.postalCode, customer.email))
  }

  /**
   * `item.price.product.metadata.printfulVariantId`: None when the metadata
   * has no such key. A product given only by its id has no `metadata`, so
   * reading the key from `undefined` throws.
   */
  function VariantMetadata(item: LineItem): (r: Result<Option<string>>)
    ensures r.Failure? <==> item.product.ProductId?
    ensures r.Failure? ==> r.error == UndefinedReadMessage(VariantIdKey)
    ensures r.Success? ==> (r.value.Some? <==> VariantIdKey in item.product.metadata)
    ensures r.Success? && r.value.Some? ==> r.value.value == item.product.metadata[VariantIdKey]
  {
    match item.product
    case ProductId(_) => Failure(UndefinedReadMessage(VariantIdKey))
    case ProductObject(metadata) =>
      Success(if VariantIdKey in metadata then Some(metadata[VariantIdKey]) else None)
  }

  /**
   * `lineItems.data.map(...)`: one order item per line item, in order, or
   * the TypeError of the first line item whose product is only an id.
   */
  function OrderItems(lineItems: seq<LineItem>): (r: Result<seq<OrderItem>>)
    ensures r.Success? <==> forall i :: 0 <= i < |lineItems| ==> lineItems[i].product.ProductObject?
    ensures r.Failure? ==> r.error == UndefinedReadMessage(VariantIdKey)
    ensures r.Success? ==> |r.value| == |lineItems|
    ensures r.Success? ==> forall i :: 0 <= i < |lineItems| ==>
      r.value[i].quantity == lineItems[i].quantity
      && r.value[i].variantId == ParseInt(VariantMetadata(lineItems[i]).value)
  {
    if lineItems == [] then Success([])
    else
      match OrderItems(lineItems[..|lineItems| - 1])
      case Failure(message) => Failure(message)
      case Success(front) =>
        var last := lineItems[|lineItems| - 1];
        match VariantMetadata(last)
        case Failure(message) => Failure(message)
        case Success(variantId) => Success(front + [OrderItem(ParseInt(variantId), last.quantity)])
  }

  /**
   * The Printful order for a completed session and its line items. The
   * recipient is built before the items, so its error comes first. The
   * order depends on nothing else, and its `external_id` is the session id,
   * so a redelivered event yields the same order under the same reference.
   */
  function Translate(session: Session, lineItems: seq<LineItem>): (r: Result<OrderPayload>)
    ensures r.Success? <==> ToRecipient(session).Success? && OrderItems(lineItems).Success?
    ensures ToRecipient(session).Failure? ==> r == Failure(ToRecipient(session).error)
    ensures ToRecipient(session).Success? && OrderItems(lineItems).Failure? ==> r == Failure(OrderItems(lineItems).error)
    ensures r.Success? ==>
      && r.value.externalId == session.id
      && r.value.recipient == ToRecipient(session).value
      && |r.value.items| == |lineItems|
      && forall i :: 0 <= i < |lineItems| ==>
           r.value.items[i].quantity == lineItems[i].quantity
           && r.value.items[i].variantId == ParseInt(VariantMetadata(lineItems[i]).value)
  {
    match ToRecipient(session)
    case Failure(message) => Failure(message)
    case Success(recipient) =>
      match OrderItems(lineItems)
      case Failure(message) => Failure(message)
      case Success(items) => Success(OrderPayload(recipient, items, session.id))
  }

  /**
   * A line item whose metadata holds a variant id written in decimal yields
   * an order item with exactly that variant id.
   */
  lemma VariantIdRecovered(session: Session, lineItems: seq<LineItem>, i: nat, variantId: nat)
    requires Translate(session, lineItems).Success?
    requires i < |lineItems| && lineItems[i].product.ProductObject?
    requires VariantIdKey in lineItems[i].product.metadata
    requires lineItems[i].product.metadata[VariantIdKey] == Decimal(variantId)
    ensures Translate(session, lineItems).value.items[i] == OrderItem(Int(variantId), lineItems[i].quantity)
  {
    ParseIntRoundTrip(variantId);
  }

  /**
   * The webhook handler. `verified` is what `constructEvent` made of the
   * raw body, signature header and secret; `lineItems` is what
   * `listLineItems` returned or threw; `printful` is the outcome of the order
   * submission. Each is consulted only if the handler gets that far.
   */
  function Handle(verified: Result<Event>, lineItems: Result<seq<LineItem>>, printful: PrintfulReply): (r: Run)
    ensures r.response.statusCode == 200 || r.response.statusCode == 400
    ensures r.response.statusCode == 400 ==> r.response.body.Text?
    ensures verified.Failure? ==> r == Run(None, None, WebhookError(verified.error))
    ensures verified.Success? && verified.value.eventType != CompletedEvent ==> r == Run(None, None, Acknowledged())
    ensures r.lineItemsOf.Some? <==> verified.Success? && verified.value.eventType == CompletedEvent
    ensures r.lineItemsOf.Some? ==> r.lineItemsOf.value == verified.value.session.id
    ensures r.submitted.Some? ==>
      && verified.Success? && verified.value.eventType == CompletedEvent && lineItems.Success?
      && Translate(verified.value.session, lineItems.value) == Success(r.submitted.value)
    ensures r.submitted.Some? <==>
      && verified.Success? && verified.value.eventType == CompletedEvent && lineItems.Success?
      && Translate(verified.value.session, lineItems.value).Success?
    ensures verified.Success? && verified.value.eventType == CompletedEvent && lineItems.Failure? ==>
      r.response == WebhookError(lineItems.error)
    ensures (verified.Success? && verified.value.eventType == CompletedEvent && lineItems.Success?
             && Translate(verified.value.session, lineItems.value).Failure?)
            ==> r.response == WebhookError(Translate(verified.value.session, lineItems.value).error)
    ensures r.response.statusCode == 200 <==>
      verified.Success? && (verified.value.eventType != CompletedEvent || (r.submitted.Some? && printful == Replied(true, None)))
    ensures r.submitted.Some? && printful.FetchFailed? ==> r.response == WebhookError(printful.message)
    ensures r.submitted.Some? && printful == Replied(false, None) ==> r.response == WebhookError(SubmissionFailedMessage)
    ensures r.submitted.Some? && printful.Replied? && printful.bodyError.Some? ==>
      r.response == WebhookError(printful.bodyError.value)
  {
    match verified
    case Failure(message) => Run(None, None, WebhookError(message))
    case Success(event) =>
      if event.eventType != CompletedEvent then Run(None, None, Acknowledged())
      else
        var listed := Some(event.session.id);
        match lineItems
        case Failure(message) => Run(listed, None, WebhookError(message))
        case Success(items) =>
          match Translate(event.session, items)
          case Failure(message) => Run(listed, None, WebhookError(message))
          case Success(payload) =>
            match printful
            case FetchFailed(message) => Run(listed, Some(payload), WebhookError(message))
            case Replied(ok, bodyError) =>
              if bodyError.Some? then Run(listed, Some(payload), WebhookError(bodyError.value))
              else if ok then Run(listed, Some(payload), Acknowledged())
              else Run(listed, Some(payload), WebhookError(SubmissionFailedMessage))
  }

  /**
   * A completed session whose details are all present and whose Printful
   * submission is accepted is acknowledged, after exactly one order
   * carrying the session id as its external reference was submitted.
   */
  lemma PaidOrderSubmitted(event: Event, lineItems: seq<LineItem>)
    requires event.eventType == CompletedEvent
    requires event.session.shippingDetails.Some? && event.session.customerDetails.Some?
    requires forall i :: 0 <= i < |lineItems| ==> lineItems[i].product.ProductObject?
    ensures var r := Handle(Success(event), Success(lineItems), Replied(true, None));
      && r.response == Acknowledged()
      && r.submitted.Some?
      && r.submitted.value.externalId == event.session.id
      && r.submitted.value.items == OrderItems(lineItems).value
  {
  }

  /**
   * A completed session with a line item whose product is listed only by its
   * id is answered 400 and no order is submitted, whatever Printful would say.
   */
  lemma UnexpandedProductRejected(event: Event, lineItems: seq<LineItem>, printful: PrintfulReply, i: nat)
    requires event.eventType == CompletedEvent
    requires i < |lineItems| && lineItems[i].product.ProductId?
    ensures var r := Handle(Success(event), Success(lineItems), printful);
      && r.response.statusCode == 400
      && r.submitted.None?
      && r.lineItemsOf == Some(event.session.id)
  {
  }
}
