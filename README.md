# Storefront order pipeline — a Dafny model

This project models the order-handling logic of a small storefront site
that sells print-on-demand merchandise:

- the browser cart of `main.js`: `addToCart`, the item-count badge of
  `updateCartDisplay`, the empty-cart guard and request of `handleCheckout`,
  and the podcast card's YouTube embed-link rewrite;
- `create-checkout-session`: the serverless function that asks Stripe for a
  Checkout session for one `priceId`;
- `handle-successful-payment`: the Stripe webhook that turns a completed
  checkout session into a Printful order;
- `get-products`: the serverless function that normalizes the Printful
  store's product list for the page.

The cart is a class (`Storefront.Cart`) whose `entries` field `AddToCart`
updates in place; its contract ties the new entries to the specification
function `Added` and keeps the invariant that product ids are unique and
quantities are at least 1. Everything else in the core is pure and is
modelled as functions over datatypes. The calls to Stripe, Printful,
`JSON.parse` and `fetch` are not modelled; each handler receives their
outcome as an argument (a value, or the message of the error they threw) and
returns a `Run` record that says which outbound calls it made, with what
arguments, next to the `{statusCode, body}` response. A response body is the
value handed to `JSON.stringify` (`Http.Json`), not the serialized text.

The cart's identity key is the product id, as `main.js:26` has it; variant
ids never enter the cart. The page and the checkout function are modelled
each as written, and they do not agree: the page posts `{cart}` and redirects
to `session.url` (`main.js:68`, `main.js:77`), while the function reads
`priceId` and answers `{id}`. `CheckoutSession.CartBodyRejected` states
what the function does with the page's body: it never reaches Stripe and is
answered 500.

The model follows the code as written, including where it differs from
what an order pipeline of this kind would be expected to do: the webhook
answers 400 rather than acknowledging 200 when the Printful submission
fails (`handle-successful-payment.js:50-54`, `:65-70`); a line item without
variant metadata is not an error but yields a `NaN` variant id
(`handle-successful-payment.js:31`); the checkout function builds one line
item from a Stripe price id instead of one per cart entry with amounts in
minor units; and the cart has no remove operation and no price total.

In `Catalog.StoreProduct`, `variants` is None only when it is null or
missing, the case where reading its `length` throws; a present number
(Printful's variant count) or other value without a positive `length`
takes the `'0.00'` branch and is written `Some([])`.

In `PaymentWebhook.LineItem`, the product of a line item's price is either
the product's id or the product object with its metadata. Stripe lists it
by id unless the listing asks for it to be expanded, and the handler does
not ask (`handle-successful-payment.js:16`). For such a line item, reading
`metadata.printfulVariantId` throws, and the webhook answers 400 without
submitting an order (`PaymentWebhook.UnexpandedProductRejected`).

In `PaymentWebhook.Run`, `submitted` records the order whose Printful
request was issued, whether or not that request then failed.

Modules: `Wrappers` (Option, Result), `Http` (JSON values, truthiness,
responses), `NumberParsing` (`parseInt(s, 10)` and decimal rendering),
`Storefront`, `PodcastEmbed`, `PaymentWebhook`, `CheckoutSession`, `Catalog`.

## Model

| member | source | states |
|---|---|---|
| Storefront.FindIndex | main.js:26 | the result is -1 exactly when no entry has the id, otherwise the first index whose entry has it |
| Storefront.Added | main.js:26-39 | after an add the id is in the cart, the length grows by 1 exactly when it was absent, and entries with other ids are unchanged |
| Storefront.TotalItems | main.js:49 | the sum is 0 for an empty cart and at least every entry's quantity |
| Storefront.AddNew | main.js:31-39 | adding an id not in the cart appends exactly one entry with that id, name, price, image and quantity 1; earlier entries are unchanged |
| Storefront.AddExisting | main.js:26-30 | adding an id already in the cart raises that entry's quantity by exactly 1; length, its other fields and every other entry are unchanged |
| Storefront.AddKeepsWellFormed | main.js:22-40 | adding keeps product ids unique and every quantity at least 1 |
| Storefront.AddRaisesTotal | main.js:24-49 | the summed quantity after an add is the sum before plus exactly 1 |
| Storefront.TotalAtLeastLength | main.js:49 | when every quantity is at least 1 the summed quantity is at least the number of entries |
| Storefront.Cart.constructor | main.js:22 | the cart starts empty and well formed |
| Storefront.Cart.AddToCart | main.js:24-44 | the new entries are `Added` of the old ones, the invariant is kept and the item count rises by 1 |
| Storefront.Cart.CartDisplay | main.js:46-53 | no badge without the element; otherwise the badge shows the summed quantity and is hidden exactly when the cart is empty |
| Storefront.Cart.HandleCheckout | main.js:55-85 | no request is sent exactly when the button is missing or the cart is empty; otherwise it POSTs the whole cart, and redirects to the reply's `url` exactly when the reply is ok and parses, alerting in every other case |
| PodcastEmbed.FirstOccurrence | main.js:195 | the result is the first index at or after the start where the pattern occurs, or None when it occurs nowhere there |
| PodcastEmbed.ReplaceFirst | main.js:195 | a string without the pattern is returned unchanged; otherwise only the first occurrence is replaced |
| PodcastEmbed.EmbedUrl | main.js:195 | the link is unchanged exactly when it has no `watch?v=`; otherwise it is 2 shorter, with `embed/` where a `watch?v=` was and the text before it kept |
| PodcastEmbed.EmbedRewritesFirst | main.js:195 | the first `watch?v=` of a link becomes `embed/`, the text around it is kept and the link shrinks by 2 |
| PodcastEmbed.EmbedKeepsOtherLinks | main.js:195 | a link without `watch?v=` is used unchanged |
| PodcastEmbed.EmbedOfWatchUrl | main.js:195 | `https://www.youtube.com/watch?v=ID` becomes `https://www.youtube.com/embed/ID` |
| NumberParsing.DigitRun | netlify/functions/handle-successful-payment.js:31 | the length of the leading run of decimal digits: all digits before it, a non-digit at it |
| NumberParsing.ParseInt | netlify/functions/handle-successful-payment.js:31 | `undefined` and a string not starting with a digit or sign parse to NaN |
| NumberParsing.Decimal | netlify/functions/handle-successful-payment.js:31 | a decimal rendering is a non-empty digit string without a leading zero |
| NumberParsing.DecimalValue | netlify/functions/handle-successful-payment.js:31 | reading back a decimal rendering gives the number |
| NumberParsing.ParseIntOfDigits | netlify/functions/handle-successful-payment.js:31 | a non-empty string of decimal digits parses to its digits' value |
| NumberParsing.ParseIntRoundTrip | netlify/functions/handle-successful-payment.js:31 | parsing the decimal rendering of a variant id gives that id |
| Http.Member | netlify/functions/create-checkout-session.js:14 | a member lookup is undefined exactly when no member has the key; otherwise it is the value of the last member with that key |
| Http.Property | netlify/functions/create-checkout-session.js:14 | reading a property of a non-object gives `undefined`; an object gives `undefined` exactly when no member has the key, and otherwise the value of the last member with that key |
| Http.Truthy | netlify/functions/create-checkout-session.js:17 | the falsy values are exactly `undefined`, `null`, `false`, `0` and `""` |
| PaymentWebhook.Acknowledged | netlify/functions/handle-successful-payment.js:60-63 | status 200 with a JSON body whose `received` member is `true` |
| PaymentWebhook.WebhookError | netlify/functions/handle-successful-payment.js:65-70 | status 400 with a text body that is `Webhook Error: ` followed by exactly the error message |
| PaymentWebhook.ToRecipient | netlify/functions/handle-successful-payment.js:18-27 | recipient fields are copied one to one from the shipping details, address and customer email; `address2` is `''` exactly when `line2` is missing or empty; a null `shipping_details` or `customer_details` throws on the first field read from it |
| PaymentWebhook.VariantMetadata | netlify/functions/handle-successful-payment.js:31 | the metadata's `printfulVariantId`, None when the key is absent; a product given only by its id throws reading it from `undefined` |
| PaymentWebhook.OrderItems | netlify/functions/handle-successful-payment.js:30-33 | one order item per line item, same length and order, quantity copied, variant id the `parseInt` of the metadata; it throws exactly when some line item's product is only an id |
| PaymentWebhook.Translate | netlify/functions/handle-successful-payment.js:18-39 | the payload's `external_id` is the session id, its recipient and items are those above; it fails exactly when the recipient or the items throw, with the recipient's error first |
| PaymentWebhook.VariantIdRecovered | netlify/functions/handle-successful-payment.js:31 | a line item whose metadata is a variant id written in decimal yields an order item with that variant id and its quantity |
| PaymentWebhook.Handle | netlify/functions/handle-successful-payment.js:6-72 | failed verification answers 400 `Webhook Error: ` + message and calls nothing; a verified event of another type answers 200 `{received: true}` and calls nothing; line items are listed only for a completed session, under its id; the translated order is submitted exactly when the listing and the translation succeed; a listing, translation, fetch or body-reading error answers 400 with that error's message; a non-ok Printful reply answers 400 with the fixed submission-failure message; 200 exactly when the event is another type or the order was submitted and Printful answered ok with a readable body |
| PaymentWebhook.PaidOrderSubmitted | netlify/functions/handle-successful-payment.js:13-63 | a completed session with its details present, expanded products and an accepted submission is acknowledged after submitting an order keyed by the session id |
| PaymentWebhook.UnexpandedProductRejected | netlify/functions/handle-successful-payment.js:16-33 | a completed session with a line item whose product is only an id is answered 400 after the listing, and no order is submitted |
| CheckoutSession.SiteUrl | netlify/functions/create-checkout-session.js:22 | the `URL` environment value when set and non-empty, `http://localhost:8888` otherwise |
| CheckoutSession.PriceId | netlify/functions/create-checkout-session.js:14-19 | a null body throws, a missing or falsy `priceId` throws the missing-price message, and a truthy one is passed on unchanged |
| CheckoutSession.SessionError | netlify/functions/create-checkout-session.js:47-53 | status 500 with a JSON body whose `error` member is `Failed to create Stripe session: ` followed by the message |
| CheckoutSession.BuildSessionRequest | netlify/functions/create-checkout-session.js:25-39 | card payment mode with exactly one line item of the price id and quantity 1; success and cancel URLs are the site URL plus the two fixed pages |
| CheckoutSession.Handle | netlify/functions/create-checkout-session.js:5-55 | a non-POST answers 405 `Method Not Allowed` and creates nothing; a parse error, a `null` body or a missing price id answers 500 `Failed to create Stripe session: ` + message and creates nothing; otherwise the session request is built from the price id and site URL, and the answer is 200 `{id}` when Stripe succeeds and 500 when it throws |
| CheckoutSession.CartBodyRejected | netlify/functions/create-checkout-session.js:14-19 | the page's `{cart}` body never reaches Stripe and is answered 500 with the missing-price message |
| CheckoutSession.NullBodyRejected | netlify/functions/create-checkout-session.js:14 | a POST whose body parses to `null` never reaches Stripe and is answered 500 with the destructuring TypeError's message |
| Catalog.Normalize | netlify/functions/get-products.js:33-40 | `id` and `name` copied, `imageUrl` from `thumbnail_url`, price of the first variant or `'0.00'` with none; a missing `variants` throws |
| Catalog.NormalizeAll | netlify/functions/get-products.js:33-40 | the list has the same length and order as `result`, each entry normalized; it throws exactly when some product has no `variants` |
| Catalog.ProductJson | netlify/functions/get-products.js:33-40 | the serialized product has exactly the members `id`, `name`, `imageUrl` and `price`, holding the product's values |
| Catalog.Failed | netlify/functions/get-products.js:48-54 | status 500 with a JSON body whose `error` member is the fixed `Failed to fetch products from Printful` |
| Catalog.Handle | netlify/functions/get-products.js:3-56 | 200 exactly when the fetch succeeded with ok status and a normalizable `result`, with the list as body; every other case is 500 with the fixed error body |
| Catalog.ListedInOrder | netlify/functions/get-products.js:33-46 | on success element i of the body is `{id, name, imageUrl, price}` of upstream product i |

## Left out

- Stripe webhook signature checking (`constructEvent`): a foreign HMAC computation; the handler receives its outcome, an event or an error message.
- All network calls (`sessions.create`, `listLineItems`, the Printful and client `fetch`es): each is an argument holding its outcome. Reading the Printful reply's body (`text()` after a non-ok reply, `json()` after an ok one) is part of that outcome: an error there is answered 400 with its own message.
- `JSON.parse` of the checkout request body: an argument holding the parsed value or the thrown message.
- JSON serialization: response bodies are the values given to `JSON.stringify`; the text it produces, and its dropping of `undefined` members, are not modelled. Product and line-item fields, and the session's shipping name, address fields (`line1`, `city`, `state`, `country`, `postal_code`) and customer email, are taken as present strings; the code copies a `null` there into the order unchanged, which the model does not represent.
- Numbers: `Http.Json` numbers are integers, so `NaN`, fractions and the JavaScript truthiness of `NaN` are not modelled; the page's price is carried as an opaque `real` and never computed with (the `toFixed(2)` display is left out).
- NumberParsing.ParseInt: does not strip leading whitespace and ignores the precision loss of very long digit strings; its contract covers `undefined`, non-numeric starts, and (through `ParseIntOfDigits` and `ParseIntRoundTrip`) well-formed digit strings.
- Storefront.Cart.AddToCart: JavaScript's number limits are ignored; quantities are unbounded naturals.
- PaymentWebhook.OrderItems: a line item's `price` is taken as present; a missing `price` would throw on reading `product`, which is not modelled.
- Catalog.Normalize: a `variants` that is a non-empty string or another array-like value with a positive `length` is not modelled; the code would read `price` from its first element.
- Http.Property: keys that are indices, `length` or members inherited from `Object.prototype` are not modelled; only keys such as `priceId` are read.
- Engine error messages: a null `shipping_details`, `customer_details` or request body and a product given only by its id throw V8's TypeError, whose message is written out in V8's wording.
- DOM and UI work: the hero and podcast rendering, the product cards, button disabling, `alert`, and the `window.*` exports; only the badge values and the checkout outcome are modelled.
- Credential plumbing (`btoa` of the Printful key, the bearer header), console logging and environment secrets.
- The Sanity CMS schemas and configuration: declarative data with no logic.
