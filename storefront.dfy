/**
 * The browser-side shopping cart of the storefront page: the module-level
 * `cart` array that `addToCart` updates in place, the item-count badge that
 * `updateCartDisplay` derives from it, and the guard and request of
 * `handleCheckout`.
 */
module Storefront {
  import opened Wrappers

  /**
   * A product price as the shop page hands it to `addToCart` (a JavaScript
   * number). The cart stores it and never computes with it.
   */
  type Price = real

  /** One cart line; `id` is the product id and is the cart's identity key. */
  datatype Entry = Entry(id: string, name: string, price: Price, imageUrl: string, quantity: nat)

  /** No two entries share a product id. */
  ghost predicate UniqueIds(cart: seq<Entry>)
  {
    forall i, j :: 0 <= i < j < |cart| ==> cart[i].id != cart[j].id
  }

  /** Every entry has been added at least once. */
  ghost predicate QuantitiesPositive(cart: seq<Entry>)
  {
    forall i :: 0 <= i < |cart| ==> cart[i].quantity >= 1
  }

  ghost predicate WellFormed(cart: seq<Entry>)
  {
    UniqueIds(cart) && QuantitiesPositive(cart)
  }

  /** `cart.findIndex(item => item.id === id)`: the first matching index, or -1. */
  function FindIndex(cart: seq<Entry>, id: string): (k: int)
    ensures -1 <= k < |cart|
    ensures k >= 0 ==> cart[k].id == id && forall j :: 0 <= j < k ==> cart[j].id != id
    ensures k == -1 ==> forall j :: 0 <= j < |cart| ==> cart[j].id != id
  {
    if cart == [] then -1
    else if cart[0].id == id then 0
    else
      var k := FindIndex(cart[1..], id);
      if k == -1 then -1 else k + 1
  }

  /** The cart that `addToCart(id, name, price, imageUrl)` leaves behind. */
  function Added(cart: seq<Entry>, id: string, name: string, price: Price, imageUrl: string): (r: seq<Entry>)
    ensures |r| == if FindIndex(cart, id) == -1 then |cart| + 1 else |cart|
    ensures exists k :: 0 <= k < |r| && r[k].id == id
    ensures forall j :: 0 <= j < |cart| && cart[j].id != id ==> r[j] == cart[j]
  {
    var k := FindIndex(cart, id);
    if k > -1 then
      var r := cart[k := cart[k].(quantity := cart[k].quantity + 1)];
      assert r[k].id == id;
      r
    else
      var r := cart + [Entry(id, name, price, imageUrl, 1)];
      assert r[|cart|].id == id;
      r
  }

  /** `cart.reduce((total, item) => total + item.quantity, 0)`, folded from the left. */
  function TotalItems(cart: seq<Entry>): (total: nat)
    ensures cart == [] ==> total == 0
    ensures forall i :: 0 <= i < |cart| ==> cart[i].quantity <= total
  {
    if cart == [] then 0 else TotalItems(cart[..|cart| - 1]) + cart[|cart| - 1].quantity
  }

  /** Adding a product id that is not in the cart appends exactly one new entry of quantity 1. */
  lemma AddNew(cart: seq<Entry>, id: string, name: string, price: Price, imageUrl: string)
    requires forall j :: 0 <= j < |cart| ==> cart[j].id != id
    ensures var r := Added(cart, id, name, price, imageUrl);
      && |r| == |cart| + 1
      && r[..|cart|] == cart
      && r[|cart|] == Entry(id, name, price, imageUrl, 1)
  {
  }

  /**
   * Adding a product id already in the cart raises that entry's quantity by
   * one; its name, price and image, the length and every other entry stay as they were.
   */
  lemma AddExisting(cart: seq<Entry>, k: nat, name: string, price: Price, imageUrl: string)
    requires UniqueIds(cart)
    requires k < |cart|
    ensures var r := Added(cart, cart[k].id, name, price, imageUrl);
      && |r| == |cart|
      && r[k] == cart[k].(quantity := cart[k].quantity + 1)
      && forall j :: 0 <= j < |cart| && j != k ==> r[j] == cart[j]
  {
  }

  /** `addToCart` keeps product ids unique and every quantity at least 1. */
  lemma AddKeepsWellFormed(cart: seq<Entry>, id: string, name: string, price: Price, imageUrl: string)
    requires WellFormed(cart)
    ensures WellFormed(Added(cart, id, name, price, imageUrl))
  {
  }

  lemma {:induction false} TotalOfUpdate(cart: seq<Entry>, k: nat, e: Entry)
    requires k < |cart|
    ensures TotalItems(cart[k := e]) == TotalItems(cart) - cart[k].quantity + e.quantity
  {
    var n := |cart| - 1;
    if k == n {
      assert cart[k := e][..n] == cart[..n];
    } else {
      assert cart[k := e][..n] == cart[..n][k := e];
      TotalOfUpdate(cart[..n], k, e);
    }
  }

  /** Every `addToCart` raises the displayed item count by exactly one. */
  lemma AddRaisesTotal(cart: seq<Entry>, id: string, name: string, price: Price, imageUrl: string)
    ensures TotalItems(Added(cart, id, name, price, imageUrl)) == TotalItems(cart) + 1
  {
    var k := FindIndex(cart, id);
    if k > -1 {
      TotalOfUpdate(cart, k, cart[k].(quantity := cart[k].quantity + 1));
    } else {
      var r := cart + [Entry(id, name, price, imageUrl, 1)];
      assert r[..|r| - 1] == cart;
    }
  }

  /** With every quantity at least 1, the count is at least the number of entries. */
  lemma {:induction false} TotalAtLeastLength(cart: seq<Entry>)
    requires QuantitiesPositive(cart)
    ensures TotalItems(cart) >= |cart|
  {
    if cart != [] {
      TotalAtLeastLength(cart[..|cart| - 1]);
    }
  }

  /** The text and visibility of the `cart-count` badge. */
  datatype Badge = Badge(text: nat, hidden: bool)

  /** The request `handleCheckout` sends to the checkout-session function. */
  datatype CheckoutRequest = CheckoutRequest(path: string, httpMethod: string, cart: seq<Entry>)

  /**
   * The checkout function's reply as `handleCheckout` sees it: the fetch
   * itself failed, or a response with its `ok` flag and, when its body
   * parses as JSON, the body's `url` member (None when it is absent). A
   * body that does not parse, or parses to `null` so that reading
   * `session.url` throws, is `session == None`; both end in the alert.
   */
  datatype CheckoutReply = NetworkError | Replied(ok: bool, session: Option<Option<string>>)

  /**
   * What `handleCheckout` ends in: it returned at once, it redirected the
   * browser to `session.url` (None: the member was `undefined`), or it
   * alerted the user and re-enabled the button.
   */
  datatype CheckoutOutcome = NotStarted | Redirected(target: Option<string>) | Alerted

  datatype CheckoutRun = CheckoutRun(request: Option<CheckoutRequest>, outcome: CheckoutOutcome)

  const CheckoutPath := "/.netlify/functions/create-checkout-session"

  /** The page's cart: the module-level array that `addToCart` updates in place. */
  class Cart {
    var entries: seq<Entry>

    ghost predicate Valid()
      reads this
    {
      WellFormed(entries)
    }

    /** `let cart = [];` */
    constructor ()
      ensures Valid() && entries == []
    {
      entries := [];
    }

    /** `addToCart`: bump the entry with this product id, or append a new one. */
    method AddToCart(productId: string, productName: string, productPrice: Price, productImageUrl: string)
      requires Valid()
      modifies this
      ensures Valid()
      ensures entries == Added(old(entries), productId, productName, productPrice, productImageUrl)
      ensures TotalItems(entries) == TotalItems(old(entries)) + 1
    {
      var existing := FindIndex(entries, productId);
      AddKeepsWellFormed(entries, productId, productName, productPrice, productImageUrl);
      AddRaisesTotal(entries, productId, productName, productPrice, productImageUrl);
      if existing > -1 {
        entries := entries[existing := entries[existing].(quantity := entries[existing].quantity + 1)];
      } else {
        entries := entries + [Entry(productId, productName, productPrice, productImageUrl, 1)];
      }
    }

    /**
     * `updateCartDisplay`: nothing when the page has no `cart-count` element;
     * otherwise the badge shows the item count and is hidden exactly when the
     * cart is empty.
     */
    function CartDisplay(elementPresent: bool): (b: Option<Badge>)
      requires Valid()
      reads this
      ensures b.Some? <==> elementPresent
      ensures b.Some? ==> b.value.text == TotalItems(entries) && b.value.text >= |entries|
      ensures b.Some? ==> (b.value.hidden <==> entries == [])
    {
      TotalAtLeastLength(entries);
      if elementPresent then
        var total := TotalItems(entries);
        Some(Badge(total, total == 0))
      else None
    }

    /**
     * `handleCheckout`: with no checkout button or an empty cart it returns
     * before sending anything; otherwise it POSTs `{cart}` and either
     * redirects to the reply's `url` or alerts.
     */
    function HandleCheckout(buttonPresent: bool, reply: CheckoutReply): (r: CheckoutRun)
      reads this
      ensures r.request.None? <==> !buttonPresent || entries == []
      ensures r.request.Some? ==> r.request.value == CheckoutRequest(CheckoutPath, "POST", entries)
      ensures r.outcome.NotStarted? <==> r.request.None?
      ensures r.outcome.Redirected? <==> r.request.Some? && reply.Replied? && reply.ok && reply.session.Some?
      ensures r.outcome.Redirected? ==> r.outcome.target == reply.session.value
    {
      if !buttonPresent || |entries| == 0 then CheckoutRun(None, NotStarted)
      else
        var request := Some(CheckoutRequest(CheckoutPath, "POST", entries));
        match reply
        case NetworkError => CheckoutRun(request, Alerted)
        case Replied(ok, session) =>
          if !ok || session.None? then CheckoutRun(request, Alerted)
          else CheckoutRun(request, Redirected(session.value))
    }
  }
}
