/**
 * The serverless function that lists the Printful store's products in the
 * shape the storefront page renders. The Printful `fetch` is taken as its outcome.
 */
module Catalog {
  import opened Wrappers
  import opened Http

  const DefaultPrice := "0.00"
  const FetchFailedError := "Failed to fetch products from Printful"

  datatype Variant = Variant(price: Json)

  /**
   * One entry of Printful's `result` array. `variants` is None only when it
   * is null or missing, so that reading its `length` throws. A present
   * number (Printful's variant count) or other value without a positive
   * `length` takes the `'0.00'` branch and is written `Some([])`.
   */
  datatype StoreProduct = StoreProduct(id: Json, name: Json, thumbnailUrl: Json, variants: Option<seq<Variant>>)

  /** The simplified product the storefront page receives. */
  datatype Product = Product(id: Json, name: Json, imageUrl: Json, price: Json)

  /**
   * The Printful `fetch`: it threw, or a response came back with its `ok`
   * flag and, when the body parsed and held a `result` array, that array.
   */
  datatype Upstream = FetchFailed | Replied(ok: bool, result: Option<seq<StoreProduct>>)

  /**
   * The mapping applied to one product; None when reading
   * `variants.length` throws because `variants` is missing.
   */
  function Normalize(p: StoreProduct): (r: Option<Product>)
    ensures r.Some? <==> p.variants.Some?
    ensures r.Some? ==> r.value.id == p.id && r.value.name == p.name && r.value.imageUrl == p.thumbnailUrl
    ensures r.Some? && |p.variants.value| > 0 ==> r.value.price == p.variants.value[0].price
    ensures r.Some? && |p.variants.value| == 0 ==> r.value.price == JStr(DefaultPrice)
  {
    match p.variants
    case None => None
    case Some(variants) =>
      Some(Product(p.id, p.name, p.thumbnailUrl, if |variants| > 0 then variants[0].price else JStr(DefaultPrice)))
  }

  /** `data.result.map(...)`: every product normalized, in order, or None if one of them throws. */
  function NormalizeAll(products: seq<StoreProduct>): (r: Option<seq<Product>>)
    ensures r.Some? <==> forall i :: 0 <= i < |products| ==> products[i].variants.Some?
    ensures r.Some? ==> |r.value| == |products|
    ensures r.Some? ==> forall i :: 0 <= i < |products| ==> Normalize(products[i]) == Some(r.value[i])
  {
    if products == [] then Some([])
    else
      match NormalizeAll(products[..|products| - 1])
      case None => None
      case Some(front) =>
        match Normalize(products[|products| - 1])
        case None => None
        case Some(last) => Some(front + [last])
  }

  /** The object serialized for one product, with its four members. */
  function ProductJson(p: Product): (j: Json)
    ensures j.JObj? && |j.members| == 4
    ensures Property(j, "id") == Some(p.id) && Property(j, "name") == Some(p.name)
    ensures Property(j, "imageUrl") == Some(p.imageUrl) && Property(j, "price") == Some(p.price)
  {
    var members := [("id", p.id), ("name", p.name), ("imageUrl", p.imageUrl), ("price", p.price)];
    assert DistinctKeys(members);
    MemberOfDistinct(members, 0); MemberOfDistinct(members, 1);
    MemberOfDistinct(members, 2); MemberOfDistinct(members, 3);
    JObj(members)
  }

  /** The fixed 500 reply to any failure. */
  function Failed(): (r: Response)
    ensures r.statusCode == 500 && r.body.JsonBody?
    ensures Property(r.body.value, "error") == Some(JStr(FetchFailedError))
  {
    Response(500, JsonBody(JObj([("error", JStr(FetchFailedError))])))
  }

  /** The handler: 200 with the normalized list, or 500 with a fixed error body. */
  function Handle(upstream: Upstream): (r: Response)
    ensures r.statusCode == 200 || r == Failed()
    ensures r.statusCode == 200 <==>
      upstream.Replied? && upstream.ok && upstream.result.Some? && NormalizeAll(upstream.result.value).Some?
    ensures r.statusCode == 200 ==>
      var products := NormalizeAll(upstream.result.value).value;
      r.body == JsonBody(JArr(seq(|products|, i requires 0 <= i < |products| => ProductJson(products[i]))))
  {
    match upstream
    case FetchFailed => Failed()
    case Replied(ok, result) =>
      if !ok || result.None? then Failed()
      else
        match NormalizeAll(result.value)
        case None => Failed()
        case Some(products) => Response(200, JsonBody(JArr(seq(|products|, i requires 0 <= i < |products| => ProductJson(products[i])))))
  }

  /**
   * On success the body lists one `{id, name, imageUrl, price}` object per
   * upstream product, in the upstream order, with the price of the first
   * variant or "0.00".
   */
  lemma ListedInOrder(result: seq<StoreProduct>, i: nat)
    requires Handle(Replied(true, Some(result))).statusCode == 200
    requires i < |result|
    ensures var body := Handle(Replied(true, Some(result))).body;
      && body.JsonBody? && body.value.JArr? && |body.value.elems| == |result|
      && body.value.elems[i] == JObj([
           ("id", result[i].id), ("name", result[i].name), ("imageUrl", result[i].thumbnailUrl),
           ("price", if |result[i].variants.value| > 0 then result[i].variants.value[0].price else JStr(DefaultPrice))])
  {
  }
}
