/**
 * The two storefront AJAX handlers, `smarty_gtm_add_to_cart_ajax` and
 * `smarty_gtm_get_product_data`. `wp_send_json_error` / `wp_send_json_success`
 * become a `Reply`; a failed `check_ajax_referer`, which ends the request
 * before anything else runs, is `NonceRejected`.
 */
module Ajax {

  import opened Wrappers
  import opened Text
  import opened Store
  import opened Formatting

  const MissingIdMessage := "Product ID is missing or invalid"
  const NotFoundMessage := "Product not found"

  datatype Reply<T> = NonceRejected | Error(message: string) | Success(data: T)

  /**
   * The POSTed fields. `productId` and `quantity` are the integers PHP's
   * `intval` reads from them; `None` when the field is not set.
   */
  datatype Request = Request(nonceValid: bool, productId: Option<int>, quantity: Option<int>)

  /** `absint`: the magnitude of the integer. */
  function AbsInt(x: int): (r: nat)
    ensures r == x || r == -x
  {
    if x < 0 then -x else x
  }

  /** `isset($_POST['product_id']) ? absint($_POST['product_id']) : 0`. */
  function RequestedId(req: Request): nat {
    match req.productId
    case Some(v) => AbsInt(v)
    case None => 0
  }

  /** `isset($_POST['quantity']) ? intval($_POST['quantity']) : 1`: not range-checked. */
  function RequestedQuantity(req: Request): int {
    req.quantity.GetOr(1)
  }

  /** `smarty_gtm_add_to_cart_ajax`. */
  function AddToCart(req: Request, catalog: Catalog, site: Site, currency: string): (r: Reply<Envelope>)
    ensures r.NonceRejected? <==> !req.nonceValid
    ensures r == Error(MissingIdMessage) <==> req.nonceValid && RequestedId(req) == 0
    ensures r == Error(NotFoundMessage) <==> req.nonceValid && RequestedId(req) != 0 && RequestedId(req) !in catalog
    ensures r.Success? <==> req.nonceValid && RequestedId(req) != 0 && RequestedId(req) in catalog
    ensures r.Success? ==>
      var p, q := catalog[RequestedId(req)], RequestedQuantity(req);
      && r.data.event == "add_to_cart"
      && r.data.eventModel.value == Number(p.price * q)
      && r.data.eventModel.currency == currency
      && r.data.eventModel.eventSource == PluginSource
      && r.data.eventModel.items == [FormatProductItem(p, q, 1)]
  {
    if !req.nonceValid then NonceRejected
    else
      var productId, quantity := RequestedId(req), RequestedQuantity(req);
      if productId <= 0 then Error(MissingIdMessage)
      else if productId !in catalog then Error(NotFoundMessage)
      else
        var product := catalog[productId];
        Success(FormatEventModel(
          site, "add_to_cart", "", Number(product.price * quantity), currency, Blank, Blank,
          [FormatProductItem(product, quantity)], PluginSource))
  }

  /** `smarty_gtm_get_product_data`: one item, quantity assumed to be 1. */
  function GetProductData(req: Request, catalog: Catalog): (r: Reply<Item>)
    ensures r.NonceRejected? <==> !req.nonceValid
    ensures r == Error(MissingIdMessage) <==> req.nonceValid && RequestedId(req) == 0
    ensures r == Error(NotFoundMessage) <==> req.nonceValid && RequestedId(req) != 0 && RequestedId(req) !in catalog
    ensures r.Success? <==> req.nonceValid && RequestedId(req) != 0 && RequestedId(req) in catalog
    ensures r.Success? ==> r.data == FormatProductItem(catalog[RequestedId(req)], 1, 1)
  {
    if !req.nonceValid then NonceRejected
    else
      var productId := RequestedId(req);
      if productId <= 0 then Error(MissingIdMessage)
      else if productId !in catalog then Error(NotFoundMessage)
      else Success(FormatProductItem(catalog[productId], 1))
  }

  /**
   * A successful add-to-cart carries exactly one item: the requested product,
   * with the requested quantity, at list position "1".
   */
  lemma AddToCartSingleItem(req: Request, catalog: Catalog, site: Site, currency: string)
    requires AddToCart(req, catalog, site, currency).Success?
    ensures var items := AddToCart(req, catalog, site, currency).data.eventModel.items;
      && |items| == 1
      && items[0].id == catalog[RequestedId(req)].id
      && items[0].quantity == RequestedQuantity(req)
      && items[0].listPosition == "1"
  {
    assert NatToString(1) == "1";
  }

  /**
   * The two handlers validate alike: for the same request they fail the same
   * way, and when both succeed with quantity 1 the add-to-cart item is the
   * product-data item.
   */
  lemma HandlersAgree(req: Request, catalog: Catalog, site: Site, currency: string)
    ensures var a, g := AddToCart(req, catalog, site, currency), GetProductData(req, catalog);
      && (a.Success? <==> g.Success?)
      && (!a.Success? ==> (a.NonceRejected? <==> g.NonceRejected?) && (a.Error? ==> g.Error? && a.message == g.message))
      && (a.Success? && RequestedQuantity(req) == 1 ==> a.data.eventModel.items == [g.data])
  {
  }

  /** The id 0 is refused, whether sent as 0 or not sent at all. */
  lemma ZeroIdRefused(catalog: Catalog, site: Site, currency: string, quantity: Option<int>)
    ensures AddToCart(Request(true, Some(0), quantity), catalog, site, currency) == Error(MissingIdMessage)
    ensures AddToCart(Request(true, None, quantity), catalog, site, currency) == Error(MissingIdMessage)
  {
  }

  /**
   * `absint` turns a negative id into the product with the positive id: both
   * handlers succeed with the product of the id's magnitude.
   */
  lemma NegativeIdNamesPositive(x: int, quantity: Option<int>, catalog: Catalog, site: Site, currency: string)
    requires x < 0 && -x in catalog
    ensures var r := AddToCart(Request(true, Some(x), quantity), catalog, site, currency);
      r.Success? && r.data.eventModel.items == [FormatProductItem(catalog[-x], quantity.GetOr(1), 1)]
    ensures GetProductData(Request(true, Some(x), quantity), catalog) == Success(FormatProductItem(catalog[-x], 1, 1))
  {
    assert RequestedId(Request(true, Some(x), quantity)) == -x;
  }

  /** Quantities are not range-checked: 0 and negative quantities succeed. */
  lemma NonPositiveQuantityAccepted(p: Product, site: Site, currency: string, quantity: int)
    requires quantity <= 0
    ensures var r := AddToCart(Request(true, Some(7), Some(quantity)), map[7 := p], site, currency);
      r.Success? && r.data.eventModel.value == Number(p.price * quantity)
  {
  }

  /** Product 42 at 19.99 (1999 minor units), quantity 3: one item, value 59.97. */
  lemma AddToCartExample(p: Product, site: Site, currency: string)
    requires p.id == 42 && p.price == 1999
    ensures var r := AddToCart(Request(true, Some(42), Some(3)), map[42 := p], site, currency);
      && r.Success?
      && r.data.event == "add_to_cart"
      && r.data.eventModel.value == Number(5997)
      && |r.data.eventModel.items| == 1
      && r.data.eventModel.items[0].id == 42
      && r.data.eventModel.items[0].quantity == 3
      && r.data.eventModel.items[0].listPosition == "1"
  {
    AddToCartSingleItem(Request(true, Some(42), Some(3)), map[42 := p], site, currency);
  }
}
