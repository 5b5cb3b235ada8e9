/**
 * What the plugin reads from WordPress and WooCommerce, as plain records. Each
 * field stands for the result of one host call (`get_id`, `get_price`,
 * `wp_get_post_terms`, `get_post_meta`, `wc_get_product`, `is_cart`, ...);
 * the host calls themselves are not modelled.
 */
module Store {

  import opened Wrappers

  /**
   * A WooCommerce product as the formatter sees it. `price` is in minor
   * currency units (the plugin casts it to float); the dimension, weight, SKU
   * and brand fields are the strings WooCommerce returns, possibly empty.
   */
  datatype Product = Product(
    id: int,
    name: string,
    price: int,
    sku: string,
    length: string,
    width: string,
    height: string,
    weight: string,
    categoryNames: seq<string>,               // wp_get_post_terms(id, 'product_cat', names)
    brand: string,                            // get_attribute('brand')
    isVariation: bool,                        // is_type('variation')
    variationAttributes: seq<string>,         // values of get_variation_attributes(), in order
    meta: map<string, seq<string>>            // get_post_meta(id): opaque custom fields
  )

  /** `wc_get_product`: the ids that load a product, and the product each loads. */
  type Catalog = map<int, Product>

  /** One entry of `WC()->cart->get_cart()`. */
  datatype CartLine = CartLine(key: string, productId: Option<int>, product: Product, quantity: int)

  /** The cart and the totals WooCommerce computes for it. */
  datatype Cart = Cart(lines: seq<CartLine>, contentsTotal: int, shippingTotal: int, totalTax: int)

  /** One order line; `product` is None when `get_product()` finds nothing. */
  datatype OrderLine = OrderLine(product: Option<Product>, quantity: int)

  datatype Order = Order(
    number: string,
    total: int,
    currency: string,
    shippingTotal: int,
    totalTax: int,
    lines: seq<OrderLine>
  )

  /** The logged-in user: `ID` and the role slugs. */
  datatype User = User(id: int, roles: seq<string>)

  /** Site identity and the current visitor (`None` when nobody is logged in). */
  datatype Site = Site(siteUrl: string, siteName: string, user: Option<User>)

  /** The page predicates the hooks test before building an event. */
  datatype Page = Page(
    isProduct: bool,
    isShop: bool,
    isProductCategory: bool,
    isProductTag: bool,
    isCart: bool,
    isCheckout: bool,
    isOrderReceived: bool
  )

  /** `WC()->cart->get_cart_item(key)`: the first line with that key, if any. */
  function GetCartItem(lines: seq<CartLine>, key: string): (r: Option<CartLine>)
    ensures r.Some? ==> r.value in lines && r.value.key == key
    ensures r.None? ==> forall i :: 0 <= i < |lines| ==> lines[i].key != key
    decreases |lines|
  {
    if |lines| == 0 then None
    else if lines[0].key == key then Some(lines[0])
    else GetCartItem(lines[1..], key)
  }
}
