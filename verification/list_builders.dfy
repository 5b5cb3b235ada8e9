/**
 * The loops that turn the query, the cart or an order into the ordered
 * `items` of an event, and the hooks that wrap those items into envelopes
 * (`view_item`, `view_cart`, `begin_checkout`, `purchase`, `add_payment_info`).
 * Each loop is a method proved equal to a recursive specification over the
 * prefix it has consumed; lemmas then characterise each specification
 * position by position.
 */
module ListBuilders {

  import opened Wrappers
  import opened Text
  import opened Store
  import opened Formatting

  // ---------------------------------------------------------------------------
  // view_item_list: query index + 1, unloadable posts skipped, no renumbering
  // ---------------------------------------------------------------------------

  /** The product list of a listing page: one item per loadable post, at its query index + 1. */
  function ProductList(posts: seq<int>, catalog: Catalog): seq<Item>
    decreases |posts|
  {
    if |posts| == 0 then []
    else
      var n := |posts| - 1;
      var prefix := ProductList(posts[..n], catalog);
      if posts[n] in catalog then prefix + [FormatProductItem(catalog[posts[n]], 1, n + 1)] else prefix
  }

  /** The query indices of the posts whose product loads, in query order. */
  function LoadedIndices(posts: seq<int>, catalog: Catalog): seq<nat>
    decreases |posts|
  {
    if |posts| == 0 then []
    else
      var n := |posts| - 1;
      LoadedIndices(posts[..n], catalog) + (if posts[n] in catalog then [n] else [])
  }

  /**
   * The loaded indices are in range and name loadable posts, rise strictly,
   * and include every loadable post.
   */
  lemma {:induction false} LoadedIndicesFacts(posts: seq<int>, catalog: Catalog)
    ensures forall j :: 0 <= j < |LoadedIndices(posts, catalog)| ==>
      LoadedIndices(posts, catalog)[j] < |posts| && posts[LoadedIndices(posts, catalog)[j]] in catalog
    ensures forall j, k :: 0 <= j < k < |LoadedIndices(posts, catalog)| ==>
      LoadedIndices(posts, catalog)[j] < LoadedIndices(posts, catalog)[k]
    ensures forall k :: 0 <= k < |posts| && posts[k] in catalog ==> k in LoadedIndices(posts, catalog)
    decreases |posts|
  {
    if |posts| > 0 {
      var n := |posts| - 1;
      var pre := posts[..n];
      LoadedIndicesFacts(pre, catalog);
      var before := LoadedIndices(pre, catalog);
      var idx := LoadedIndices(posts, catalog);
      assert idx == before + (if posts[n] in catalog then [n] else []);
      forall j | 0 <= j < |idx|
        ensures idx[j] < |posts| && posts[idx[j]] in catalog
      {
        if j < |before| {
          assert idx[j] == before[j] && before[j] < n;
          assert pre[before[j]] == posts[before[j]];
        } else {
          assert idx[j] == n;
        }
      }
      forall j, k | 0 <= j < k < |idx|
        ensures idx[j] < idx[k]
      {
        if k < |before| {
          assert idx[j] == before[j] && idx[k] == before[k];
        } else {
          assert idx[j] == before[j] && idx[k] == n;
        }
      }
      forall k | 0 <= k < |posts| && posts[k] in catalog
        ensures k in idx
      {
        if k < n {
          assert pre[k] == posts[k] && k in before;
        } else {
          assert k == n && idx[|before|] == n;
        }
      }
    }
  }

  /** The j-th listed item is the product of the j-th loadable post, at that post's query index + 1. */
  lemma {:induction false} ProductListItems(posts: seq<int>, catalog: Catalog)
    ensures |ProductList(posts, catalog)| == |LoadedIndices(posts, catalog)|
    ensures var idx := LoadedIndices(posts, catalog);
      forall j :: 0 <= j < |idx| ==>
        && idx[j] < |posts| && posts[idx[j]] in catalog
        && ProductList(posts, catalog)[j] == FormatProductItem(catalog[posts[idx[j]]], 1, idx[j] + 1)
    decreases |posts|
  {
    if |posts| > 0 {
      var n := |posts| - 1;
      var pre := posts[..n];
      ProductListItems(pre, catalog);
      var items, before := ProductList(pre, catalog), LoadedIndices(pre, catalog);
      var list, idx := ProductList(posts, catalog), LoadedIndices(posts, catalog);
      if posts[n] in catalog {
        assert list == items + [FormatProductItem(catalog[posts[n]], 1, n + 1)];
        assert idx == before + [n];
      } else {
        assert list == items;
        assert idx == before;
      }
      forall j | 0 <= j < |idx|
        ensures idx[j] < |posts| && posts[idx[j]] in catalog
        ensures list[j] == FormatProductItem(catalog[posts[idx[j]]], 1, idx[j] + 1)
      {
        if j < |before| {
          assert list[j] == items[j] && idx[j] == before[j] && before[j] < n;
          assert pre[before[j]] == posts[before[j]];
        } else {
          assert j == |before| && idx[j] == n;
        }
      }
    }
  }

  /**
   * The j-th listed item is the product of the j-th loadable post, at that
   * post's query index + 1; the indices rise strictly, and every loadable
   * post is listed. Positions therefore skip the indices of unloadable posts.
   */
  lemma ProductListIndexed(posts: seq<int>, catalog: Catalog)
    ensures |ProductList(posts, catalog)| == |LoadedIndices(posts, catalog)|
    ensures var idx := LoadedIndices(posts, catalog);
      forall j :: 0 <= j < |idx| ==>
        && idx[j] < |posts| && posts[idx[j]] in catalog
        && ProductList(posts, catalog)[j] == FormatProductItem(catalog[posts[idx[j]]], 1, idx[j] + 1)
    ensures var idx := LoadedIndices(posts, catalog);
      forall j, k :: 0 <= j < k < |idx| ==> idx[j] < idx[k]
    ensures forall k :: 0 <= k < |posts| && posts[k] in catalog ==> k in LoadedIndices(posts, catalog)
  {
    ProductListItems(posts, catalog);
    LoadedIndicesFacts(posts, catalog);
  }

  /** When every post loads, the positions are exactly 1, 2, ..., in query order. */
  lemma {:induction false} ProductListAllLoaded(posts: seq<int>, catalog: Catalog)
    requires forall k :: 0 <= k < |posts| ==> posts[k] in catalog
    ensures |ProductList(posts, catalog)| == |posts|
    ensures forall k :: 0 <= k < |posts| ==>
      ProductList(posts, catalog)[k] == FormatProductItem(catalog[posts[k]], 1, k + 1)
    decreases |posts|
  {
    if |posts| > 0 {
      var n := |posts| - 1;
      var pre := posts[..n];
      assert forall k :: 0 <= k < n ==> pre[k] == posts[k];
      ProductListAllLoaded(pre, catalog);
      var items, list := ProductList(pre, catalog), ProductList(posts, catalog);
      assert list == items + [FormatProductItem(catalog[posts[n]], 1, n + 1)];
      forall k | 0 <= k < |posts|
        ensures list[k] == FormatProductItem(catalog[posts[k]], 1, k + 1)
      {
        if k < n {
          assert list[k] == items[k] && pre[k] == posts[k];
        } else {
          assert k == n;
        }
      }
    }
  }

  /** A post that does not load leaves a gap: the third post keeps position "3". */
  lemma ProductListGap(a: Product, c: Product)
    ensures var r := ProductList([1, 2, 3], map[1 := a, 3 := c]);
      && r == [FormatProductItem(a, 1, 1), FormatProductItem(c, 1, 3)]
      && r[0].listPosition == "1" && r[1].listPosition == "3"
  {
    var catalog := map[1 := a, 3 := c];
    var posts := [1, 2, 3];
    assert posts[..2] == [1, 2] && posts[..2][..1] == [1] && [1][..0] == [];
    assert 2 !in catalog;
    assert ProductList([1], catalog) == [FormatProductItem(a, 1, 1)];
    assert ProductList([1, 2], catalog) == [FormatProductItem(a, 1, 1)];
    assert NatToString(1) == "1" && NatToString(3) == "3";
  }

  /** The loop of `smarty_gtm_view_item_list` that builds the list on a cache miss. */
  method BuildProductList(posts: seq<int>, catalog: Catalog) returns (products: seq<Item>)
    ensures products == ProductList(posts, catalog)
  {
    products := [];
    var index := 0;
    while index < |posts|
      invariant 0 <= index <= |posts|
      invariant products == ProductList(posts[..index], catalog)
    {
      assert posts[..index + 1][..index] == posts[..index];
      var id := posts[index];
      if id in catalog {
        products := products + [FormatProductItem(catalog[id], 1, index + 1)];
      }
      index := index + 1;
    }
    assert posts[..|posts|] == posts;
  }

  // ---------------------------------------------------------------------------
  // view_cart and begin_checkout: every line, numbered 1, 2, ...
  // ---------------------------------------------------------------------------

  /** The items of the cart, numbered from 1 in cart order. */
  function CartItems(lines: seq<CartLine>): seq<Item>
    decreases |lines|
  {
    if |lines| == 0 then []
    else
      var n := |lines| - 1;
      CartItems(lines[..n]) + [FormatProductItem(lines[n].product, lines[n].quantity, n + 1)]
  }

  /** Sum of price x quantity over the cart lines. */
  function CartTotal(lines: seq<CartLine>): int
    decreases |lines|
  {
    if |lines| == 0 then 0
    else
      var n := |lines| - 1;
      CartTotal(lines[..n]) + lines[n].product.price * lines[n].quantity
  }

  /** One item per cart line, in cart order, the k-th at position k + 1 with the line's quantity. */
  lemma {:induction false} CartItemsIndexed(lines: seq<CartLine>)
    ensures |CartItems(lines)| == |lines|
    ensures forall k :: 0 <= k < |lines| ==>
      CartItems(lines)[k] == FormatProductItem(lines[k].product, lines[k].quantity, k + 1)
    decreases |lines|
  {
    if |lines| > 0 {
      var n := |lines| - 1;
      var pre := lines[..n];
      CartItemsIndexed(pre);
      var items := CartItems(pre);
      var last := FormatProductItem(lines[n].product, lines[n].quantity, n + 1);
      assert CartItems(lines) == items + [last];
      forall k | 0 <= k < |lines|
        ensures CartItems(lines)[k] == FormatProductItem(lines[k].product, lines[k].quantity, k + 1)
      {
        if k < n {
          assert CartItems(lines)[k] == items[k] && pre[k] == lines[k];
        } else {
          assert k == n;
        }
      }
    }
  }

  /** The loop of `smarty_gtm_view_cart`: `$index++` before each append. */
  method BuildCartItems(lines: seq<CartLine>) returns (cartItems: seq<Item>)
    ensures cartItems == CartItems(lines)
  {
    cartItems := [];
    var index := 0;
    while index < |lines|
      invariant 0 <= index <= |lines|
      invariant cartItems == CartItems(lines[..index])
    {
      assert lines[..index + 1][..index] == lines[..index];
      var line := lines[index];
      index := index + 1;
      cartItems := cartItems + [FormatProductItem(line.product, line.quantity, index)];
    }
    assert lines[..|lines|] == lines;
  }

  /** The loop of `smarty_gtm_begin_checkout`: the same items, plus the `$cart_total` accumulator. */
  method BuildCheckoutItems(lines: seq<CartLine>) returns (cartItems: seq<Item>, cartTotal: int)
    ensures cartItems == CartItems(lines)
    ensures cartTotal == CartTotal(lines)
  {
    cartItems, cartTotal := [], 0;
    var index := 0;
    while index < |lines|
      invariant 0 <= index <= |lines|
      invariant cartItems == CartItems(lines[..index])
      invariant cartTotal == CartTotal(lines[..index])
    {
      assert lines[..index + 1][..index] == lines[..index];
      var line := lines[index];
      cartTotal := cartTotal + line.product.price * line.quantity;
      index := index + 1;
      cartItems := cartItems + [FormatProductItem(line.product, line.quantity, index)];
    }
    assert lines[..|lines|] == lines;
  }

  // ---------------------------------------------------------------------------
  // purchase: lines without a product skipped, the rest renumbered 1, 2, ...
  // ---------------------------------------------------------------------------

  /** The order lines whose product exists, with their quantities, in order. */
  function PresentLines(lines: seq<OrderLine>): seq<(Product, int)>
    decreases |lines|
  {
    if |lines| == 0 then []
    else
      var n := |lines| - 1;
      PresentLines(lines[..n]) + (if lines[n].product.Some? then [(lines[n].product.value, lines[n].quantity)] else [])
  }

  /** The items of a purchase: the counter moves only for lines that are kept. */
  function OrderItems(lines: seq<OrderLine>): seq<Item>
    decreases |lines|
  {
    if |lines| == 0 then []
    else
      var n := |lines| - 1;
      var prefix := OrderItems(lines[..n]);
      match lines[n].product
      case None => prefix
      case Some(p) => prefix + [FormatProductItem(p, lines[n].quantity, |prefix| + 1)]
  }

  /** One item per line with a product: lines whose product is missing are the only ones dropped. */
  lemma {:induction false} OrderItemsLength(lines: seq<OrderLine>)
    ensures |OrderItems(lines)| == |PresentLines(lines)| <= |lines|
    ensures (forall k :: 0 <= k < |lines| ==> lines[k].product.Some?) ==> |OrderItems(lines)| == |lines|
    decreases |lines|
  {
    if |lines| > 0 {
      var n := |lines| - 1;
      var pre := lines[..n];
      OrderItemsLength(pre);
      var items, present := OrderItems(pre), PresentLines(pre);
      if lines[n].product.Some? {
        var p, q := lines[n].product.value, lines[n].quantity;
        assert OrderItems(lines) == items + [FormatProductItem(p, q, |items| + 1)];
        assert PresentLines(lines) == present + [(p, q)];
      } else {
        assert OrderItems(lines) == items;
        assert PresentLines(lines) == present;
      }
      assert (forall k :: 0 <= k < |lines| ==> lines[k].product.Some?) ==>
        (forall k :: 0 <= k < n ==> pre[k].product.Some?);
    }
  }

  /**
   * The j-th kept line becomes the item at position j + 1: positions run
   * 1..n without gaps, in order lines' order.
   */
  lemma {:induction false} OrderItemsIndexed(lines: seq<OrderLine>)
    ensures |OrderItems(lines)| == |PresentLines(lines)|
    ensures forall j :: 0 <= j < |PresentLines(lines)| ==>
      OrderItems(lines)[j] == FormatProductItem(PresentLines(lines)[j].0, PresentLines(lines)[j].1, j + 1)
    decreases |lines|
  {
    if |lines| > 0 {
      var n := |lines| - 1;
      var pre := lines[..n];
      OrderItemsIndexed(pre);
      var items, present := OrderItems(pre), PresentLines(pre);
      var list, kept := OrderItems(lines), PresentLines(lines);
      if lines[n].product.Some? {
        var p, q := lines[n].product.value, lines[n].quantity;
        assert list == items + [FormatProductItem(p, q, |items| + 1)];
        assert kept == present + [(p, q)];
        forall j | 0 <= j < |kept|
          ensures list[j] == FormatProductItem(kept[j].0, kept[j].1, j + 1)
        {
          if j < |present| {
            assert list[j] == items[j] && kept[j] == present[j];
          } else {
            assert j == |present| && kept[j] == (p, q);
          }
        }
      } else {
        assert list == items;
        assert kept == present;
      }
    }
  }

  /** The loop of `smarty_gtm_purchase`. */
  method BuildOrderItems(lines: seq<OrderLine>) returns (items: seq<Item>)
    ensures items == OrderItems(lines)
  {
    items := [];
    var index := 0;
    var i := 0;
    while i < |lines|
      invariant 0 <= i <= |lines|
      invariant items == OrderItems(lines[..i])
      invariant index == |items|
    {
      assert lines[..i + 1][..i] == lines[..i];
      var item := lines[i];
      if item.product.Some? {
        index := index + 1;
        items := items + [FormatProductItem(item.product.value, item.quantity, index)];
      }
      i := i + 1;
    }
    assert lines[..|lines|] == lines;
  }

  // ---------------------------------------------------------------------------
  // add_payment_info: hand-built four-field lines
  // ---------------------------------------------------------------------------

  /** The `add_payment_info` lines: id, name, price and quantity of each cart line. */
  function PaymentLines(lines: seq<CartLine>): seq<Item>
    decreases |lines|
  {
    if |lines| == 0 then []
    else
      var n := |lines| - 1;
      var p := lines[n].product;
      PaymentLines(lines[..n]) + [PaymentLine(p.id, p.name, p.price, lines[n].quantity)]
  }

  lemma {:induction false} PaymentLinesIndexed(lines: seq<CartLine>)
    ensures |PaymentLines(lines)| == |lines|
    ensures forall k :: 0 <= k < |lines| ==>
      PaymentLines(lines)[k] == PaymentLine(lines[k].product.id, lines[k].product.name, lines[k].product.price, lines[k].quantity)
    decreases |lines|
  {
    if |lines| > 0 {
      PaymentLinesIndexed(lines[..|lines| - 1]);
    }
  }

  /** The loop of `smarty_gtm_add_payment_info`. */
  method BuildPaymentLines(lines: seq<CartLine>) returns (cartItems: seq<Item>, cartTotal: int)
    ensures cartItems == PaymentLines(lines)
    ensures cartTotal == CartTotal(lines)
  {
    cartItems, cartTotal := [], 0;
    var i := 0;
    while i < |lines|
      invariant 0 <= i <= |lines|
      invariant cartItems == PaymentLines(lines[..i])
      invariant cartTotal == CartTotal(lines[..i])
    {
      assert lines[..i + 1][..i] == lines[..i];
      var p := lines[i].product;
      var quantity := lines[i].quantity;
      var lineTotal := p.price * quantity;
      cartTotal := cartTotal + lineTotal;
      cartItems := cartItems + [PaymentLine(p.id, p.name, p.price, quantity)];
      i := i + 1;
    }
    assert lines[..|lines|] == lines;
  }

  // ---------------------------------------------------------------------------
  // The hooks
  // ---------------------------------------------------------------------------

  /** `smarty_gtm_view_item`: on a product page, one item at the defaults (quantity 1, position 1). */
  function ViewItem(page: Page, product: Product, site: Site, currency: string): (r: Option<Envelope>)
    ensures r.Some? <==> page.isProduct
    ensures r.Some? ==> (
      && r.value.event == "view_item"
      && r.value.eventModel.value == Number(product.price)
      && r.value.eventModel.currency == currency
      && r.value.eventModel.eventSource == PluginSource
      && r.value.eventModel.items == [FormatProductItem(product, 1, 1)])
  {
    if page.isProduct then
      Some(FormatEventModel(site, "view_item", "", Number(product.price), currency, Blank, Blank,
                            [FormatProductItem(product)], PluginSource))
    else None
  }

  /** `smarty_gtm_view_cart`. */
  method ViewCart(page: Page, cart: Cart, site: Site, currency: string) returns (data: Option<Envelope>)
    ensures data.Some? <==> page.isCart
    ensures data.Some? ==> data.value == FormatEventModel(
      site, "view_cart", "", Number(cart.contentsTotal), currency,
      Number(cart.shippingTotal), Number(cart.totalTax), CartItems(cart.lines), PluginSource)
  {
    data := None;
    if page.isCart {
      var cartItems := BuildCartItems(cart.lines);
      data := Some(FormatEventModel(
        site, "view_cart", "", Number(cart.contentsTotal), currency,
        Number(cart.shippingTotal), Number(cart.totalTax), cartItems, PluginSource));
    }
  }

  /** The page test shared by `begin_checkout` and `add_payment_info`. */
  predicate OnCheckoutForm(page: Page) {
    page.isCheckout && !page.isOrderReceived
  }

  /**
   * `smarty_gtm_begin_checkout`. `uniqueId` is the value of `uniqid('order_')`;
   * the totals are `number_format`ted strings.
   */
  method BeginCheckout(page: Page, cart: Cart, site: Site, currency: string, uniqueId: string)
    returns (data: Option<Envelope>)
    ensures data.Some? <==> OnCheckoutForm(page)
    ensures data.Some? ==> data.value == FormatEventModel(
      site, "begin_checkout", uniqueId, Fixed2(CartTotal(cart.lines)), currency,
      Fixed2(cart.shippingTotal), Fixed2(cart.totalTax), CartItems(cart.lines), PluginSource)
  {
    data := None;
    if page.isCheckout && !page.isOrderReceived {
      var cartItems, cartTotal := BuildCheckoutItems(cart.lines);
      data := Some(FormatEventModel(
        site, "begin_checkout", uniqueId, Fixed2(cartTotal), currency,
        Fixed2(cart.shippingTotal), Fixed2(cart.totalTax), cartItems, PluginSource));
    }
  }

  /** `smarty_gtm_purchase`: nothing when the order does not load. */
  method Purchase(order: Option<Order>, site: Site) returns (data: Option<Envelope>)
    ensures data.Some? <==> order.Some?
    ensures order.Some? ==> data.value == FormatEventModel(
      site, "purchase", order.value.number, Number(order.value.total), order.value.currency,
      Number(order.value.shippingTotal), Number(order.value.totalTax), OrderItems(order.value.lines), PluginSource)
  {
    if order.None? {
      return None;
    }
    var o := order.value;
    var items := BuildOrderItems(o.lines);
    data := Some(FormatEventModel(
      site, "purchase", o.number, Number(o.total), o.currency,
      Number(o.shippingTotal), Number(o.totalTax), items, PluginSource));
  }

  /** `WC()->session->get('chosen_payment_method') ?: 'unknown'`. */
  function PaymentMethod(chosen: Option<string>): (r: string)
    ensures r != ""
    ensures chosen.Some? && !Falsy(chosen.value) ==> r == chosen.value
    ensures (chosen.None? || Falsy(chosen.value)) ==> r == "unknown"
  {
    if chosen.Some? && !Falsy(chosen.value) then chosen.value else "unknown"
  }

  /**
   * `smarty_gtm_add_payment_info`: the envelope is built first and then gets
   * `payment_type` added to its event model. The total stays a raw number
   * while shipping and tax are `number_format`ted.
   */
  method AddPaymentInfo(page: Page, cart: Cart, site: Site, currency: string, uniqueId: string,
                        chosen: Option<string>)
    returns (data: Option<Envelope>)
    ensures data.Some? <==> OnCheckoutForm(page)
    ensures data.Some? ==>
      var built := FormatEventModel(
        site, "add_payment_info", uniqueId, Number(CartTotal(cart.lines)), currency,
        Fixed2(cart.shippingTotal), Fixed2(cart.totalTax), PaymentLines(cart.lines), PluginSource);
      data.value == built.(eventModel := built.eventModel.(paymentType := Some(PaymentMethod(chosen))))
  {
    data := None;
    if page.isCheckout && !page.isOrderReceived {
      var cartItems, cartTotal := BuildPaymentLines(cart.lines);
      var paymentMethod := PaymentMethod(chosen);
      var envelope := FormatEventModel(
        site, "add_payment_info", uniqueId, Number(cartTotal), currency,
        Fixed2(cart.shippingTotal), Fixed2(cart.totalTax), cartItems, PluginSource);
      envelope := envelope.(eventModel := envelope.eventModel.(paymentType := Some(paymentMethod)));
      data := Some(envelope);
    }
  }

  /**
   * The envelope builder never sets a payment type; the one `add_payment_info`
   * adds after building is always present and never empty.
   */
  lemma PaymentTypeAlwaysSet(cart: Cart, site: Site, currency: string, uniqueId: string,
                             chosen: Option<string>)
    ensures var built := FormatEventModel(
        site, "add_payment_info", uniqueId, Number(CartTotal(cart.lines)), currency,
        Fixed2(cart.shippingTotal), Fixed2(cart.totalTax), PaymentLines(cart.lines), PluginSource);
      var pushed := built.(eventModel := built.eventModel.(paymentType := Some(PaymentMethod(chosen))));
      && built.eventModel.paymentType.None?
      && pushed.eventModel.paymentType.Some? && pushed.eventModel.paymentType.value != ""
      && pushed.eventModel.affiliation == site.siteUrl
  {
  }
}
