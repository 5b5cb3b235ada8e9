/**
 * The two record builders every event goes through: the item normaliser
 * (`smarty_gtm_format_product_item`) and the envelope builder
 * (`smarty_gtm_format_event_model`).
 */
module Formatting {

  import opened Wrappers
  import opened Text
  import opened Store

  /** `list_name` of every formatted item. */
  const ListName := "Order"
  /** Default `event_source` of the envelope builder. */
  const DefaultSource := "plugin"
  /** `event_source` every hook of the plugin passes. */
  const PluginSource := "smarty-gtm-events-for-woocommerce"

  /**
   * A money-like envelope field. The plugin puts differently typed values in
   * `value`, `shipping` and `tax`: the string '' by default, raw numbers in some
   * events and `number_format(x, 2, '.', '')` strings in others. The three
   * constructors keep those apart.
   */
  datatype Amount = Text(text: string) | Number(minor: int) | Fixed2(minor: int)

  const Blank := Text("")

  datatype Dimensions = Dimensions(length: string, width: string, height: string)

  /**
   * An entry of `eventModel.items`: the full record of the item normaliser, or
   * the four-field line `add_payment_info` builds by hand.
   */
  datatype Item =
    | ProductItem(
        id: int,
        name: string,
        listName: string,
        brand: string,
        category: string,
        variant: string,
        listPosition: string,
        price: int,
        quantity: int,
        sku: string,
        dimensions: Dimensions,
        weight: string,
        customFields: map<string, seq<string>>)
    | PaymentLine(id: int, name: string, price: int, quantity: int)

  /** The `customer` block: empty for visitors, id and roles for logged-in users. */
  datatype Customer = NoCustomer | Customer(userId: int, userRole: string)

  datatype EventModel = EventModel(
    transactionId: string,
    affiliation: string,
    value: Amount,
    currency: string,
    shipping: Amount,
    tax: Amount,
    items: seq<Item>,
    eventSource: string,
    paymentType: Option<string>               // only add_payment_info sets it
  )

  datatype Envelope = Envelope(event: string, eventModel: EventModel, customer: Customer)

  // ---------------------------------------------------------------------------
  // Item normaliser
  // ---------------------------------------------------------------------------

  /** PHP truthiness of a string: '' and '0' are false. */
  predicate Falsy(s: string) {
    s == "" || s == "0"
  }

  /** PHP `$s ?: ''`. */
  function OrEmpty(s: string): (r: string)
    ensures r == s || r == ""
    ensures r == "" <==> Falsy(s)
    ensures r != "0"
  {
    if Falsy(s) then "" else s
  }

  /** The `category` field: the category names joined by '/', '' when there are none. */
  function CategoryPath(names: seq<string>): string {
    if |names| > 0 then Join(names, "/") else ""
  }

  /** The `variant` field: the attribute values joined by ", " for a variation, else ''. */
  function VariantOf(p: Product): (r: string)
    ensures !p.isVariation || |p.variationAttributes| == 0 ==> r == ""
    ensures p.isVariation && |p.variationAttributes| >= 1 ==> p.variationAttributes[0] <= r
  {
    if p.isVariation then Join(p.variationAttributes, ", ") else ""
  }

  /** `smarty_gtm_format_product_item($product, $quantity = 1, $list_position = 1)`. */
  function FormatProductItem(p: Product, quantity: int := 1, listPosition: int := 1): (r: Item)
    ensures r.ProductItem? && r.listName == ListName
    ensures r.id == p.id && r.quantity == quantity
  {
    ProductItem(
      id := p.id,
      name := p.name,
      listName := ListName,
      brand := OrEmpty(p.brand),
      category := CategoryPath(p.categoryNames),
      variant := VariantOf(p),
      listPosition := IntToString(listPosition),
      price := p.price,
      quantity := quantity,
      sku := OrEmpty(p.sku),
      dimensions := Dimensions(OrEmpty(p.length), OrEmpty(p.width), OrEmpty(p.height)),
      weight := p.weight,
      customFields := p.meta)
  }

  /** What every formatted item promises about its fields. */
  lemma FormatProductItemSpec(p: Product, quantity: int, listPosition: int)
    ensures var r := FormatProductItem(p, quantity, listPosition);
      && r.ProductItem?
      && r.id == p.id && r.name == p.name && r.price == p.price
      && r.quantity == quantity
      && ParseInt(r.listPosition) == Some(listPosition)
      && r.listName == "Order"
      && r.category == CategoryPath(p.categoryNames)
      && (r.brand == "" <==> Falsy(p.brand)) && (!Falsy(p.brand) ==> r.brand == p.brand)
      && (r.sku == "" <==> Falsy(p.sku)) && (!Falsy(p.sku) ==> r.sku == p.sku)
      && (r.dimensions.length == "" <==> Falsy(p.length)) && (!Falsy(p.length) ==> r.dimensions.length == p.length)
      && (r.dimensions.width == "" <==> Falsy(p.width)) && (!Falsy(p.width) ==> r.dimensions.width == p.width)
      && (r.dimensions.height == "" <==> Falsy(p.height)) && (!Falsy(p.height) ==> r.dimensions.height == p.height)
      && r.weight == p.weight
      && r.customFields == p.meta
      && (!p.isVariation ==> r.variant == "")
      && (p.isVariation ==> r.variant == Join(p.variationAttributes, ", "))
  {
    IntToStringRoundTrip(listPosition);
  }

  /**
   * The category path names the categories: with at least one category and no
   * '/' inside a name, splitting it at '/' gives the names back; with none it
   * is ''.
   */
  lemma CategoryPathRoundTrip(names: seq<string>)
    requires forall i :: 0 <= i < |names| ==> '/' !in names[i]
    ensures |names| == 0 ==> CategoryPath(names) == ""
    ensures |names| > 0 ==> SplitOn(CategoryPath(names), '/') == names
  {
    if |names| > 0 {
      SplitJoinRoundTrip(names, '/');
    }
  }

  /**
   * The item's category names the product's categories: '' when it has none,
   * otherwise the names again after splitting at '/', when no name holds '/'.
   */
  lemma ItemCategoryRoundTrip(p: Product, quantity: int, listPosition: int)
    requires forall i :: 0 <= i < |p.categoryNames| ==> '/' !in p.categoryNames[i]
    ensures |p.categoryNames| == 0 ==> FormatProductItem(p, quantity, listPosition).category == ""
    ensures |p.categoryNames| > 0 ==>
      SplitOn(FormatProductItem(p, quantity, listPosition).category, '/') == p.categoryNames
  {
    CategoryPathRoundTrip(p.categoryNames);
  }

  /** Two formatted items at different positions differ in `list_position`. */
  lemma ListPositionsDistinct(p: Product, q: Product, m: int, n: int, i: int, j: int)
    requires i != j
    ensures FormatProductItem(p, m, i).listPosition != FormatProductItem(q, n, j).listPosition
  {
    if IntToString(i) == IntToString(j) {
      IntToStringInjective(i, j);
    }
  }

  // ---------------------------------------------------------------------------
  // Envelope builder
  // ---------------------------------------------------------------------------

  /** The `customer` block for the current visitor. */
  function CustomerOf(site: Site): (r: Customer)
    ensures r.NoCustomer? <==> site.user.None?
    ensures site.user.Some? ==> r.userId == site.user.value.id
  {
    match site.user
    case None => NoCustomer
    case Some(u) => Customer(u.id, Join(u.roles, ", "))
  }

  /**
   * `smarty_gtm_format_event_model($event, $transaction_id = '', $value = '',
   * $currency = '', $shipping = '', $tax = '', $items = array(),
   * $event_source = 'plugin')`. The site and the visitor, which the PHP reads
   * from WordPress, are the `site` argument.
   */
  function FormatEventModel(
    site: Site,
    event: string,
    transactionId: string := "",
    value: Amount := Blank,
    currency: string := "",
    shipping: Amount := Blank,
    tax: Amount := Blank,
    items: seq<Item> := [],
    eventSource: string := DefaultSource): (r: Envelope)
    ensures r.event == event && r.eventModel.items == items
  {
    Envelope(
      event,
      EventModel(transactionId, site.siteUrl, value, currency, shipping, tax, items, eventSource, None),
      CustomerOf(site))
  }

  /** Every argument lands unchanged in its field; the site URL is the affiliation. */
  lemma FormatEventModelSpec(
    site: Site, event: string, transactionId: string, value: Amount, currency: string,
    shipping: Amount, tax: Amount, items: seq<Item>, eventSource: string)
    ensures var r := FormatEventModel(site, event, transactionId, value, currency, shipping, tax, items, eventSource);
      && r.event == event
      && r.eventModel.transactionId == transactionId
      && r.eventModel.affiliation == site.siteUrl
      && r.eventModel.value == value
      && r.eventModel.currency == currency
      && r.eventModel.shipping == shipping
      && r.eventModel.tax == tax
      && r.eventModel.items == items
      && r.eventModel.eventSource == eventSource
      && r.eventModel.paymentType.None?
  {
  }

  /** Called with only the event name, the builder fills in its defaults. */
  lemma FormatEventModelDefaults(site: Site, event: string)
    ensures var m := FormatEventModel(site, event).eventModel;
      && m.transactionId == "" && m.value == Text("") && m.currency == ""
      && m.shipping == Text("") && m.tax == Text("") && m.items == []
      && m.eventSource == "plugin"
  {
  }

  /**
   * The customer block is empty exactly for visitors who are not logged in;
   * otherwise it carries the user id and the roles joined by ", ".
   */
  lemma CustomerSpec(site: Site, event: string)
    ensures var c := FormatEventModel(site, event).customer;
      && (c.NoCustomer? <==> site.user.None?)
      && (site.user.Some? ==> c.userId == site.user.value.id && c.userRole == Join(site.user.value.roles, ", "))
  {
  }
}
