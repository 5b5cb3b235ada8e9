# SM - GTM Events for WooCommerce: a Dafny model of the event pipeline

The plugin turns WooCommerce activity into Google Tag Manager `dataLayer`
events. Every event of the modelled hooks is an envelope
`{event, eventModel, customer}` built by `smarty_gtm_format_event_model`. Its
items are normalised item records, except in `add_payment_info`, which builds
four-field lines (id, name, price, quantity) of its own. The `search`,
`apply_coupon` and `refund` pushes are plain literals and are left out. This
project models that pipeline, and the paging state of the admin log viewer:

- `wrappers.dfy` (`Wrappers`): `Option`, for PHP's `false`/`null` results and unset POST fields.
- `text.dfy` (`Text`): `implode` and a splitter that undoes it, `(string)` on
  integers and its inverse, and `str_replace` for one search string.
- `store.dfy` (`Store`): the WordPress/WooCommerce objects as plain records.
  These are the product, cart, order, site/user and page predicates. Every
  host call is replaced by the value it returns.
- `formatting.dfy` (`Formatting`): the item normaliser
  (`smarty_gtm_format_product_item`) and the envelope builder
  (`smarty_gtm_format_event_model`).
- `list_builders.dfy` (`ListBuilders`): the loops that build `items` for
  `view_item_list`, `view_cart`, `begin_checkout`, `purchase` and
  `add_payment_info`. Each loop is a method proved equal to a recursive
  specification, and lemmas give each specification position by position.
  The same module holds the hooks that wrap those lists into envelopes.
- `product_list_cache.dfy` (`ProductListCache`): the `smarty_gtm_product_list`
  transient as a class with one optional entry. It covers get-or-compute,
  deletion when a product is saved, and client methods for the cache's
  observable behaviour.
- `ajax.dfy` (`Ajax`): the `add_to_cart` and `get_product_data` AJAX handlers,
  with their validation order and error messages.
- `remove_link.dfy` (`RemoveLink`): the `data-product_id` rewrite of the cart's
  remove links.
- `admin_logs.dfy` (`AdminLogs`): `currentPage`/`totalPages` of the log
  viewer in `js/smarty-gtm-admin.js`, its response callbacks and the
  Prev/Next guards.

Prices and totals are integers in minor currency units. The `value`,
`shipping` and `tax` fields keep the plugin's mixed types through `Amount`.
`Text("")` is the `''` default. `Number` is a raw float or int. `Fixed2` is a
`number_format(x, 2, '.', '')` string.

Behaviours of the code a reader might not expect:

- The product-list cache has one global key, not one per listing (shop,
  category, tag). A listing page is served whatever list another listing
  stored (`ProductListCache.OtherListingGetsStoredList`).
- `add_to_cart` does not reject quantities below 1. Zero and negative
  quantities succeed (`Ajax.NonPositiveQuantityAccepted`).
- A negative `product_id` is not invalid: `absint` turns it into its magnitude
  (`Ajax.NegativeIdNamesPositive`).
- Only `'product'` saves clear the cache. Saves of any other post type keep it.

## Model

| member | source | states |
|---|---|---|
| `Text.Join` | smarty-gtm-events-for-woocommerce.php:99 | `implode` of no parts is '', and of one or more parts begins with the first part |
| `Text.SplitJoinRoundTrip` | smarty-gtm-events-for-woocommerce.php:129 | joining with a one-character separator is undone by splitting, for at least one part and no part containing the separator |
| `Text.JoinNotInjective` | smarty-gtm-events-for-woocommerce.php:129 | a name containing '/' makes two different category lists give the same path |
| `Text.NatToString` | smarty-gtm-events-for-woocommerce.php:148 | the decimal text of a number is non-empty, all digits, with no leading zero |
| `Text.IntToString` | smarty-gtm-events-for-woocommerce.php:148 | `(string)` of an integer is non-empty and starts with '-' exactly when the integer is negative |
| `Text.IntToStringRoundTrip` | smarty-gtm-events-for-woocommerce.php:148 | `(string)` of an integer can be read back to the same integer |
| `Text.IntToStringInjective` | smarty-gtm-events-for-woocommerce.php:148 | distinct integers have distinct texts |
| `Text.ReplaceAll` | smarty-gtm-events-for-woocommerce.php:346 | `str_replace` on a subject that starts with the search string puts the replacement first |
| `Text.ReplaceAllLength` | smarty-gtm-events-for-woocommerce.php:346 | `str_replace` changes the length by the replacement growth once per occurrence |
| `Text.ReplaceAllNoOccurrence` | smarty-gtm-events-for-woocommerce.php:346 | a subject without the search string is returned unchanged |
| `Text.ReplaceAllNotShorter` | smarty-gtm-events-for-woocommerce.php:346 | a replacement at least as long as the search string never shortens the subject |
| `Text.ReplaceAllUnchangedIff` | smarty-gtm-events-for-woocommerce.php:346 | with a longer replacement, the subject comes back unchanged exactly when it holds no occurrence |
| `Store.GetCartItem` | smarty-gtm-events-for-woocommerce.php:342 | a found line has the key and is in the cart; not found means no line has the key |
| `Formatting.OrEmpty` | smarty-gtm-events-for-woocommerce.php:145-156 | `?: ''` keeps a truthy string, gives '' exactly for '' and '0', and never yields '0' |
| `Formatting.FormatProductItem` | smarty-gtm-events-for-woocommerce.php:126-160 | the item is a full record for the product's id with the given quantity and `list_name` 'Order' |
| `Formatting.FormatProductItemSpec` | smarty-gtm-events-for-woocommerce.php:126-160 | id, name, price copied; quantity as given; list_position reads back as the given position; list_name 'Order'; category is the category path of the product's names; brand, SKU and dimensions '' exactly when falsy, else unchanged; weight and custom fields passed through; variant '' unless a variation, else the attribute values joined by ", " |
| `Formatting.ItemCategoryRoundTrip` | smarty-gtm-events-for-woocommerce.php:128-146 | an item's category is '' for a product without categories; otherwise splitting it at '/' gives back the product's category names, when no name contains '/' |
| `Formatting.VariantOf` | smarty-gtm-events-for-woocommerce.php:134-139 | the variant is '' for a product that is not a variation or has no attributes, and otherwise begins with the first attribute value |
| `Formatting.CategoryPathRoundTrip` | smarty-gtm-events-for-woocommerce.php:128-129 | category is '' with no categories; otherwise splitting it at '/' gives back the names, when no name contains '/' |
| `Formatting.ListPositionsDistinct` | smarty-gtm-events-for-woocommerce.php:148 | items formatted at different positions have different `list_position` strings |
| `Formatting.FormatEventModel` | smarty-gtm-events-for-woocommerce.php:92-116 | the envelope carries the given event name and item list |
| `Formatting.FormatEventModelSpec` | smarty-gtm-events-for-woocommerce.php:102-115 | every argument lands unchanged in its eventModel field, affiliation is the site URL, and no payment type is set |
| `Formatting.FormatEventModelDefaults` | smarty-gtm-events-for-woocommerce.php:92 | omitted arguments default to '' fields, an empty item list and event_source 'plugin' |
| `Formatting.CustomerOf` | smarty-gtm-events-for-woocommerce.php:95-100 | the customer block is empty exactly for a visitor, and otherwise carries the user's id |
| `Formatting.CustomerSpec` | smarty-gtm-events-for-woocommerce.php:95-100 | customer is empty exactly when nobody is logged in; otherwise it is the user id and the roles joined by ", " |
| `ListBuilders.LoadedIndicesFacts` | smarty-gtm-events-for-woocommerce.php:198-202 | the query indices of the loaded posts are in range, rise strictly, and include every post whose product loads |
| `ListBuilders.ProductListItems` | smarty-gtm-events-for-woocommerce.php:198-202 | one item per loaded post; the j-th item is the j-th loaded post's product at its query index + 1 |
| `ListBuilders.ProductListIndexed` | smarty-gtm-events-for-woocommerce.php:198-202 | the j-th listed item is the j-th loadable post's product at its query index + 1; indices rise strictly; every loadable post is listed |
| `ListBuilders.ProductListAllLoaded` | smarty-gtm-events-for-woocommerce.php:198-202 | when every post loads, item k is post k's product at position k + 1 |
| `ListBuilders.ProductListGap` | smarty-gtm-events-for-woocommerce.php:198-202 | an unloadable second post leaves positions "1" and "3" |
| `ListBuilders.BuildProductList` | smarty-gtm-events-for-woocommerce.php:196-203 | the miss-path loop builds exactly the product list |
| `ListBuilders.CartItemsIndexed` | smarty-gtm-events-for-woocommerce.php:284-288 | one item per cart line in cart order, line k at position k + 1 with its quantity |
| `ListBuilders.BuildCartItems` | smarty-gtm-events-for-woocommerce.php:282-288 | the `view_cart` loop builds exactly the cart items |
| `ListBuilders.BuildCheckoutItems` | smarty-gtm-events-for-woocommerce.php:387-398 | the `begin_checkout` loop builds the cart items and the sum of price x quantity |
| `ListBuilders.OrderItemsLength` | smarty-gtm-events-for-woocommerce.php:430-436 | purchase keeps one item per line with a product, and all lines when every product exists |
| `ListBuilders.OrderItemsIndexed` | smarty-gtm-events-for-woocommerce.php:428-436 | the j-th kept order line is the item at position j + 1: numbering is consecutive from 1 |
| `ListBuilders.BuildOrderItems` | smarty-gtm-events-for-woocommerce.php:428-436 | the `purchase` loop builds exactly the order items |
| `ListBuilders.PaymentLinesIndexed` | smarty-gtm-events-for-woocommerce.php:465-479 | one four-field line (id, name, price, quantity) per cart line, in order |
| `ListBuilders.BuildPaymentLines` | smarty-gtm-events-for-woocommerce.php:462-479 | the `add_payment_info` loop builds the payment lines and the cart total |
| `ListBuilders.ViewItem` | smarty-gtm-events-for-woocommerce.php:167-183 | an event exactly on product pages, valued at the price, in the given currency, from the plugin's event source, with the product at quantity 1 and position 1 |
| `ListBuilders.ViewCart` | smarty-gtm-events-for-woocommerce.php:280-303 | an event exactly on the cart page, carrying the cart items and WooCommerce's cart totals |
| `ListBuilders.BeginCheckout` | smarty-gtm-events-for-woocommerce.php:385-413 | an event exactly on the checkout form, carrying the cart items, the formatted cart total, shipping and tax, and the unique id |
| `ListBuilders.Purchase` | smarty-gtm-events-for-woocommerce.php:422-450 | no event when the order does not load; otherwise the order's number, totals, currency and items |
| `ListBuilders.PaymentMethod` | smarty-gtm-events-for-woocommerce.php:481 | the chosen payment method when truthy, otherwise 'unknown'; never empty |
| `ListBuilders.AddPaymentInfo` | smarty-gtm-events-for-woocommerce.php:460-500 | an event exactly on the checkout form: the built envelope with payment lines, the raw cart total, and `payment_type` added afterwards |
| `ListBuilders.PaymentTypeAlwaysSet` | smarty-gtm-events-for-woocommerce.php:481-495 | the envelope builder never sets a payment type; the one `add_payment_info` adds afterwards is always present and non-empty |
| `ProductListCache.ListCache.GetOrCompute` | smarty-gtm-events-for-woocommerce.php:194-206 | a hit returns the stored list without building and leaves the entry; a miss builds the list and stores it |
| `ProductListCache.ListCache.ViewItemList` | smarty-gtm-events-for-woocommerce.php:191-221 | only listing pages push an event (showing the cached or freshly built list); other pages leave the cache alone |
| `ProductListCache.ListCache.ClearOnSave` | smarty-gtm-events-for-woocommerce.php:230-234 | saving a post of type 'product' deletes the entry; any other save keeps it |
| `ProductListCache.RepeatedViewBuildsOnce` | smarty-gtm-events-for-woocommerce.php:194-206 | from an empty cache, two views in a row show the same list and build it once |
| `ProductListCache.OtherListingGetsStoredList` | smarty-gtm-events-for-woocommerce.php:194-206 | after one listing fills the cache, another listing is shown that list |
| `ProductListCache.SaveThenView` | smarty-gtm-events-for-woocommerce.php:191-234 | after a product save the next view rebuilds from the current query; after another save it shows the old list |
| `Ajax.AbsInt` | smarty-gtm-events-for-woocommerce.php:245 | `absint` gives the integer or its negation, never negative |
| `Ajax.AddToCart` | smarty-gtm-events-for-woocommerce.php:242-271 | nonce failure first; id 0 gives "Product ID is missing or invalid"; an unknown id gives "Product not found"; otherwise add_to_cart valued at price x quantity, in the given currency, from the plugin's event source, with the single item at that quantity |
| `Ajax.GetProductData` | smarty-gtm-events-for-woocommerce.php:356-376 | the same nonce and two checks, and on success the product's item at quantity 1 |
| `Ajax.AddToCartSingleItem` | smarty-gtm-events-for-woocommerce.php:259-268 | a success carries exactly one item: the product, with the requested quantity, at position "1" |
| `Ajax.HandlersAgree` | smarty-gtm-events-for-woocommerce.php:359-370 | both handlers fail alike on the same request, and agree on the item at quantity 1 |
| `Ajax.ZeroIdRefused` | smarty-gtm-events-for-woocommerce.php:245-251 | a missing or zero product id is refused with the missing-id message |
| `Ajax.NegativeIdNamesPositive` | smarty-gtm-events-for-woocommerce.php:245 | for every negative id whose magnitude is a product, both handlers succeed with that product (add-to-cart at the requested quantity, product data at quantity 1) |
| `Ajax.NonPositiveQuantityAccepted` | smarty-gtm-events-for-woocommerce.php:246 | quantities of 0 or below are accepted and priced as given |
| `Ajax.AddToCartExample` | smarty-gtm-events-for-woocommerce.php:259-270 | product 42 at 1999, quantity 3: value 5997, one item with quantity 3 at position "1" |
| `RemoveLink.AddDataToRemoveLink` | smarty-gtm-events-for-woocommerce.php:341-349 | without a cart line or without its product_id the link is returned unchanged |
| `RemoveLink.RewriteAddsOneAttributePerAnchor` | smarty-gtm-events-for-woocommerce.php:346 | with a product id, one attribute is added per `<a `; the link is unchanged exactly when it has none |
| `RemoveLink.ReplaceAnchorUndone` | smarty-gtm-events-for-woocommerce.php:346 | replacing `<a <attr>` back by `<a ` restores the original text, for any attribute |
| `RemoveLink.RemoveLinkRoundTrip` | smarty-gtm-events-for-woocommerce.php:341-349 | stripping the inserted `data-product_id` attribute gives back the original remove link |
| `AdminLogs.PageCount` | js/smarty-gtm-admin.js:90 | the page count is the least r with r x 10 >= total |
| `AdminLogs.PageHoldsRows` | js/smarty-gtm-admin.js:61-90 | a page number is within the page count exactly when that page starts before the total |
| `AdminLogs.LogViewer.constructor` | js/smarty-gtm-admin.js:59-60 | the viewer starts on page 1 of 1 |
| `AdminLogs.LogViewer.OnResponse` | js/smarty-gtm-admin.js:77-137 | a success sets the page, the page count and the controls' visibility (shown when more than one page or any row); a failure or transport error changes none of them |
| `AdminLogs.LogViewer.PrevRequest` | js/smarty-gtm-admin.js:142-146 | Prev requests currentPage - 1 exactly when currentPage > 1 |
| `AdminLogs.LogViewer.NextRequest` | js/smarty-gtm-admin.js:148-152 | Next requests currentPage + 1 exactly when currentPage < totalPages |
| `AdminLogs.BrowseToLastPage` | js/smarty-gtm-admin.js:141-155 | from the initial load of page 1, pressing Next until it stops reaches the last page, one click per page |
| `AdminLogs.FailedLoadKeepsPage` | js/smarty-gtm-admin.js:134-137 | after the first load, a failed load of the next page leaves the page and the page count as they were; that load happens exactly when there is more than one page |

## Left out

- Host calls (`wc_get_product`, `wc_get_order`, `wp_get_post_terms`, `get_post_meta`, `get_site_url`, `is_user_logged_in`, the `is_*` page predicates, `WC()->cart`, the session): their results are inputs. `wp_get_post_terms` returning a `WP_Error` is not modelled.
- Hook registration (`add_action`, `add_filter`) and script enqueueing (`smarty_gtm_events_enqueue_scripts`): wiring, not logic.
- Transient expiry after ten minutes: wall-clock behaviour. The entry is present or absent.
- Nonce checks: a boolean on the request. A failed check ends the request before anything else.
- Output: the `<script>` markup echoed by `smarty_gtm_push_to_dataLayer` and `wp_json_encode`. Hooks return the envelope they would push.
- The `search`, `apply_coupon` and `refund` pushes: one-line record literals plus output.
- `smarty_gtm_remove_from_cart`: its push is deferred to a `wp_footer` closure.
- Floating point: prices and totals are integers in minor units. `number_format` is the `Fixed2` marker, without its digits.
- `uniqid('order_')`: nondeterministic, so it is a parameter.
- `intval` parsing of POSTed strings: the request carries the parsed integers. `absint` of the most negative integer (a float in PHP) is not modelled.
- `js/smarty-gtm-events.js`: jQuery glue with a fire-and-forget POST. It reads `smarty_gtm_ajax.ajax_url` and sends no nonce, while the PHP localises `smartyGTMData`.
- Concurrent requests: each PHP hook is one atomic step. The miss path of `smarty_gtm_view_item_list` (`get_transient`, the build, `set_transient`) and `smarty_gtm_clear_product_list_cache` run in separate requests with no lock. A product save whose `delete_transient` lands between another request's miss and its `set_transient` is not modelled. In the plugin it leaves the list built before the save stored until expiry. `ProductListCache.SaveThenView` holds for requests that do not overlap.
- Other admin JS: tab switching, the README/CHANGELOG loaders, the table markup, and overlapping in-flight requests. Each response is handled atomically.
- The event log and error log stores, JS error logging, error dismissal, log clearing and the server side of `smarty_gtm_load_event_logs_paginated` are not part of this model. Their code is not in the modelled files.
- `Formatting.FormatProductItem`: its own contract names only the id, the quantity and `list_name`. The remaining fields are stated by `Formatting.FormatProductItemSpec` and `Formatting.ItemCategoryRoundTrip`.
- `Formatting.FormatEventModel`: its own contract names only the event and the items. The remaining fields are stated by `Formatting.FormatEventModelSpec`, `Formatting.FormatEventModelDefaults` and `Formatting.CustomerSpec`.
