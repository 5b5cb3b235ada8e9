/**
 * The product-list transient: `smarty_gtm_view_item_list` reads it and fills
 * it on a miss; `smarty_gtm_clear_product_list_cache` deletes it when a
 * product is saved. There is one entry under one fixed key, whatever listing
 * (shop, category or tag) is being shown. Expiry after ten minutes is not
 * modelled: the entry is either present or absent.
 */
module ProductListCache {

  import opened Wrappers
  import opened Store
  import opened Formatting
  import opened ListBuilders

  /** `is_shop() || is_product_category() || is_product_tag()`. */
  predicate IsListingPage(page: Page) {
    page.isShop || page.isProductCategory || page.isProductTag
  }

  /** The list a listing page shows: the stored one if there is one, else a fresh build. */
  function Served(entry: Option<seq<Item>>, posts: seq<int>, catalog: Catalog): seq<Item> {
    match entry
    case Some(products) => products
    case None => ProductList(posts, catalog)
  }

  /** The envelope of a listing page that shows `products`. */
  function ListingEvent(site: Site, currency: string, products: seq<Item>): Envelope {
    FormatEventModel(site, "view_item_list", "", Blank, currency, Blank, Blank, products, PluginSource)
  }

  /** The one transient, `smarty_gtm_product_list`, that every listing page shares. */
  class ListCache {
    /** The transient's value; `None` when it is absent (`get_transient` gives false). */
    var stored: Option<seq<Item>>
    /** How many times the list has been built from the query. */
    ghost var builds: nat

    constructor ()
      ensures stored == None && builds == 0
    {
      stored := None;
      builds := 0;
    }

    /** `get_transient`, and on a miss the build loop followed by `set_transient`. */
    method GetOrCompute(posts: seq<int>, catalog: Catalog) returns (products: seq<Item>)
      modifies this
      ensures products == Served(old(stored), posts, catalog)
      ensures old(stored).Some? ==> stored == old(stored) && builds == old(builds)
      ensures old(stored).None? ==> stored == Some(products) && builds == old(builds) + 1
    {
      if stored.Some? {
        products := stored.value;
      } else {
        products := BuildProductList(posts, catalog);
        stored := Some(products);
        builds := builds + 1;
      }
    }

    /** `smarty_gtm_view_item_list`: nothing happens off listing pages, the cache included. */
    method ViewItemList(page: Page, posts: seq<int>, catalog: Catalog, site: Site, currency: string)
      returns (data: Option<Envelope>)
      modifies this
      ensures data.Some? <==> IsListingPage(page)
      ensures data.Some? ==> data.value == ListingEvent(site, currency, Served(old(stored), posts, catalog))
      ensures !IsListingPage(page) ==> stored == old(stored) && builds == old(builds)
      ensures IsListingPage(page) && old(stored).Some? ==> stored == old(stored) && builds == old(builds)
      ensures IsListingPage(page) && old(stored).None? ==>
        stored == Some(ProductList(posts, catalog)) && builds == old(builds) + 1
    {
      data := None;
      if page.isShop || page.isProductCategory || page.isProductTag {
        var products := GetOrCompute(posts, catalog);
        data := Some(ListingEvent(site, currency, products));
      }
    }

    /** `smarty_gtm_clear_product_list_cache`: `postType` is `get_post_type($post_id)`, None for false. */
    method ClearOnSave(postType: Option<string>)
      modifies this
      ensures stored == (if postType == Some("product") then None else old(stored))
      ensures builds == old(builds)
    {
      if postType == Some("product") {
        stored := None;
      }
    }
  }

  /**
   * Two listing views in a row with no product saved in between: the second
   * is served from the cache, so both show the same list and it is built once.
   */
  method RepeatedViewBuildsOnce(page: Page, posts: seq<int>, catalog: Catalog, site: Site, currency: string)
    returns (first: Option<Envelope>, second: Option<Envelope>, ghost builds: nat)
    requires IsListingPage(page)
    ensures first == second == Some(ListingEvent(site, currency, ProductList(posts, catalog)))
    ensures builds == 1
  {
    var cache := new ListCache();
    first := cache.ViewItemList(page, posts, catalog, site, currency);
    second := cache.ViewItemList(page, posts, catalog, site, currency);
    builds := cache.builds;
  }

  /**
   * The cache is not keyed by listing: after the shop page filled it, a
   * category page is shown the shop's list, not its own.
   */
  method OtherListingGetsStoredList(shop: Page, category: Page, shopPosts: seq<int>, categoryPosts: seq<int>,
                                    catalog: Catalog, site: Site, currency: string)
    returns (shown: Option<Envelope>)
    requires IsListingPage(shop) && IsListingPage(category)
    ensures shown == Some(ListingEvent(site, currency, ProductList(shopPosts, catalog)))
  {
    var cache := new ListCache();
    var _ := cache.ViewItemList(shop, shopPosts, catalog, site, currency);
    shown := cache.ViewItemList(category, categoryPosts, catalog, site, currency);
  }

  /**
   * Saving a product evicts the list, so the next view rebuilds it from the
   * current query and catalog; saving any other post type keeps the old list.
   */
  method SaveThenView(page: Page, oldPosts: seq<int>, oldCatalog: Catalog, posts: seq<int>, catalog: Catalog,
                      savedType: Option<string>, site: Site, currency: string)
    returns (shown: Option<Envelope>)
    requires IsListingPage(page)
    ensures savedType == Some("product") ==> shown == Some(ListingEvent(site, currency, ProductList(posts, catalog)))
    ensures savedType != Some("product") ==> shown == Some(ListingEvent(site, currency, ProductList(oldPosts, oldCatalog)))
  {
    var cache := new ListCache();
    var _ := cache.ViewItemList(page, oldPosts, oldCatalog, site, currency);
    cache.ClearOnSave(savedType);
    shown := cache.ViewItemList(page, posts, catalog, site, currency);
  }
}
