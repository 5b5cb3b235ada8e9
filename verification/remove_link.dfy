/**
 * `smarty_gtm_add_data_to_remove_link`: the cart's remove link gets a
 * `data-product_id` attribute on every `<a ` it contains, so that the
 * storefront script can tell which product is being removed.
 */
module RemoveLink {

  import opened Wrappers
  import opened Text
  import opened Store

  /** The text the rewrite looks for. */
  const LinkOpen := "<a "

  /** `data-product_id="<id>" `, inserted after each `<a `. */
  function ProductAttribute(id: int): string {
    "data-product_id=\"" + IntToString(id) + "\" "
  }

  /**
   * The filter: the cart line comes from `get_cart_item($cart_item_key)`;
   * without a line, or without a `product_id` on it, the link is unchanged.
   */
  function AddDataToRemoveLink(url: string, key: string, lines: seq<CartLine>): (r: string)
    ensures GetCartItem(lines, key).None? || GetCartItem(lines, key).value.productId.None? ==> r == url
  {
    match GetCartItem(lines, key)
    case Some(line) =>
      (match line.productId
       case Some(id) => ReplaceAll(url, LinkOpen, LinkOpen + ProductAttribute(id))
       case None => url)
    case None => url
  }

  /**
   * With a product id, the link grows by exactly one attribute per `<a `; it
   * is unchanged exactly when it has no `<a `.
   */
  lemma RewriteAddsOneAttributePerAnchor(url: string, key: string, lines: seq<CartLine>)
    requires GetCartItem(lines, key).Some? && GetCartItem(lines, key).value.productId.Some?
    ensures var id := GetCartItem(lines, key).value.productId.value;
      |AddDataToRemoveLink(url, key, lines)| == |url| + Occurrences(url, LinkOpen) * |ProductAttribute(id)|
    ensures AddDataToRemoveLink(url, key, lines) == url <==> Occurrences(url, LinkOpen) == 0
  {
    var id := GetCartItem(lines, key).value.productId.value;
    var attr := ProductAttribute(id);
    var rep := LinkOpen + attr;
    var r := ReplaceAll(url, LinkOpen, rep);
    assert AddDataToRemoveLink(url, key, lines) == r;
    ReplaceAllLength(url, LinkOpen, rep);
    assert |rep| - |LinkOpen| == |attr| > 0;
    ReplaceAllUnchangedIff(url, LinkOpen, rep);
  }

  /** Inserting after `<a ` never changes the first character. */
  lemma ReplaceAnchorFirst(t: string, attr: string)
    requires |t| > 0
    ensures var r := ReplaceAll(t, LinkOpen, LinkOpen + attr); |r| > 0 && r[0] == t[0]
  {
  }

  /** Text that does not start with `<a ` still does not after the rewrite. */
  lemma NoAnchorCreated(s: string, attr: string)
    requires |s| > 0 && !(LinkOpen <= s)
    ensures !(LinkOpen <= ReplaceAll(s, LinkOpen, LinkOpen + attr))
  {
    var q := LinkOpen + attr;
    var r := ReplaceAll(s, LinkOpen, q);
    var tail := ReplaceAll(s[1..], LinkOpen, q);
    assert r == [s[0]] + tail;
    if s[0] != '<' {
      assert r[0] != LinkOpen[0];
    } else if |s| == 1 {
      assert |r| < |LinkOpen|;
    } else {
      ReplaceAnchorFirst(s[1..], attr);
      assert r[1] == s[1];
      if s[1] != 'a' {
        assert r[1] != LinkOpen[1];
      } else if |s| == 2 {
        assert |r| < |LinkOpen|;
      } else {
        assert !(LinkOpen <= s[1..]);
        var tail2 := ReplaceAll(s[2..], LinkOpen, q);
        assert s[1..][1..] == s[2..];
        assert tail == [s[1]] + tail2;
        ReplaceAnchorFirst(s[2..], attr);
        assert r[2] == s[2];
        assert s[..3] != LinkOpen;
        assert r[2] != LinkOpen[2];
      }
    }
  }

  /** A text that starts with `<a <attr>` starts with `<a `. */
  lemma AnchorPrefix(r: string, attr: string)
    ensures LinkOpen + attr <= r ==> LinkOpen <= r
  {
    if LinkOpen + attr <= r {
      assert r[..3] == (LinkOpen + attr)[..3];
    }
  }

  /**
   * The rewrite can be undone: replacing each `<a <attr>` by `<a ` gives back
   * the original link, for any attribute text.
   */
  lemma {:induction false} ReplaceAnchorUndone(s: string, attr: string)
    ensures ReplaceAll(ReplaceAll(s, LinkOpen, LinkOpen + attr), LinkOpen + attr, LinkOpen) == s
    decreases |s|
  {
    var q := LinkOpen + attr;
    var r := ReplaceAll(s, LinkOpen, q);
    if |s| == 0 {
    } else if LinkOpen <= s {
      var rest := ReplaceAll(s[3..], LinkOpen, q);
      assert r == q + rest;
      assert q <= r && r[|q|..] == rest;
      ReplaceAnchorUndone(s[3..], attr);
      assert LinkOpen + s[3..] == s;
    } else {
      var tail := ReplaceAll(s[1..], LinkOpen, q);
      assert r == [s[0]] + tail;
      NoAnchorCreated(s, attr);
      AnchorPrefix(r, attr);
      assert r[1..] == tail;
      ReplaceAnchorUndone(s[1..], attr);
      assert [s[0]] + s[1..] == s;
    }
  }

  /** Removing the inserted attribute restores the original remove link. */
  lemma RemoveLinkRoundTrip(url: string, key: string, lines: seq<CartLine>)
    requires GetCartItem(lines, key).Some? && GetCartItem(lines, key).value.productId.Some?
    ensures var id := GetCartItem(lines, key).value.productId.value;
      ReplaceAll(AddDataToRemoveLink(url, key, lines), LinkOpen + ProductAttribute(id), LinkOpen) == url
  {
    ReplaceAnchorUndone(url, ProductAttribute(GetCartItem(lines, key).value.productId.value));
  }
}
