/**
 * Cart permalinks (src/utils/shopify.ts): the cart becomes
 * `https://<domain>/cart/<id>:<qty>,<id>:<qty>,...`. `CheckoutUrl` refuses an
 * empty cart; `RedirectUrl`, the URL `redirectToShopifyCheckout` opens, does
 * not, and uses a different default variant id.
 */
module CheckoutLinks {
  import opened Wrappers
  import opened Text
  import opened Types

  const DefaultDomain: string := "sugrae.myshopify.com"
  const PermalinkDefaultVariant: string := "10080692535596"
  const RedirectDefaultVariant: string := "51885552927020"
  const EmptyCartMessage: string := "Cannot create checkout URL with empty cart"

  /** The variant id a line is sent under: the product's id, or the default when it has none. */
  function LineVariant(item: CartItem, defaultVariant: string): string
  {
    TextOr(item.product.shopifyVariantId, defaultVariant)
  }

  /** `${variantId}:${item.quantity}` for one line. */
  function LineSegment(item: CartItem, defaultVariant: string): (seg: string)
  {
    LineVariant(item, defaultVariant) + ":" + IntToString(item.quantity)
  }

  /** `items.map(...)`: one segment per line, in cart order. */
  function Segments(items: seq<CartItem>, defaultVariant: string): (segs: seq<string>)
    ensures |segs| == |items|
    ensures forall i :: 0 <= i < |items| ==> segs[i] == LineSegment(items[i], defaultVariant)
  {
    if items == [] then []
    else [LineSegment(items[0], defaultVariant)] + Segments(items[1..], defaultVariant)
  }

  /** The part of the permalink after `/cart/`. */
  function CartPath(items: seq<CartItem>, defaultVariant: string): string
  {
    Join(Segments(items, defaultVariant), ',')
  }

  /** `"https://" + domain + "/cart/"`. */
  function CartPrefix(domain: string): string
  {
    "https://" + domain + "/cart/"
  }

  /**
   * `createShopifyCheckoutUrl(items, domain)`. `domain` is `None` when the
   * argument is omitted; the default parameter applies only then.
   */
  function CheckoutUrl(items: seq<CartItem>, domain: Option<string>): (r: Result<string, string>)
    ensures r.Failure? <==> items == []
    ensures r.Failure? ==> r.error == EmptyCartMessage
    ensures r.Success? ==>
      var d := if domain.Some? then domain.value else DefaultDomain;
      r.value == CartPrefix(d) + CartPath(items, PermalinkDefaultVariant)
  {
    if |items| == 0 then Failure(EmptyCartMessage)
    else
      var d := if domain.Some? then domain.value else DefaultDomain;
      Success(CartPrefix(d) + CartPath(items, PermalinkDefaultVariant))
  }

  /**
   * The URL `redirectToShopifyCheckout(items, domain)` opens: `domain || default`
   * picks the store, an empty cart is not refused.
   */
  function RedirectUrl(items: seq<CartItem>, domain: Option<string>): (url: string)
    ensures url == CartPrefix(TextOr(domain, DefaultDomain)) + CartPath(items, RedirectDefaultVariant)
    ensures items == [] ==> url == CartPrefix(TextOr(domain, DefaultDomain))
  {
    CartPrefix(TextOr(domain, DefaultDomain)) + CartPath(items, RedirectDefaultVariant)
  }

  /** A variant id that the permalink format can carry unambiguously. */
  predicate PlainId(id: string)
  {
    ',' !in id && ':' !in id
  }

  /** A segment splits on `:` into its variant id and the decimal quantity. */
  lemma SegmentRoundTrip(item: CartItem, defaultVariant: string)
    requires PlainId(LineVariant(item, defaultVariant))
    ensures var parts := Split(LineSegment(item, defaultVariant), ':');
      && parts == [LineVariant(item, defaultVariant), IntToString(item.quantity)]
      && ParseInt(parts[1]) == item.quantity
  {
    var v, q := LineVariant(item, defaultVariant), IntToString(item.quantity);
    assert Join([v, q], ':') == LineSegment(item, defaultVariant);
    SplitJoin([v, q], ':');
    IntToStringRoundTrip(item.quantity);
  }

  /**
   * The permalink can be read back: for a non-empty cart whose ids contain
   * neither `,` nor `:`, the URL is the prefix followed by the path, the path
   * splits on `,` into one segment per line in cart order, and each segment
   * splits on `:` into that line's variant id and quantity.
   */
  lemma PermalinkRoundTrip(items: seq<CartItem>, domain: Option<string>)
    requires items != []
    requires forall i :: 0 <= i < |items| ==> PlainId(LineVariant(items[i], PermalinkDefaultVariant))
    ensures CheckoutUrl(items, domain).Success?
    ensures var url := CheckoutUrl(items, domain).value;
      var d := if domain.Some? then domain.value else DefaultDomain;
      var path := url[|CartPrefix(d)|..];
      var pieces := Split(path, ',');
      && url[..|CartPrefix(d)|] == CartPrefix(d)
      && |pieces| == |items|
      && forall i :: 0 <= i < |items| ==>
           var parts := Split(pieces[i], ':');
           && parts == [LineVariant(items[i], PermalinkDefaultVariant), IntToString(items[i].quantity)]
           && ParseInt(parts[1]) == items[i].quantity
  {
    var d := if domain.Some? then domain.value else DefaultDomain;
    var segs := Segments(items, PermalinkDefaultVariant);
    var url := CheckoutUrl(items, domain).value;
    assert url == CartPrefix(d) + Join(segs, ',');
    assert url[|CartPrefix(d)|..] == Join(segs, ',');
    forall i | 0 <= i < |segs| ensures ',' !in segs[i] {
      var q := IntToString(items[i].quantity);
      assert segs[i] == LineVariant(items[i], PermalinkDefaultVariant) + ":" + q;
    }
    SplitJoin(segs, ',');
    forall i | 0 <= i < |items|
      ensures var parts := Split(segs[i], ':');
        && parts == [LineVariant(items[i], PermalinkDefaultVariant), IntToString(items[i].quantity)]
        && ParseInt(parts[1]) == items[i].quantity
    {
      SegmentRoundTrip(items[i], PermalinkDefaultVariant);
    }
  }

  /** A line without a variant id of its own is sent under the default id. */
  lemma MissingIdUsesDefault(item: CartItem, defaultVariant: string)
    requires !Filled(item.product.shopifyVariantId)
    ensures LineSegment(item, defaultVariant) == defaultVariant + ":" + IntToString(item.quantity)
  {
  }
}
