/**
 * The product catalog context (src/contexts/ProductContext.tsx): it starts
 * from the built-in fallback products, asks the gateway for up to twenty
 * store products, converts them to storefront products, and keeps the
 * fallback list whenever the store returns nothing or fails.
 */
module Catalog {
  import opened Wrappers
  import opened Text
  import opened Types
  import opened Storefront

  const FetchCount: int := 20
  const DefaultPrice: real := 125.0
  const NotesLength: nat := 100
  const NotesFallback: string := "Premium fragrance"
  const DescriptionFallback: string := "No description available"
  const NoProductsMessage: string := "No products found in Shopify store"
  /** The bottle label every converted product gets, with its characters as they stand in the file. */
  const BottleText: string := "Sugra\U{00C3}\U{00A9}"

  datatype ProductState = ProductState(products: seq<Product>, isLoading: bool, error: Option<string>, isShopifyData: bool)

  /** The state the provider mounts with. */
  function InitialState(fallback: seq<Product>): (s: ProductState)
    ensures s.products == fallback && s.isLoading && s.error.None? && !s.isShopifyData
  {
    ProductState(fallback, true, None, false)
  }

  /** `String(index + 1).padStart(2, '0')`: the display number of the product at `index`. */
  function CardNumber(index: nat): (s: string)
    ensures |s| >= 2 && AllDigits(s)
    ensures DigitsValue(s) == index + 1
    ensures |s| == 2 || s[0] != '0'
  {
    var digits := NatToString(index + 1);
    var r := PadStart(digits, 2, '0');
    var z := |r| - |digits|;
    assert r == seq(z, _ => '0') + digits by {
      assert r == r[..z] + r[z..];
      assert r[..z] == seq(z, _ => '0');
    }
    LeadingZerosIgnored(z, digits);
    NatToStringRoundTrip(index + 1);
    r
  }

  /** Every position of `s` that falls inside its suffix `t` holds a character of `t`. */
  lemma SuffixHolds(t: string, s: string, k: int)
    requires |t| <= |s| && t == s[|s| - |t|..]
    ensures |s| - |t| <= k < |s| ==> s[k] in t
  {
    if |s| - |t| <= k < |s| {
      assert t[k - (|s| - |t|)] == s[k];
    }
  }

  /** `s.split('/').pop()` of a variant id ending in `/<n>` is `<n>`. */
  lemma LastPieceAfterSeparator(a: string, n: string)
    requires '/' !in n
    ensures LastPiece(a + "/" + n, '/') == n
  {
    var s := a + "/" + n;
    var r := LastPiece(s, '/');
    assert s[|a|] == '/';
    assert n == s[|s| - |n|..];
    SuffixHolds(r, s, |a|);
    SuffixHolds(n, s, |s| - |r| - 1);
    assert |r| == |n|;
  }

  /** An id without `/` is its own last piece. */
  lemma LastPieceWithoutSeparator(s: string)
    requires '/' !in s
    ensures LastPiece(s, '/') == s
  {
  }

  /** The product id a converted product is sent under: the last `/`-piece of the first variant's id. */
  function VariantIdOf(sp: ShopifyProduct): (id: Option<string>)
    ensures id.Some? <==> |sp.variants| > 0 && sp.variants[0].id != ""
    ensures id.Some? ==> '/' !in id.value
    ensures forall a: string, n: string :: |sp.variants| > 0 && sp.variants[0].id == a + "/" + n && '/' !in n ==>
              id == Some(n)
    ensures |sp.variants| > 0 && sp.variants[0].id != "" && '/' !in sp.variants[0].id ==>
              id == Some(sp.variants[0].id)
  {
    assert |sp.variants| > 0 && '/' !in sp.variants[0].id ==> LastPiece(sp.variants[0].id, '/') == sp.variants[0].id by {
      if |sp.variants| > 0 && '/' !in sp.variants[0].id {
        LastPieceWithoutSeparator(sp.variants[0].id);
      }
    }
    forall a: string, n: string | |sp.variants| > 0 && sp.variants[0].id == a + "/" + n && '/' !in n
      ensures LastPiece(sp.variants[0].id, '/') == n
    {
      LastPieceAfterSeparator(a, n);
    }
    if |sp.variants| > 0 && sp.variants[0].id != "" then Some(LastPiece(sp.variants[0].id, '/')) else None
  }

  /**
   * The tasting notes of a converted product: the first hundred characters of
   * the description followed by `...` (even when nothing was cut), or the
   * fallback text for an empty description.
   */
  function Notes(description: string): (n: string)
    ensures description == "" ==> n == NotesFallback
    ensures description != "" ==>
              && 3 <= |n| <= NotesLength + 3 && |n| - 3 <= |description| && n[|n| - 3..] == "..."
              && n[..|n| - 3] == description[..|n| - 3]
              && (|description| >= NotesLength ==> |n| == NotesLength + 3)
              && (|description| <= NotesLength ==> n == description + "...")
  {
    if description != "" then
      var cut := Prefix(description, NotesLength);
      var n := cut + "...";
      assert n[..|cut|] == cut && n[|cut|..] == "...";
      n
    else NotesFallback
  }

  /** `convertShopifyProduct(shopifyProduct, index)`. */
  function ConvertProduct(sp: ShopifyProduct, index: nat): (p: Product)
    ensures p.id == (if sp.handle != "" then sp.handle else "product-" + NatToString(index))
    ensures |p.number| >= 2 && AllDigits(p.number) && DigitsValue(p.number) == index + 1
    ensures p.name == sp.title
    ensures p.notes == Notes(sp.description)
    ensures p.description == (if sp.description != "" then sp.description else DescriptionFallback)
    ensures p.bottleText == BottleText
    ensures p.price == (if |sp.variants| > 0 then sp.variants[0].price else DefaultPrice)
    ensures p.shopifyVariantId == VariantIdOf(sp)
    ensures p.priceINR.None? && p.priceAED.None? && p.shopifyVariantIdINR.None? && p.shopifyVariantIdAED.None?
  {
    Product(
      id := if sp.handle != "" then sp.handle else "product-" + NatToString(index),
      number := CardNumber(index),
      name := sp.title,
      notes := Notes(sp.description),
      description := if sp.description != "" then sp.description else DescriptionFallback,
      bottleText := BottleText,
      price := if |sp.variants| > 0 then sp.variants[0].price else DefaultPrice,
      shopifyVariantId := VariantIdOf(sp),
      priceINR := None, priceAED := None, shopifyVariantIdINR := None, shopifyVariantIdAED := None)
  }

  /** `shopifyProducts.map(convertShopifyProduct)`: each product converted with its own position. */
  function ConvertAll(sps: seq<ShopifyProduct>): (ps: seq<Product>)
    ensures |ps| == |sps|
    ensures forall i :: 0 <= i < |sps| ==> ps[i] == ConvertProduct(sps[i], i)
  {
    seq(|sps|, i requires 0 <= i < |sps| => ConvertProduct(sps[i], i))
  }

  /** The state `fetchProducts` settles in, given what the gateway returned. */
  function FetchStep(prev: ProductState, fetched: Result<seq<ShopifyProduct>, string>): (next: ProductState)
    ensures !next.isLoading
    ensures fetched.Success? && |fetched.value| > 0 ==>
              next == ProductState(ConvertAll(fetched.value), false, None, true)
    ensures fetched == Success([]) ==> next == prev.(isLoading := false, error := Some(NoProductsMessage))
    ensures fetched.Failure? ==> next == prev.(isLoading := false, error := Some(fetched.error))
  {
    match fetched
    case Success(sps) =>
      if |sps| > 0 then ProductState(ConvertAll(sps), false, None, true)
      else prev.(isLoading := false, error := Some(NoProductsMessage))
    case Failure(m) => prev.(isLoading := false, error := Some(m))
  }

  /** Store products get the distinct display numbers 01, 02, ... in the order the store listed them. */
  lemma ConvertedNumbersDistinct(sps: seq<ShopifyProduct>, i: int, j: int)
    requires 0 <= i < |sps| && 0 <= j < |sps| && i != j
    ensures ConvertAll(sps)[i].number != ConvertAll(sps)[j].number
  {
    var ps := ConvertAll(sps);
    assert DigitsValue(ps[i].number) == i + 1;
    assert DigitsValue(ps[j].number) == j + 1;
  }

  /** An empty answer or a failure keeps whatever catalog was shown, and records why. */
  lemma FailedFetchKeepsCatalog(prev: ProductState, fetched: Result<seq<ShopifyProduct>, string>)
    requires fetched.Failure? || fetched == Success([])
    ensures var next := FetchStep(prev, fetched);
      && next.products == prev.products && next.isShopifyData == prev.isShopifyData
      && next.error.Some? && !next.isLoading
  {
  }

  /** Once the fallback list is replaced by store data, a later empty or failed fetch keeps the store data. */
  lemma StoreDataIsSticky(fallback: seq<Product>, first: seq<ShopifyProduct>, later: Result<seq<ShopifyProduct>, string>)
    requires |first| > 0 && (later.Failure? || later == Success([]))
    ensures var s := FetchStep(FetchStep(InitialState(fallback), Success(first)), later);
      s.isShopifyData && s.products == ConvertAll(first)
  {
  }

  /** The gateway's own failures reach the catalog state with their message, and the fallback list stays. */
  lemma GatewayErrorShown(fallback: seq<Product>, resp: HttpResponse<ProductsBody>)
    requires !resp.ok
    ensures var s := FetchStep(InitialState(fallback), ClassifyProducts(resp));
      s.products == fallback && !s.isShopifyData && s.error == Some(HttpErrorMessage(resp))
  {
  }

  /** The context's state holder. */
  class ProductStore {
    var state: ProductState

    constructor (fallback: seq<Product>)
      ensures state == InitialState(fallback)
    {
      state := InitialState(fallback);
    }

    /** `fetchProducts()`: mark loading, ask the gateway for twenty products, settle. */
    method FetchProducts(api: StorefrontApi, net: Request<ProductsQuery> -> HttpResponse<ProductsBody>)
      modifies this
      ensures state == FetchStep(old(state), api.FetchProducts(FetchCount, None, net))
    {
      state := state.(isLoading := true, error := None);
      var fetched := api.FetchProducts(FetchCount, None, net);
      state := FetchStep(state, fetched);
    }

    /** `refreshProducts()`: the same fetch again. */
    method RefreshProducts(api: StorefrontApi, net: Request<ProductsQuery> -> HttpResponse<ProductsBody>)
      modifies this
      ensures state == FetchStep(old(state), api.FetchProducts(FetchCount, None, net))
    {
      FetchProducts(api, net);
    }
  }
}
