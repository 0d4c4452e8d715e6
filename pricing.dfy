/**
 * Regional price and variant resolution (src/utils/pricing.ts). Each region
 * looks at its own override field and falls back to the base field with
 * JavaScript `||`, so an override of `0` (or `''` for an id) counts as absent.
 */
module Pricing {
  import opened Wrappers
  import opened Types
  import opened RegionContext

  /** The price override a region consults: `priceINR` for India, `priceAED` for the UAE, none otherwise. */
  function OwnPriceOverride(p: Product, r: Region): Option<real>
  {
    match r
    case India => p.priceINR
    case UAE => p.priceAED
    case Global => None
  }

  /** The variant-id override a region consults. */
  function OwnVariantOverride(p: Product, r: Region): Option<string>
  {
    match r
    case India => p.shopifyVariantIdINR
    case UAE => p.shopifyVariantIdAED
    case Global => None
  }

  /** A numeric field is truthy when present and non-zero. */
  predicate PriceSet(o: Option<real>)
  {
    o.Some? && o.value != 0.0
  }

  /** `getProductPrice(product, region)`. */
  function ProductPrice(p: Product, r: Region): (price: real)
    ensures PriceSet(OwnPriceOverride(p, r)) ==> price == OwnPriceOverride(p, r).value
    ensures !PriceSet(OwnPriceOverride(p, r)) ==> price == p.price
    ensures r == Global ==> price == p.price
  {
    match r
    case India => if PriceSet(p.priceINR) then p.priceINR.value else p.price
    case UAE => if PriceSet(p.priceAED) then p.priceAED.value else p.price
    case Global => p.price
  }

  /** `getProductVariantId(product, region)`: always a string, `''` when no id is set. */
  function ProductVariantId(p: Product, r: Region): (id: string)
    ensures Filled(OwnVariantOverride(p, r)) ==> id == OwnVariantOverride(p, r).value
    ensures !Filled(OwnVariantOverride(p, r)) && Filled(p.shopifyVariantId) ==> id == p.shopifyVariantId.value
    ensures !Filled(OwnVariantOverride(p, r)) && !Filled(p.shopifyVariantId) ==> id == ""
    ensures r == Global ==> id == (if Filled(p.shopifyVariantId) then p.shopifyVariantId.value else "")
  {
    match r
    case India => TextOr(p.shopifyVariantIdINR, TextOr(p.shopifyVariantId, ""))
    case UAE => TextOr(p.shopifyVariantIdAED, TextOr(p.shopifyVariantId, ""))
    case Global => TextOr(p.shopifyVariantId, "")
  }

  /** An override of zero resolves exactly as a missing override. */
  lemma ZeroOverrideIsAbsent(p: Product, r: Region)
    requires r != Global
    ensures ProductPrice(p.(priceINR := Some(0.0), priceAED := Some(0.0)), r)
         == ProductPrice(p.(priceINR := None, priceAED := None), r)
         == p.price
  {
  }

  /** The price in one region does not depend on another region's override. */
  lemma PriceReadsOnlyOwnOverride(p: Product, q: Product, r: Region)
    requires p.price == q.price && OwnPriceOverride(p, r) == OwnPriceOverride(q, r)
    ensures ProductPrice(p, r) == ProductPrice(q, r)
  {
  }

  /** The variant id in one region does not depend on another region's override. */
  lemma VariantReadsOnlyOwnOverride(p: Product, q: Product, r: Region)
    requires p.shopifyVariantId == q.shopifyVariantId
    requires OwnVariantOverride(p, r) == OwnVariantOverride(q, r)
    ensures ProductVariantId(p, r) == ProductVariantId(q, r)
  {
  }

  /** A resolved price is the base price or a non-zero override of the region asked about. */
  lemma PriceComesFromProduct(p: Product, r: Region)
    ensures var price := ProductPrice(p, r);
      price == p.price || (r == India && p.priceINR == Some(price) && price != 0.0)
                       || (r == UAE && p.priceAED == Some(price) && price != 0.0)
  {
  }
}
