/**
 * The records of the storefront (src/types/index.ts). Prices are exact
 * rationals standing for the JavaScript numbers the catalog carries; the
 * regional price and variant-id overrides are the optional fields the
 * pricing resolver reads.
 */
module Types {
  import opened Wrappers

  datatype Product = Product(
    id: string,
    number: string,
    name: string,
    notes: string,
    description: string,
    bottleText: string,
    price: real,
    shopifyVariantId: Option<string>,
    priceINR: Option<real>,
    priceAED: Option<real>,
    shopifyVariantIdINR: Option<string>,
    shopifyVariantIdAED: Option<string>)

  /** One cart line; the cart store that keeps quantities positive is not part of this model. */
  datatype CartItem = CartItem(product: Product, quantity: int)

  /** The guest-checkout contact and shipping form. */
  datatype CustomerInfo = CustomerInfo(
    firstName: string,
    lastName: string,
    email: string,
    phone: string,
    address: string,
    city: string,
    state: string,
    zipCode: string,
    country: string)

  /** An optional text field is truthy when present and non-empty. */
  predicate Filled(o: Option<string>)
  {
    o.Some? && o.value != ""
  }

  /** `o || fallback` for an optional text field. */
  function TextOr(o: Option<string>, fallback: string): (r: string)
    ensures Filled(o) ==> r == o.value
    ensures !Filled(o) ==> r == fallback
  {
    if Filled(o) then o.value else fallback
  }
}
