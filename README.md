# Sugrae storefront core, modelled in Dafny

This project models the logic of the Sugrae perfume storefront, a React and
TypeScript single-page shop backed by the Shopify Storefront GraphQL API:

- regional price and variant-id resolution;
- the cart permalink that sends a cart to the Shopify checkout;
- conversion of Shopify catalog entries into storefront products, and the catalog context that keeps its fallback list when the store returns nothing or fails;
- the region context;
- the customer session context: restore on page load, login, signup, logout, the sign-in panel flag, and the copy of the user kept in local storage;
- the gateway that classifies every GraphQL response into a value or a thrown error;
- the sign-in panel: country-code search, first-name check, phone composition, mode switch, reset on close, and the submit handler;
- the demonstration guest checkout with its two timers;
- the cart drawer's quantity buttons;
- the description shortening on catalog cards.

Each stateful context or component is a class. Its methods are tied by their
`ensures` to a pure step function on a state record, and the lemmas about
those step functions state what the storefront promises.

JavaScript semantics are written out where they matter:

- `||` treats `0`, `''`, `null`, `undefined` and `false` as absent.
- Template literals print `null` and `undefined` as words.
- `split`, `pop`, `trim` (the ECMAScript white-space set), `padStart`, `substring`, `startsWith`, `includes` and `String(n)` are defined in the `Text` module.
- The dynamically typed values that flow through the session code unchecked are `Js.Value`.

The network is a parameter. Each gateway operation takes a function from the
request it would post to the response the store sends back. A response
records `ok`, the status line, the raw text and the parsed body. Local storage
is a map from keys to entries. An entry is either the JSON this code wrote for
a user, or a foreign text together with the outcome of parsing it.

Display names are modelled as written. The condition is read as
`(displayName || firstName) ? … : …`. So a customer whose profile has a
display name but no first or last name gets the display name `null`
(`Auth.DisplayNameReadsNull`).

Restoring a session reads whatever `JSON.parse` makes of the stored text. A
stored `null` is restored as signed in with no user
(`Auth.NullEntryAuthenticatesWithoutUser`). Every other step keeps the
signed-in flag and the user in agreement (`Auth.StepsKeepConsistent`).

## Model

| member | source | states |
|---|---|---|
| Pricing.ProductPrice | src/utils/pricing.ts:4-13 | India and UAE return their own override when it is present and non-zero, otherwise the base price; Global always returns the base price |
| Pricing.ZeroOverrideIsAbsent | src/utils/pricing.ts:7-9 | an override of `0` resolves exactly like a missing override, to the base price |
| Pricing.PriceReadsOnlyOwnOverride | src/utils/pricing.ts:5-12 | the price in a region depends only on the base price and that region's own override |
| Pricing.PriceComesFromProduct | src/utils/pricing.ts:4-13 | every resolved price is the base price or a non-zero override of the region asked about |
| Pricing.ProductVariantId | src/utils/pricing.ts:15-24 | India and UAE use their own id, else the base id, else `''`; Global uses the base id or `''`; the result is always a string |
| Pricing.VariantReadsOnlyOwnOverride | src/utils/pricing.ts:16-23 | the variant id in a region depends only on the base id and that region's own id |
| CheckoutLinks.Segments | src/utils/shopify.ts:14-17 | one `id:qty` segment per cart line, in cart order |
| CheckoutLinks.CheckoutUrl | src/utils/shopify.ts:8-24 | fails exactly on an empty cart, with the empty-cart message; otherwise `https://<domain>/cart/<segments joined by ,>`, with `sugrae.myshopify.com` when the domain is omitted |
| CheckoutLinks.MissingIdUsesDefault | src/utils/shopify.ts:15 | a line without a variant id is sent under `10080692535596` |
| CheckoutLinks.SegmentRoundTrip | src/utils/shopify.ts:16 | a segment splits on `:` into the variant id and the decimal quantity, which parses back to the quantity |
| CheckoutLinks.PermalinkRoundTrip | src/utils/shopify.ts:14-19 | for ids free of `,` and `:`, the path after `/cart/` splits on `,` into one segment per line, and each segment gives back that line's id and quantity |
| CheckoutLinks.RedirectUrl | src/utils/shopify.ts:57-69 | the redirect URL uses `domain \|\| 'sugrae.myshopify.com'` and default id `51885552927020`, and an empty cart is not refused |
| RegionContext.RegionStore.constructor | src/contexts/RegionContext.tsx:13 | the region starts as `Global` |
| RegionContext.RegionStore.SetRegion | src/contexts/RegionContext.tsx:13-16 | the region becomes exactly the argument; the store has no other state |
| Catalog.InitialState | src/contexts/ProductContext.tsx:39-44 | the fallback products, loading, no error, not store data |
| Catalog.CardNumber | src/contexts/ProductContext.tsx:28 | at least two decimal digits whose value is `index + 1`, with no leading zero except in a two-digit number |
| Catalog.LastPieceAfterSeparator | src/contexts/ProductContext.tsx:24 | the last `/` piece of `a/n` is `n` when `n` has no `/` |
| Catalog.LastPieceWithoutSeparator | src/contexts/ProductContext.tsx:24 | an id without `/` is its own last piece |
| Catalog.VariantIdOf | src/contexts/ProductContext.tsx:23-24 | absent exactly when there is no first variant or its id is empty; otherwise the text after the id's last `/`, which is the whole id when it has no `/` |
| Catalog.Notes | src/contexts/ProductContext.tsx:30 | an empty description gives `Premium fragrance`; otherwise the first 100 characters followed by `...`, so a description of 100 characters or fewer is kept whole and `...` is still added |
| Catalog.ConvertProduct | src/contexts/ProductContext.tsx:22-36 | handle or `product-<index>` as id; the padded number; notes as `Notes` of the description; description or `No description available`; first variant price or 125; variant id from the first variant |
| Catalog.ConvertAll | src/contexts/ProductContext.tsx:55 | same length and order, each product converted with its own position |
| Catalog.ConvertedNumbersDistinct | src/contexts/ProductContext.tsx:28-55 | converted products have pairwise distinct numbers |
| Catalog.FetchStep | src/contexts/ProductContext.tsx:46-83 | a non-empty answer replaces the list and marks store data with no error; an empty answer keeps the list and records `No products found in Shopify store`; a failure keeps the list and records the message; loading always ends |
| Catalog.FailedFetchKeepsCatalog | src/contexts/ProductContext.tsx:65-81 | an empty or failed fetch keeps the products and the store-data flag, and sets an error |
| Catalog.StoreDataIsSticky | src/contexts/ProductContext.tsx:57-71 | once store data is shown, a later empty or failed fetch keeps it |
| Catalog.GatewayErrorShown | src/contexts/ProductContext.tsx:73-81 | an HTTP failure of the gateway reaches the state with the gateway's message, and the fallback list stays |
| Catalog.ProductStore.FetchProducts | src/contexts/ProductContext.tsx:46-83 | the new state is `FetchStep` of the old state and the gateway's answer to a request for 20 products |
| Catalog.ProductStore.RefreshProducts | src/contexts/ProductContext.tsx:85-87 | refreshing is the same fetch, with the same effect on the state |
| Auth.DisplayName | src/contexts/AuthContext.tsx:73-75 | when display name or first name is truthy, the trimmed `first last` with a falsy last name as `''`; otherwise the email before the first `@` |
| Auth.DisplayNameFromNames | src/contexts/AuthContext.tsx:73-75 | with a non-empty first name and a last name, the display name is the trimmed `first last` |
| Auth.DisplayNameReadsNull | src/contexts/AuthContext.tsx:73-75 | a truthy display name with `null` names yields `null` |
| Auth.LoginUser | src/contexts/AuthContext.tsx:68-77 | id, email, names and display name from the profile, the token from the login answer; a missing profile gives `undefined` id, email and names and the email's local part as display name |
| Auth.SignupUser | src/contexts/AuthContext.tsx:119-128 | id, email and names from the login answer's profile (`undefined` without one); the display name from the signup arguments |
| Auth.SignupUserIsLoginUserRenamed | src/contexts/AuthContext.tsx:68-128 | the user a signup builds is the user a login with the same answer builds, except for the display name |
| Auth.RestoreStep | src/contexts/AuthContext.tsx:40-59 | no entry or an empty one: only loading ends; an entry this code wrote, or a foreign text read as a user, is restored and authenticated with storage kept; a foreign `null` authenticates with no user; an unparseable entry is removed; the panel flag is kept |
| Auth.LoginStep | src/contexts/AuthContext.tsx:61-95 | success signs the user in and closes the panel, and writes storage only with remember-me; failure only ends loading |
| Auth.SignupStep | src/contexts/AuthContext.tsx:97-144 | on success signs in and always writes storage; a failure of either call only ends loading |
| Auth.Thrown | src/contexts/AuthContext.tsx:91-94 | the error is rethrown exactly when the call failed |
| Auth.LogoutStep | src/contexts/AuthContext.tsx:146-153 | clears the user and the flag, removes the stored entry, and leaves loading and the panel flag alone |
| Auth.StepsKeepConsistent | src/contexts/AuthContext.tsx:32-153 | the initial state and every login, signup and logout keep `isAuthenticated` equal to having a user; so does restoring any entry but a foreign `null` |
| Auth.NullEntryAuthenticatesWithoutUser | src/contexts/AuthContext.tsx:41-50 | a stored `null` is restored as authenticated with no user |
| Auth.RememberedLoginSurvivesReload | src/contexts/AuthContext.tsx:40-90 | after a remembered login, the next page load restores the same user |
| Auth.UnrememberedLoginRestoresOlderUser | src/contexts/AuthContext.tsx:88-90 | a login without remember-me leaves an older remembered user, who is restored on reload |
| Auth.SignupIsRemembered | src/contexts/AuthContext.tsx:139 | a completed signup is restored on the next page load |
| Auth.CreateFailureSkipsLogin | src/contexts/AuthContext.tsx:108-117 | when account creation fails, the login answer makes no difference |
| Auth.LogoutIsFinal | src/contexts/AuthContext.tsx:146-153 | after logout, the next page load starts signed out |
| Auth.FailedLoginKeepsSession | src/contexts/AuthContext.tsx:91-94 | a failed login keeps user, flag, panel and storage |
| Auth.AuthStore.constructor | src/contexts/AuthContext.tsx:32-37 | no user, not authenticated, loading, panel closed |
| Auth.AuthStore.Restore | src/contexts/AuthContext.tsx:40-59 | state and storage become `RestoreStep` of the old ones |
| Auth.AuthStore.Login | src/contexts/AuthContext.tsx:61-95 | state and storage become `LoginStep` of the gateway's login answer; the rethrown error is that answer's error |
| Auth.AuthStore.Signup | src/contexts/AuthContext.tsx:97-144 | state and storage become `SignupStep` of the create and login answers; the error is the first failure's |
| Auth.AuthStore.Logout | src/contexts/AuthContext.tsx:146-153 | state and storage become `LogoutStep` of the old ones |
| Auth.AuthStore.OpenAuthModal | src/contexts/AuthContext.tsx:155-157 | only the panel flag changes, to open |
| Auth.AuthStore.CloseAuthModal | src/contexts/AuthContext.tsx:159-161 | only the panel flag changes, to closed |
| Storefront.Query | src/services/shopify.ts:77-85 | succeeds exactly on an OK response, with its body; a failure message starts with `Shopify API error: <status> ` |
| Storefront.FirstUserError | src/services/shopify.ts:129-130 | present exactly when the user-error list is present and non-empty, and then its first entry |
| Storefront.UserErrorMessage | src/services/shopify.ts:131 | the entry's message, or the fallback when it is empty |
| Storefront.AccountInput | src/services/shopify.ts:114-120 | falsy names become `''`; a falsy marketing flag becomes `false` |
| Storefront.BooleanMarketingStaysBoolean | src/services/shopify.ts:119 | a boolean or omitted flag reaches the store as a boolean with the same truth value |
| Storefront.ClassifyCreate | src/services/shopify.ts:122-134 | HTTP failure, then top-level errors, then the first user error (default `Failed to create account`); with none of these, the payload's customer, or the missing-field error when the payload is absent |
| Storefront.TopLevelErrorsComeFirst | src/services/shopify.ts:125-131 | top-level errors are reported even when user errors are also present |
| Storefront.ClassifyToken | src/services/shopify.ts:162-173 | the same order with default `Invalid email or password`; with none of these, the access token, or the missing-field error when the token is absent |
| Storefront.ClassifyProfile | src/services/shopify.ts:198-205 | HTTP failure, then top-level errors; otherwise the (possibly null) customer, or the missing-field error when `data` is absent |
| Storefront.EdgeNodes | src/services/shopify.ts:270 | the nodes of the edges, in edge order |
| Storefront.ClassifyProducts | src/services/shopify.ts:256-273 | errors throw; otherwise always success, with `[]` when edges are missing and the nodes in edge order otherwise |
| Storefront.MissingEdgesGiveNoProducts | src/services/shopify.ts:265-268 | missing or empty edges give no products, not an error |
| Storefront.StorefrontApi.constructor | src/services/shopify.ts:49-56 | keeps domain and token; the API version is `2024-10` |
| Storefront.StorefrontApi.RequestFor | src/services/shopify.ts:63-72 | every request goes to the endpoint with the storefront token and the given variables |
| Storefront.StorefrontApi.CreateCustomerAccount | src/services/shopify.ts:89-139 | the classification of the answer to the defaulted account input |
| Storefront.StorefrontApi.CustomerLogin | src/services/shopify.ts:142-182 | a token failure is the result; after a token, a profile failure is the result, and a profile gives the profile together with that token |
| Storefront.StorefrontApi.ProfileQueryOnlyAfterToken | src/services/shopify.ts:164-176 | when the token stage fails, the profile endpoint is never consulted |
| Storefront.EndpointShape | src/services/shopify.ts:51-68 | the endpoint is `https://<domain>/api/2024-10/graphql.json` |
| AuthForm.LeadingWord | src/components/AuthModal.tsx:205 | the longest separator-free prefix; a separator follows it when it is shorter |
| AuthForm.SepRunEnd | src/components/AuthModal.tsx:205 | the end of a maximal run of separators: every character before it from the start position is a separator, and the one at it is not |
| AuthForm.Words | src/components/AuthModal.tsx:205 | the pieces of the name between runs of white space or `/`; no piece holds a separator |
| AuthForm.NameMatchIffWordStart | src/components/AuthModal.tsx:205-208 | a separator-free query starts some word exactly when it occurs at the start of the name or right after a separator |
| AuthForm.QueryWithSeparatorMatchesNoWord | src/components/AuthModal.tsx:205-208 | a query holding white space or `/` matches no word |
| AuthForm.FilterCountries | src/components/AuthModal.tsx:202-212 | an entry is listed exactly when it is in the table and kept by the search; an empty search lists the whole table |
| AuthForm.FilterAppend | src/components/AuthModal.tsx:202 | filtering distributes over concatenation, so table order is kept |
| AuthForm.BlankQueryKeepsAll | src/components/AuthModal.tsx:203-204 | a search of only white space lists every entry |
| AuthForm.SingleWordSearch | src/components/AuthModal.tsx:204-211 | a one-word search keeps an entry exactly when it starts a word of the name or occurs anywhere in the code |
| AuthForm.MultiWordSearchMatchesCodesOnly | src/components/AuthModal.tsx:204-211 | a search with a space or `/` inside keeps only entries whose code contains it |
| AuthForm.SwitchedMode | src/components/AuthModal.tsx:310-313 | the other mode with no error, and nothing else changed |
| AuthForm.SwitchModeTwice | src/components/AuthModal.tsx:310-313 | switching twice gives back the form with the error cleared |
| AuthForm.CountrySelected | src/components/AuthModal.tsx:395-399 | the entry's code is chosen, the picker closes and forgets the search, nothing else changes |
| AuthForm.ClickOutside | src/components/AuthModal.tsx:215-221 | an open picker closes and forgets the search |
| AuthForm.FullPhone | src/components/AuthModal.tsx:301 | `''` without a phone, otherwise the country code followed by the phone |
| AuthForm.SignupArgsAsWritten | src/components/AuthModal.tsx:302 | the marketing argument is the full phone text |
| AuthForm.AsWrittenTickedBoxIgnored | src/components/AuthModal.tsx:302 | as written, a ticked box with no phone sends `acceptsMarketing: false` |
| AuthForm.AsWrittenPhoneSentAsFlag | src/components/AuthModal.tsx:302 | as written, a phone number is sent as the marketing flag |
| AuthForm.SignupArgs | src/components/AuthModal.tsx:302 | email, password and names from the form, and the checkbox as the marketing flag |
| AuthForm.MarketingChoiceReachesStore | src/components/AuthModal.tsx:302 | with the checkbox passed, the store receives exactly the subscriber's choice |
| AuthForm.Plan | src/components/AuthModal.tsx:287-303 | login mode logs in with remember-me; signup without a first name is refused with `First name is required`; otherwise signup with the corrected `SignupArgs` |
| AuthForm.Settle | src/components/AuthModal.tsx:289-307 | a refusal or thrown error is shown and re-enables the button; a success leaves it disabled |
| AuthForm.AfterPanelFlag | src/components/AuthModal.tsx:232-285 | closing the panel returns every field to its mount value (login mode, nothing typed, button enabled); while it is open the form is kept |
| AuthForm.SuccessClosesAndResets | src/components/AuthModal.tsx:232-308 | a successful login or signup leaves the button disabled, signs in and closes the panel, and the closing resets the form to its mount state |
| AuthForm.AuthPanel.constructor | src/components/AuthModal.tsx:11-23 | the initial form: login mode, empty fields, `+91`, remember-me off, marketing on, no error, not submitting |
| AuthForm.AuthPanel.PanelFlagChanged | src/components/AuthModal.tsx:232-285 | the form becomes `AfterPanelFlag` of the flag and the old form |
| AuthForm.AuthPanel.SwitchMode | src/components/AuthModal.tsx:310-313 | the form becomes `SwitchedMode` of the old form |
| AuthForm.AuthPanel.SelectCountry | src/components/AuthModal.tsx:395-399 | the form becomes `CountrySelected` of the old form |
| AuthForm.AuthPanel.HandleSubmit | src/components/AuthModal.tsx:287-308 | a refusal touches neither session nor storage; a login, or a signup with the corrected `SignupArgs`, updates them by `LoginStep` or `SignupStep`, and the form settles with the error thrown |
| GuestCheckout.WithField | src/components/GuestCheckout.tsx:60-66 | the named field takes the value; every other field is unchanged |
| GuestCheckout.WithFieldLaws | src/components/GuestCheckout.tsx:60-66 | writing back a field's own value changes nothing; of two writes to a field, the second wins |
| GuestCheckout.InputChange | src/components/GuestCheckout.tsx:60-66 | one field edited, flags untouched |
| GuestCheckout.Submit | src/components/GuestCheckout.tsx:68-71 | with every required field (all but phone) filled, the form is kept, submitting starts and the first timer is pending; otherwise the browser blocks the submit and nothing changes |
| GuestCheckout.BlankFormNotSubmittable | src/components/GuestCheckout.tsx:160-266 | the blank form has an empty required field, so it cannot be submitted |
| GuestCheckout.Fire | src/components/GuestCheckout.tsx:73-93 | the first timer ends submitting and completes the order; the second blanks the form, ends completion, and clears the cart then closes the checkout |
| GuestCheckout.OrderCycle | src/components/GuestCheckout.tsx:68-94 | from a filled idle form, submit and both timers return the form to its initial state and issue clear-cart then close-checkout |
| GuestCheckout.LineAmount | src/components/GuestCheckout.tsx:141 | zero units cost nothing; a positive quantity costs at least one unit |
| GuestCheckout.SummaryUsesBasePrice | src/components/GuestCheckout.tsx:141 | the summary line uses the base price, not a regional one |
| GuestCheckout.GuestCheckoutForm.constructor | src/components/GuestCheckout.tsx:13-26 | every field `''` except country `United States`; not submitting, not complete |
| GuestCheckout.GuestCheckoutForm.HandleInputChange | src/components/GuestCheckout.tsx:60-66 | the state becomes `InputChange` of the old state |
| GuestCheckout.GuestCheckoutForm.HandleSubmit | src/components/GuestCheckout.tsx:68-71 | the state becomes `Submit` of the old state |
| GuestCheckout.GuestCheckoutForm.FireTimer | src/components/GuestCheckout.tsx:73-93 | state and cart calls are those of `Fire` |
| CartSidebar.QuantityChange | src/components/CartSidebar.tsx:51-57 | zero or less removes the line; a positive quantity is an update to exactly that quantity |
| CartSidebar.Decrement | src/components/CartSidebar.tsx:102 | the `−` button acts on its own line |
| CartSidebar.Increment | src/components/CartSidebar.tsx:109 | the `+` button acts on its own line |
| CartSidebar.RemoveButton | src/components/CartSidebar.tsx:116 | `Remove` removes its line whatever the quantity |
| CartSidebar.Checkout | src/components/CartSidebar.tsx:59-61 | the checkout button opens the checkout |
| CartSidebar.DecrementLastUnitRemoves | src/components/CartSidebar.tsx:102-116 | on a line of one unit, `−` does what `Remove` does |
| CartSidebar.StepsMoveByOne | src/components/CartSidebar.tsx:102-109 | `+` asks for one more unit; `−` above one asks for one fewer |
| ProductCard.TruncateText | src/components/ProductCard.tsx:33-36 | short text is unchanged; longer text is the first `maxLength` characters with white space, and only white space, removed from both ends, followed by `...` |
| ProductCard.TrimmedWitness | src/components/ProductCard.tsx:35 | `trim` yields the visible part of a text: what it drops is white space and what it keeps has none at its ends |
| ProductCard.CutBetweenVisibleCharacters | src/components/ProductCard.tsx:35 | when the cut starts and ends on visible characters, the result is the first `maxLength` characters plus `...` |
| ProductCard.CardDescription | src/components/ProductCard.tsx:55 | cards cut descriptions at 80 characters, trimmed, plus `...`, so at most 83 are shown |
| Text.SplitJoin | src/utils/shopify.ts:17 | splitting a join of separator-free pieces gives the pieces back |
| Text.IntToStringRoundTrip | src/utils/shopify.ts:16 | the decimal text of a quantity parses back to it |
| Text.LastPiece | src/contexts/ProductContext.tsx:24 | `pop()` of a split: a separator-free suffix, preceded by the separator when shorter |
| Text.FirstPiece | src/contexts/AuthContext.tsx:75 | `split('@')[0]`: a separator-free prefix, followed by the separator when shorter |
| Text.TrimProperties | src/components/ProductCard.tsx:35 | `trim` leaves a slice of the text with no white space at either end and only white space before and after it, empty exactly for all-white-space text |
| Text.TrimStartSkipsSpace | src/components/ProductCard.tsx:35 | what the leading trim removes is white space |
| Text.TrimEndSkipsSpace | src/components/ProductCard.tsx:35 | what the trailing trim removes is white space |
| Text.PadStart | src/contexts/ProductContext.tsx:28 | the text, preceded by fill characters up to the width |
| Text.NatToStringRoundTrip | src/contexts/ProductContext.tsx:28 | the decimal text of a number reads back as the number |
| Text.IncludesIffOccurs | src/components/AuthModal.tsx:209 | `includes` holds exactly when the query occurs at some position |

## Findings

| source | as written | input that shows it | evidently intended | confidence | as-written member | corrected member |
|---|---|---|---|---|---|---|
| src/components/AuthModal.tsx:302 | six arguments go to the five-parameter `signup` (src/contexts/AuthContext.tsx:97-103), so `acceptsEmailMarketing` receives the full phone text and the checkbox value is dropped | signup with the marketing box ticked and an empty phone: the store receives `acceptsMarketing: false`; with phone `5550100` it receives the text `+915550100` where a boolean is expected | the checkbox value is passed as the marketing flag | high (not executed) | AuthForm.SignupArgsAsWritten, with AuthForm.AsWrittenTickedBoxIgnored and AuthForm.AsWrittenPhoneSentAsFlag | AuthForm.SignupArgs, with AuthForm.MarketingChoiceReachesStore; AuthForm.AuthPanel.HandleSubmit uses it |

## Left out

- `formatPrice` (src/utils/pricing.ts:26-34) works with floating-point remainders and locale formatting. Prices are exact rationals here.
- `parseFloat` of a variant price (src/contexts/ProductContext.tsx:33): the parsed amount is part of the catalog entry (`VariantNode.price`). Only the `125` default is modelled.
- The network itself, the request bodies, the GraphQL query texts, `response.json()` and the console logging of the gateway are left out. The answer is a parameter. The text `JSON.stringify` gives for a top-level `errors` array is carried as an opaque string.
- `addToCartAndRedirect`, and the `FormData`, `window.open` and `alert` parts of `redirectToShopifyCheckout`: they are browser side effects. Only the URL the redirect opens is modelled.
- The cart store (src/contexts/CartContext.tsx) is not part of this model. The drawer and the checkout are modelled up to the commands they send to it. Cart totals and item counts are not modelled.
- `testShopifyConnection`, the newsletter subscription and the product detail page are left out. They are diagnostics or routing, and call code that is not present.
- The built-in fallback product list (src/utils/constants.ts) lacks prices. It is a parameter of `Catalog.ProductStore`.
- The 168-entry country table of the sign-in panel is data. It is a parameter of `AuthForm.FilterCountries`.
- A stored text that parses to a value other than `null` or a user record (a number, say) is not modelled. A foreign entry fails to parse, yields `null`, or yields a user.
- Lower-casing covers ASCII letters only. Other letters keep their case.
- Error messages are exact only for errors this code raises. A "property of undefined" failure on a missing response field is represented by one fixed message, since its wording belongs to the JavaScript engine. The `'Failed to load products'` and `'An error occurred'` fallbacks cannot arise, because every error here is an `Error`.
- The loading flags between `await`s are set and then overwritten within each method. Only the settled state is stated.
- Overlapping requests and timers: the code does not coordinate them. `GuestCheckout.GuestCheckoutForm.HandleSubmit` requires that no order is in progress, which the disabled submit button guarantees. Real time is replaced by explicit timer firings.
- GuestCheckout.Submit: the browser's check that the email field holds an address (`type="email"`) is not modelled. Only the `required` fields are.
- ProductCard.TruncateText: lengths count Unicode characters, while JavaScript's `length` and `substring` count UTF-16 code units. Text outside the Basic Multilingual Plane is cut at a different place. The same holds for `Catalog.Notes`.
- The animation, cursor, scrolling and purely presentational components are left out. So are the dropdown toggle and the other field setters of the sign-in panel, which each replace a single field.
- Storefront.StorefrontApi.CustomerDetails and Storefront.StorefrontApi.FetchProducts: their contracts are those of `ClassifyProfile` and `ClassifyProducts` applied to the answer, and are stated there.
