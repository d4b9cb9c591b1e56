# Cart coupon and pricing model

A Dafny model of the logic of the shopping-cart page (`app/cart/page.tsx`):

- **Coupon catalog** (`coupon_catalog.dfy`, module `CouponCatalog`): the fixed
  map `availableCoupons` from code to discount rate (SAVE10 0.10, SAVE20 0.20,
  WELCOME 0.15, FREESHIP 0.05) and the JavaScript property read
  `availableCoupons[key]`, including the members every object literal inherits
  from `Object.prototype` and JavaScript truthiness of the value read.
- **String operations** (`js_string.dfy`, module `JsString`): `trim` over the
  exact ECMAScript whitespace and line-terminator set, and `toUpperCase`.
- **Pricing** (`cart_pricing.dfy`, module `CartPricing`): the subtotal fold
  over the item snapshot, discount amount, discounted subtotal, the fixed 10%
  tax and the total, and the header's item-count fold. Money is exact `real`.
- **Coupon state** (`coupon_state.dfy`, module `CouponState`): the four state
  values `couponCode`, `discount`, `appliedCoupon`, `couponError`, as the
  class `CartCoupon` whose methods update them in place the way
  `handleApplyCoupon`, `handleRemoveCoupon` and the text box's change handler
  do, and as the value `View` with one function per handler, which the
  methods are proved to follow. The invariant `Consistent` (no label exactly
  when no discount; a label is a catalog code whose rate is the discount) holds
  initially and after any sequence of handler calls.

Behaviour worth knowing, as the code has it and the model proves it:

- The lookup key is `couponCode.toUpperCase()` with no trimming, so
  `" save10 "` is rejected as invalid while `"save10"` applies SAVE10
  (`PaddedSave10Rejected`, `PaddedCodeRejected`). Trimming before the lookup
  would accept the padded text; the code does not trim, and the model follows the code.
- A blank submission keeps an already applied coupon and its discount and only
  sets the "Please enter a coupon code" error (`ApplyOutcome`). The model
  follows the code here too.
- An unknown code drops whatever coupon was applied before.
- These last two are behaviours of the handler. The page hides them, because
  it renders the text box and the Apply button only while `appliedCoupon` is
  empty (line 141). Under `Consistent` the discount is then 0, so there is
  nothing to keep or drop. The model still lets Apply run in any state (see
  the first line under "## Left out").
- Because the key is upper-cased, a lookup can never reach an inherited member
  such as `toString` (`UppercaseLookup`), so the truthiness test on line 40 is
  true exactly for the four catalog codes.

## Model

| member | source | states |
|---|---|---|
| `JsString.Trim` | app/cart/page.tsx:34 | `trim()`, defined as `TrimEnd` after `TrimStart`; no contract of its own, its properties are in the rows of `TrimStart`, `TrimEnd` and `TrimEmptyIffBlank` |
| `JsString.TrimStart` | app/cart/page.tsx:34 | the result is a suffix of the input, the removed prefix is all whitespace and the result does not start with whitespace |
| `JsString.TrimEnd` | app/cart/page.tsx:34 | the result is a prefix of the input, the removed suffix is all whitespace and the result does not end with whitespace |
| `JsString.TrimEmptyIffBlank` | app/cart/page.tsx:34 | `trim() === ""` holds exactly when every character is whitespace |
| `JsString.UpperChar` | app/cart/page.tsx:39 | a lower-case letter becomes its own capital (same offset from 'A' as from 'a'); the result is never lower case, is whitespace exactly when the input is, and equals any input that is not lower case |
| `JsString.ToUpper` | app/cart/page.tsx:39 | the key keeps the length and position of every character; no character of it is lower case, each is left alone by a second upper-casing, and each is whitespace exactly where the input's is |
| `JsString.ToUpperHasNoLower` | app/cart/page.tsx:39 | an upper-cased string contains no lower-case letter |
| `JsString.ToUpperIdempotent` | app/cart/page.tsx:42 | upper-casing the stored label again changes nothing |
| `JsString.ToUpperKeepsBlank` | app/cart/page.tsx:34-39 | a text is blank exactly when its upper-cased form is |
| `CouponCatalog.Lookup` | app/cart/page.tsx:39-40 | the read is truthy exactly for catalog codes and names inherited from `Object.prototype`; a number it yields is a rate strictly between 0 and 1 (the catalog code's rate) |
| `CouponCatalog.RatesInUnitInterval` | app/cart/page.tsx:15-20 | every catalog rate lies strictly between 0 and 1 |
| `CouponCatalog.CodeIsCanonical` | app/cart/page.tsx:15-20 | every catalog code is non-empty, upper case, and neither starts nor ends with whitespace |
| `CouponCatalog.PrototypeMembersHaveLower` | app/cart/page.tsx:39 | every inherited member name contains a lower-case letter |
| `CouponCatalog.UppercaseLookup` | app/cart/page.tsx:39-40 | an upper-cased key never reaches an inherited member; the read is truthy exactly when the key is a catalog code, and then yields its rate |
| `CartPricing.Subtotal` | app/cart/page.tsx:22-25 | the `reduce` over the items as a left fold; no contract of its own, its properties are in the rows of `SubtotalAppend`, `SubtotalPermutation`, `SubtotalNonNegative` and `SubtotalAtMostCapTimesCount` |
| `CartPricing.ItemCount` | app/cart/page.tsx:69 | the header's quantity fold; no contract of its own, its properties are in the rows of `ItemCountAtLeastLines` and `SubtotalAtMostCapTimesCount` |
| `CartPricing.Price` | app/cart/page.tsx:26-29 | the derivation of the five summary figures; no contract of its own, its properties are in the rows of `EmptyCartIsFree`, `PriceIdentities`, `PriceBounds`, `PricePermutation` and the two examples |
| `CartPricing.SubtotalAppend` | app/cart/page.tsx:22-25 | the subtotal of two concatenated item lists is the sum of their subtotals |
| `CartPricing.SubtotalPermutation` | app/cart/page.tsx:22-25 | reordering the items leaves the subtotal unchanged |
| `CartPricing.SubtotalNonNegative` | app/cart/page.tsx:22-25 | with no negative price or quantity the subtotal is not negative |
| `CartPricing.ItemCountAtLeastLines` | app/cart/page.tsx:69 | the header count is at least the number of lines when each quantity is at least 1 |
| `CartPricing.SubtotalAtMostCapTimesCount` | app/cart/page.tsx:22-25 | with prices in [0, cap] and non-negative quantities, 0 <= subtotal <= cap times the header item count (line 69) |
| `CartPricing.EmptyCartIsFree` | app/cart/page.tsx:22-29 | an empty cart gives subtotal, discount amount, discounted subtotal, tax and total all 0, whatever the discount |
| `CartPricing.PriceIdentities` | app/cart/page.tsx:26-29 | tax = 0.1 * (subtotal - discountAmount), total = subtotal * (1 - discount) * 1.1, total = discounted subtotal + tax |
| `CartPricing.PriceBounds` | app/cart/page.tsx:22-29 | with non-negative items and 0 <= discount < 1: 0 <= discountAmount <= subtotal, tax >= 0 and 0 <= total <= 1.1 * subtotal |
| `CartPricing.PricePermutation` | app/cart/page.tsx:22-29 | reordering the items leaves every figure of the summary unchanged |
| `CartPricing.WelcomeExample` | app/cart/page.tsx:22-29 | 2 x 20.00 + 1 x 5.00 at 15% gives 45, 6.75, 38.25, 3.825, 42.075 |
| `CartPricing.NoDiscountExample` | app/cart/page.tsx:22-29 | the same cart without a discount totals 49.50 |
| `CouponState.AfterEdit` | app/cart/page.tsx:156 | the change handler on values; no contract of its own, its properties are in the rows of `StepKeepsConsistent` and `CartCoupon.EditCode` |
| `CouponState.AfterApply` | app/cart/page.tsx:31-49 | `handleApplyCoupon` on values; no contract of its own, its properties are in the rows of `ApplyOutcome`, `ApplyCaseInsensitive`, `PaddedCodeRejected`, `Save10Accepted`, `StepKeepsConsistent` and `CartCoupon.ApplyCoupon` |
| `CouponState.AfterRemove` | app/cart/page.tsx:51-54 | `handleRemoveCoupon` on values; no contract of its own, its properties are in the rows of `RemoveIdempotent`, `StepKeepsConsistent` and `CartCoupon.RemoveCoupon` |
| `CouponState.ApplyOutcome` | app/cart/page.tsx:31-49 | blank text: only the "Please enter a coupon code" error changes; upper-cased text a catalog code: that rate, the upper-cased code as label, empty text and no error, whatever the state before; otherwise: discount 0, no label, "Invalid coupon code", text kept |
| `CouponState.ApplyCaseInsensitive` | app/cart/page.tsx:39-43 | texts with the same upper-cased form give the same discount, label and error, and the same whole state when the code is in the catalog |
| `CouponState.PaddedCodeRejected` | app/cart/page.tsx:34-48 | a non-blank text with whitespace at either end is always rejected as invalid, zeroing the discount and dropping the label |
| `CouponState.PaddedSave10Rejected` | app/cart/page.tsx:39-48 | `" save10 "` is rejected as invalid from any state |
| `CouponState.Save10Accepted` | app/cart/page.tsx:39-43 | any text that upper-cases to SAVE10 applies rate 0.1 with label SAVE10 from any state |
| `CouponState.Save10Spellings` | app/cart/page.tsx:39 | "save10", "Save10" and "SAVE10" all upper-case to SAVE10 |
| `CouponState.RemoveIdempotent` | app/cart/page.tsx:51-54 | removing sets discount 0 and no label, keeps text and error, is idempotent, and always yields a consistent state |
| `CouponState.StepKeepsConsistent` | app/cart/page.tsx:31-54 | editing, applying and removing each keep the coupon invariant |
| `CouponState.RunKeepsConsistent` | app/cart/page.tsx:10-54 | any sequence of edits, applies and removes keeps the coupon invariant |
| `CouponState.ConsistentDiscountInRange` | app/cart/page.tsx:11-20 | under the invariant the discount lies in [0, 1) |
| `CouponState.ReachablePriceBounds` | app/cart/page.tsx:22-29 | in every state reachable from the initial one, a cart with no negative price or quantity gets 0 <= discountAmount <= subtotal and 0 <= total <= 1.1 * subtotal |
| `CouponState.WelcomeRun` | app/cart/page.tsx:31-43 | typing WELCOME and applying gives discount 0.15, label WELCOME, empty text, no error |
| `CouponState.BogusRun` | app/cart/page.tsx:31-48 | typing BOGUS and applying gives discount 0, no label, "Invalid coupon code", text kept |
| `CouponState.CartScenarios` | app/cart/page.tsx:22-48 | the 45.00 cart totals 42.075 after WELCOME is applied and 49.50 after BOGUS is tried |
| `CouponState.CartCoupon.constructor` | app/cart/page.tsx:10-13 | the page starts with empty text, discount 0, no label and no error, which satisfies the invariant |
| `CouponState.CartCoupon.EditCode` | app/cart/page.tsx:156 | typing replaces the text and nothing else, keeping the invariant |
| `CouponState.CartCoupon.ApplyCoupon` | app/cart/page.tsx:31-49 | the in-place handler keeps the invariant, ends in the state `AfterApply` gives, and meets the three outcomes of `ApplyOutcome` on its fields |
| `CouponState.CartCoupon.RemoveCoupon` | app/cart/page.tsx:51-54 | the in-place handler zeroes the discount and the label, leaves text and error alone, and keeps the invariant |

## Left out

- Rendering (the JSX, the empty-cart and applied-badge branches, CSS classes): presentation only. In particular the page shows the Apply button only while no coupon is applied (line 141); the model lets Apply be called in any state, which covers more cases than the page allows.
- Router navigation (`router.push`): framework I/O.
- The cart store (`useCartStore`, `removeFromCart`, `updateQty`): its source is not part of this model; the item list is an input snapshot, and only `price` and `quantity` of an item are modelled (`id`, `title`, `image` are display data).
- `toFixed(2)` and the `discount * 100` percentage label: string formatting of the computed figures.
- JavaScript's binary floating point: money and rates are exact reals, so e.g. 0.1 is exactly one tenth.
- React's `useState` setters and re-rendering: each handler reads only the values of the render it was created in, so applying its setter calls one after another, as the class methods do, gives the same final state as React's batched update.
- Full Unicode `toUpperCase`: only ASCII letters are upper-cased; characters that change under full Unicode case mapping are left as they are. This changes the apply outcome for some inputs: under full Unicode case mapping `"ſave10"` (U+017F, long s) upper-cases to SAVE10 and `"freeshıp"` (U+0131, dotless i) to FREESHIP, so the page applies those coupons, while the model rejects both texts with "Invalid coupon code" (the third case of `ApplyOutcome`). `trim`'s whitespace set is the full ECMAScript one.

