# LaraCart cart, modelled in Dafny

This models `LaraCart\Cart` (src/Cart.php), a session-backed shopping cart for
Laravel. The cart keeps three keyed collections: line items, coupons and other
charges. Callers add, update and remove entries through validating methods.
`total` folds the collections into a figure due, or into the whole breakdown.

The model has six modules:

- `Collections`: the insertion-ordered keyed collection the cart stores. It has
  `put`, `forget`, `count`, and the values in order.
- `Patterns`: the three regular expressions. Each is given twice, once as the
  language it denotes and once as a scanner, with iff lemmas between the two.
  None of them is anchored at the end.
- `Numbers`: how percentage strings and amount strings become numbers
  (`rtrim`, the leading decimal number, `getPercentageValue`), in exact reals.
- `Records`: the records, the caller-side arrays (a key that is not set is
  `None`), the errors, and the three `validate*Data` methods. Each of these
  returns `Ok` with the record, or `Err` with the error the source throws.
- `Totals`: the `sum` folds, the name-keyed other charges, and the totals
  arithmetic (`Pipeline`). `Summarize` is the whole of `total` as a function.
- `ShoppingCart`: class `Cart` with one field per session collection. Every
  public operation is a method that says exactly what it does to the three
  fields. Methods that throw in the source return `Failed(error)` and leave
  the fields as they were.

Choices made in the model:

- With no quantity, `remove` stores the collection without the item. The
  source deletes from the collection object held in the session and never
  writes it back. Because that object is shared with the session, the
  deletion is visible either way (src/Cart.php:94-96).
- The source's `update` cannot succeed. The model keeps that behaviour as
  `UpdateAsWritten`, and the corrected `Update` is what the rest of the model
  uses (see Findings).
- `Cart.Valid()` is the invariant every operation keeps:
  - each collection is well formed;
  - each entry is stored under its own id;
  - every stored record has passed validation.

## Model

| member | source | states |
|---|---|---|
| Collections.Collection.Put | src/Cart.php:28-35 | `put` stores the value under the key; an existing key keeps its position, a new key goes last; the collection stays well formed |
| Collections.Collection.Forget | src/Cart.php:85-96 | `forget` drops exactly that key and keeps the other keys in order; an absent key changes nothing |
| Collections.Collection.Count | src/Cart.php:135-138 | the count is the number of distinct keys |
| Collections.Collection.Values | src/Cart.php:130-133 | the values come out in insertion order, one per key |
| Collections.Empty | src/Cart.php:228-241 | `collect()` is the well-formed collection with no keys and no entries |
| Collections.ForgetUndoesPut | src/Cart.php:22-97 | removing an item that was just added under a new id gives back the collection as it was |
| Collections.PutCount | src/Cart.php:135-138 | putting a new key adds one to the count; overwriting leaves it |
| Collections.ForgetCount | src/Cart.php:135-138 | forgetting a present key takes one from the count; an absent key leaves it |
| Patterns.ValidateTaxPercentage | src/Cart.php:334-337 | accepts exactly the strings with a prefix in the language of `[0-9]*\.{0,1}\d{1,2}\%` |
| Patterns.ValidateDiscountPercentage | src/Cart.php:339-342 | accepts exactly the strings that start with '-' followed by a prefix in the tax language |
| Patterns.ValidateNumericValue | src/Cart.php:344-347 | accepts exactly the strings with a prefix in the language of `[0-9]*\.{0,1}\d{1,2}` |
| Patterns.TaxPatternUnanchored | src/Cart.php:336 | anything may follow an accepted tax string |
| Patterns.DiscountPatternUnanchored | src/Cart.php:341 | anything may follow an accepted discount string |
| Patterns.NumericPatternUnanchored | src/Cart.php:346 | anything may follow an accepted amount |
| Patterns.TaxPatternStart | src/Cart.php:334-337 | an accepted tax starts with a digit or '.', and has a '%' right after a digit |
| Patterns.PatternExamples | src/Cart.php:277-319 | the examples named in the error messages ("5.27%", "-15.50%", "15.00") pass; "12.345%", "5", "15%" as a discount and "abc" fail; "5%off" passes |
| Numbers.TrimPercent | src/Cart.php:329 | `rtrim(v, "%")` leaves a prefix of v that does not end in '%', and only '%' signs were removed |
| Numbers.LeadingNumber | src/Cart.php:331 | PHP's reading of a numeric string (also used by `array_sum` at lines 181 and 188) is at most 0 for a string led by '-' and at least 0 otherwise |
| Numbers.LeadingDecimal | src/Cart.php:331 | digits a, '.', digits c read as the number a.c |
| Numbers.LeadingWhole | src/Cart.php:331 | digits a alone read as the whole number a |
| Numbers.AmountNonNegative | src/Cart.php:344-347 | every other-charge amount the numeric check accepts reads as a number of at least 0 |
| Numbers.LeadingNumberNonNegative | src/Cart.php:331 | a string that starts with a digit or '.' reads as a non-negative number |
| Numbers.PercentageOfDecimal | src/Cart.php:327-332 | `getPercentageValue` (Numbers.PercentageValue) of "a.c%" with any number of trailing '%' is the number a.c divided by 100 |
| Numbers.PercentageForms | src/Cart.php:327-332 | `getPercentageValue` (Numbers.PercentageValue) of each accepted form ending in its '%' signs, "a%", "a.c%", "-a%" and "-a.c%", is the signed number before the signs divided by 100 |
| Numbers.PercentageOfWhole | src/Cart.php:327-332 | "a%" with any number of trailing '%' is the whole number a divided by 100 |
| Numbers.NegativePercentageOfWhole | src/Cart.php:327-332 | "-a%" with any number of trailing '%' is minus a divided by 100 |
| Numbers.NegativePercentageOfDecimal | src/Cart.php:327-332 | "-a.c%" with any number of trailing '%' is minus a.c divided by 100 |
| Numbers.PercentageExamples | src/Cart.php:327-332 | "0%" is exactly 0, "-15.5%" is -0.155, "10%" is 0.1, "-10%" is -0.1, "-5%" is -0.05 |
| Numbers.TaxFractionNonNegative | src/Cart.php:327-337 | every tax the validator accepts gives a fraction of at least 0 |
| Numbers.DiscountFractionNonPositive | src/Cart.php:327-342 | every discount the validator accepts gives a fraction of at most 0 |
| Records.ValidateItemData | src/Cart.php:273-299 | Ok exactly when id, name, quantity and price are set and a set tax or discount passes its check; a missing tax or discount becomes "0%"; the other fields are kept; missing fields are reported first, then a bad tax, then a bad discount |
| Records.ValidateCouponData | src/Cart.php:301-312 | Ok exactly when id, name, code and discount are set and the discount passes its check; the record is kept as given; missing fields are reported before a bad discount |
| Records.ValidateOtherChargeData | src/Cart.php:314-325 | Ok exactly when id, name and amount are set and the amount passes the numeric check; the record is kept as given; missing fields are reported before a bad amount |
| Totals.ChargesByName | src/Cart.php:199-208 | the name-to-amount array is a well-formed collection |
| Totals.ChargesByNameHas | src/Cart.php:199-208 | a name is in the array exactly when some other charge has that name |
| Totals.ChargesByNameLastWins | src/Cart.php:199-208 | the amount stored for a name is that of the last charge with the name |
| Totals.SumAppend | src/Cart.php:142-152 | the `sum` fold (Totals.Sum) accumulates in order: one more value adds exactly its term |
| Totals.ChargesByNameKeys | src/Cart.php:199-208 | the array's keys are exactly the set of charge names, and its count is the number of distinct names |
| Totals.CouponRate | src/Cart.php:162-167 | there is a coupon rate exactly when the cart holds coupons |
| Totals.PipelineClosedForm | src/Cart.php:154-191 | the meaning of `Totals.Pipeline`, the arithmetic of `total`: `subTotal` is amount·(1+d) and `totalDue` is amount·(1+d)·(1+c)·(1+t) plus the other charges, with c = 0 when there are no coupons; the coupon part is present exactly when there are coupons |
| Totals.DiscountRateNonPositive | src/Cart.php:146-148 | the summed item discounts of validated items are at most 0 |
| Totals.TaxRateNonNegative | src/Cart.php:150-152 | the summed item taxes of validated items are at least 0 |
| Totals.CouponRateNonPositive | src/Cart.php:164-166 | the summed coupon discounts of validated coupons are at most 0 |
| Totals.PipelineDiscountsOnlyLower | src/Cart.php:154-185 | for a non-negative amount, non-positive discounts and a non-negative tax: the discount is at most 0 and the subtotal at most the amount; without coupons, the tax on a non-negative subtotal is at least 0; with coupons, the coupon discount on a non-negative subtotal is at most 0, the total is at most the subtotal, and the tax on a non-negative total is at least 0 |
| Totals.DiscountsOnlyLower | src/Cart.php:140-191 | the same holds for `Totals.Summarize`, the whole of `total`, applied to validated records with a non-negative amount |
| Totals.EmptyCartDue | src/Cart.php:140-191 | an empty cart is due exactly the sum of its other charges |
| Totals.WidgetTotal | src/Cart.php:140-197 | 2 items at 10.0 with tax "10%" and discount "-10%" give amount 20, discount -2, subtotal 18, taxes 1.8 and 19.8 due |
| Totals.WidgetWithCouponTotal | src/Cart.php:162-185 | the same cart with a "-5%" coupon gives coupon discount -0.9, total 17.1, taxes 1.71 and 18.81 due |
| ShoppingCart.StoredDiscountsLower | src/Cart.php:140-191 | since every stored record passed validation, the breakdown of a cart with a non-negative amount keeps the discount bounds |
| ShoppingCart.Cart.constructor | src/Cart.php:210-226 | each collection the session already holds is kept, each one it lacks starts empty, and the invariant holds |
| ShoppingCart.Cart.Add | src/Cart.php:22-37 | a validation error changes nothing; an existing id gets its quantity raised by the new quantity with name, price, tax and discount kept; a new id is appended as the validated record; no other entry changes |
| ShoppingCart.Cart.AddCoupon | src/Cart.php:39-46 | a validation error changes nothing; otherwise the coupon is stored under its id, overwriting any coupon there |
| ShoppingCart.Cart.AddOtherCharge | src/Cart.php:48-55 | a validation error changes nothing; otherwise the charge is stored under its id, overwriting any charge there |
| ShoppingCart.Cart.Update | src/Cart.php:57-67 | as intended: a validation error or an absent id changes nothing and fails; otherwise the validated record replaces the stored one in place |
| ShoppingCart.Cart.UpdateAsWritten | src/Cart.php:57-67 | as written: after validation the call always fails |
| ShoppingCart.Cart.Remove | src/Cart.php:69-97 | an absent id fails; without a quantity the entry is deleted; a larger stored quantity is lowered in place; an equal one deletes the entry; a smaller one fails and changes nothing |
| ShoppingCart.Cart.RemoveCoupon | src/Cart.php:99-109 | an absent id fails and changes nothing; otherwise exactly that coupon is deleted |
| ShoppingCart.Cart.RemoveOtherCharge | src/Cart.php:111-121 | an absent id fails and changes nothing; otherwise exactly that charge is deleted |
| ShoppingCart.Cart.Clear | src/Cart.php:123-128 | all three collections become empty |
| ShoppingCart.Cart.All | src/Cart.php:130-133 | the stored items, one per id, in insertion order, where an id added again after its removal comes last |
| ShoppingCart.Cart.Count | src/Cart.php:135-138 | the number of distinct item ids, whatever `distinct` is |
| ShoppingCart.Cart.SetOtherCharges | src/Cart.php:199-208 | the loop builds the name-to-amount array over the charges in order, which is `Totals.ChargesByName` |
| ShoppingCart.Cart.Total | src/Cart.php:140-197 | the result is the breakdown `Totals.Summarize` gives for the stored items, coupons and charges; its `totalDue` when `summarized` is false; with a non-negative amount the discounts never raise a figure |
| ShoppingCart.Cart.Steps | src/Cart.php:154-191 | filling the summary step by step gives the breakdown `Totals.Pipeline` describes |
| ShoppingCart.WidgetCheckout | src/Cart.php:22-197 | after `add` of two Widgets at 10.0 with tax "10%" and discount "-10%", `total` is 19.8; with a "-5%" coupon added too, it is 18.81 |
| ShoppingCart.AddKeepsQuantities | src/Cart.php:22-37 | `add` of a quantity of at least 0 keeps every stored quantity at least 0 |
| ShoppingCart.UpdateKeepsQuantities | src/Cart.php:57-67 | the intended `update` (ShoppingCart.Cart.Update) with a quantity of at least 0 keeps every stored quantity at least 0 |
| ShoppingCart.RemoveKeepsQuantities | src/Cart.php:69-97 | `remove` never takes a stored quantity below 0, whatever quantity it is given: it subtracts only from a larger stored quantity |
| ShoppingCart.NegativeAdd | src/Cart.php:22-37 | the quantity's sign is never checked: `add` of -5 to a stored 2 succeeds and leaves -3 |
| ShoppingCart.UpdateDiscrepancy | src/Cart.php:57-67 | on a cart holding item "1", the intended update of that item succeeds and the update as written fails |

## Left out

- Session storage and configuration. The session keys are built from `config('session.cookie')` (src/Cart.php:14-19, 228-271). The session itself becomes the three fields of `Cart`, and the constructor takes what the session already holds.
- PHP floating point: prices, percentages and sums are exact reals, so rounding is not modelled.
- Loose string-to-number coercion: the model reads an optional '-', digits, and an optional '.' with digits. Leading whitespace, '+', exponents and hexadecimal forms are not read. `$percentageValue == 0` is modelled as equality of that number with 0.
- Numbers.PercentageValue: its result is stated by lemmas for the accepted forms "a%", "a.c%", "-a%" and "-a.c%" when the string ends in its '%' signs. An accepted string with other text after the sign (such as "5%off") is covered only by Numbers.TaxFractionNonNegative and Numbers.DiscountFractionNonPositive, which bound its sign, not by an exact value.
- Quantity sign: the source checks a quantity only with `isset` (src/Cart.php:275) and applies `+=` to it (src/Cart.php:31). So `add` with a negative quantity stores it, or lowers a stored quantity, possibly below 0. The model stores such quantities as the source does, so no invariant of the cart keeps quantities at least 0. ShoppingCart.AddKeepsQuantities, ShoppingCart.UpdateKeepsQuantities and ShoppingCart.RemoveKeepsQuantities prove the part that does hold. ShoppingCart.NegativeAdd shows the rest.
- Item quantities are integers and prices are reals. The source accepts any value `isset` accepts, of any PHP type.
- Records keep only the fields the cart reads. Extra array keys that `(object)$itemData` would carry along are dropped.
- The `summarized` breakdown holds the other charges as a separate field. `array_merge` in the source lets an other-charge name equal to a summary key (such as `amount`) overwrite that figure (src/Cart.php:182, 189). The figures read after the merge change too: a charge named `taxes` (both branches, src/Cart.php:184, 190), `total` (coupon branch, src/Cart.php:184) or `subTotal` (no-coupon branch, src/Cart.php:190) also changes `totalDue`, which `total(false)` returns. That collision is not modelled.
- Object aliasing: stored records are values. The source mutates `$item->quantity` on the object held by the session collection, and only the stored result is modelled.
- Remove without a quantity stores the collection without the item (see above), instead of relying on the shared session object.
- src/CartServiceProvider.php, src/Facades/Cart.php and src/CartInterface.php are not part of this model. They hold framework wiring and method signatures only.
- Concurrent requests sharing one session are not modelled.

## Findings

| source | as written | input that shows it | evidently intended | confidence | as-written member | corrected member |
|---|---|---|---|---|---|---|
| src/Cart.php:61-64 | `update` calls `$cartItems->has(...)` before `$cartItems` is assigned, so every call that passes validation fails | a cart holding item "1" and `update` with id "1", name "Widget", quantity 2, price 10.0 | fetch the stored items first; fail only when the id is absent; otherwise replace the stored record | not executed | ShoppingCart.Cart.UpdateAsWritten, ShoppingCart.UpdateDiscrepancy | ShoppingCart.Cart.Update |
