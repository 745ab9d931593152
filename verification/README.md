# Checkout engine of the BajuNow storefront, in Dafny

This project models the checkout page of the storefront
(`app/user/cart/payment/payment-client.tsx`). That page holds the one piece of
real logic in the repository:

- card brand detection, plus a strict card-number validator;
- the live card-number formatter;
- the expiry input mask, plus the expiry and CVV validators;
- the order summary (subtotal, tax, shipping and one coupon);
- the submit/result flow of the Pay button.

Everything is a pure function over `string` (`seq<char>`), exact `real`
amounts and immutable datatypes. The page's React state becomes a reducer,
`Checkout.Step`, over a `State` value.

Modules, one per component:

| module | file | what |
|---|---|---|
| `Options` | options.dfy | `Option`, standing for the page's `null` |
| `JsText` | jstext.dfy | ECMAScript `\s`, `\d`, `\D`, `replace(/\s/g, "")`, `replace(/\D/g, "")`, `trim()` |
| `Cards` | cards.dfy | `detectCardType`, `validateCardNumber`, `validateCVV` |
| `CardFormat` | cardformat.dfy | `handleCardNumberChange` (4-6-5 / 4-4-4-4 grouping) |
| `Expiry` | expiry.dfy | expiry input mask, `validateDate` |
| `Pricing` | pricing.dfy | subtotal, tax, shipping, coupon lookup and totals |
| `Checkout` | checkout.dfy | `handlePayment`, `processOrder`, Try Again, the form handlers |

`handlePayment` is split at its `await`, into two events:

- **`PayPressed`** is the synchronous start. The errors are cleared and
  processing starts. The form values that the handler's closure sees are
  recorded in `pending`.
- **`PaymentDue(year, month, placed)`** is the rest, after the simulated
  delay. The recorded values are validated; PayPal skips this step. When no
  check fails, `createOrder` is called. The event carries the current
  two-digit year and month, and the outcome of `createOrder`.

Each `createOrder` call is appended to `State.orders`, so "no order is
created" means that list is unchanged. `isProcessing` is `pending` being
present or `stalled` being set; the latter records a rejected `createOrder`
promise, after which the page stays processing.

Events are gated by what the page renders:

- While a result is shown, the form is gone, and only Try Again (on the
  failure page) does anything.
- The card fields exist only with the card method.
- Pay is disabled while processing.

## Model

| member | source | states |
|---|---|---|
| `JsText.IsBlank` | app/user/cart/payment/payment-client.tsx:195 | `!name.trim()`: a name is blank exactly when removing every `\s` character leaves nothing |
| `JsText.StripSpaces` | app/user/cart/payment/payment-client.tsx:64 | `replace(/\s/g, "")` (also lines 72 and 104): the result has no whitespace and is no longer than the input; a single character is dropped exactly when it is whitespace |
| `JsText.StripSpacesAppend` | app/user/cart/payment/payment-client.tsx:64 | whitespace removal works character by character: on joined texts it is the join of the results, so with the single-character case it keeps exactly the non-whitespace characters in order |
| `JsText.KeepDigits` | app/user/cart/payment/payment-client.tsx:113 | `replace(/\D/g, "")` (also line 445): the result is all ASCII digits and no longer than the input; a single character is kept exactly when it is a digit |
| `JsText.KeepDigitsAppend` | app/user/cart/payment/payment-client.tsx:113 | digit keeping works character by character: on joined texts it is the join of the results, so with the single-character case it keeps exactly the digits in order |
| `JsText.DigitsNoOp` | app/user/cart/payment/payment-client.tsx:113 | text made only of digits is left unchanged by both `replace` calls |
| `Cards.DetectCardType` | app/user/cart/payment/payment-client.tsx:63-69 | after removing whitespace: visa iff the first character is '4'; mastercard iff it starts "51" to "55"; amex iff it starts "34" or "37"; no brand iff none of these, whatever the length |
| `Cards.DetectLooksAtTwoCharacters` | app/user/cart/payment/payment-client.tsx:63-69 | the detected brand depends only on the first two characters that are left once whitespace is removed |
| `Cards.ValidateCardNumber` | app/user/cart/payment/payment-client.tsx:71-86 | names brand b exactly when the text without whitespace is all digits, has b's prefix and has one of b's lengths (visa 13 or 16, mastercard 16, amex 15) |
| `Cards.StrictRefinesDetect` | app/user/cart/payment/payment-client.tsx:63-86 | whenever the strict validator names a brand, `detectCardType` names the same one; the strict validator accepts exactly when the loose brand exists, the text is all digits and that brand's length fits |
| `Cards.ValidateCvv` | app/user/cart/payment/payment-client.tsx:103-109 | accepted iff the code without whitespace is all digits, with exactly 4 of them for amex and exactly 3 for any other brand or none |
| `Cards.CvvBrandClasses` | app/user/cart/payment/payment-client.tsx:103-109 | an undetected brand gets the same 3-digit rule as visa and mastercard, and no code satisfies both the amex rule and that one |
| `Cards.SampleVisa` | app/user/cart/payment/payment-client.tsx:76 | "4111111111111111" is a valid visa number |
| `Cards.SampleShortVisa` | app/user/cart/payment/payment-client.tsx:76 | "411111111111" (12 digits) is refused |
| `Cards.SampleMastercard` | app/user/cart/payment/payment-client.tsx:77 | "5500005555555559" is a valid mastercard number |
| `Cards.SampleAmex` | app/user/cart/payment/payment-client.tsx:78 | "340000000000009" is a valid amex number |
| `Cards.SampleUnknownPrefix` | app/user/cart/payment/payment-client.tsx:81-85 | "6011000000000004" has no known prefix and is refused |
| `Cards.SampleCvvs` | app/user/cart/payment/payment-client.tsx:103-109 | "123" passes for mastercard and fails for amex; "1234" passes for amex |
| `CardFormat.FormatCardNumber` | app/user/cart/payment/payment-client.tsx:111-137 | the text the number field holds after a change: the typed digits cut to the brand's maximum and grouped; at most 19 characters, at most 17 for amex |
| `CardFormat.QuadGroupsLoop` | app/user/cart/payment/payment-client.tsx:130-135 | the page's step-4 loop produces exactly the 4-4-4-4 grouping (runs of four joined by single spaces) |
| `CardFormat.QuadGroupsShape` | app/user/cart/payment/payment-client.tsx:130-135 | in the 4-4-4-4 grouping, position k holds a space iff k mod 5 = 4, and otherwise holds digit k - k/5 |
| `CardFormat.AmexGroupsShape` | app/user/cart/payment/payment-client.tsx:124-128 | in the 4-6-5 grouping, positions 4 and 11 hold the separators, and the other positions hold the digits in order |
| `CardFormat.QuadGroupsDigits` | app/user/cart/payment/payment-client.tsx:130-135 | removing the spaces from the 4-4-4-4 grouping gives the digits back |
| `CardFormat.AmexGroupsDigits` | app/user/cart/payment/payment-client.tsx:124-128 | removing the spaces from the 4-6-5 grouping gives the digits back |
| `CardFormat.CardDigitsKeepBrand` | app/user/cart/payment/payment-client.tsx:115-120 | cutting the digits to 15 (amex) or 16 never changes the detected brand, and the kept digits fit that maximum |
| `CardFormat.FormatRoundTrip` | app/user/cart/payment/payment-client.tsx:111-135 | removing the spaces (or keeping the digits) of the formatted field gives exactly d; d is the typed digits cut to min(count, 15 for amex, 16 otherwise) |
| `CardFormat.FormatGroups` | app/user/cart/payment/payment-client.tsx:122-135 | the formatted field has spaces exactly at the 4-6-5 (amex) or 4-4-4-4 group boundaries, its length is the digits plus the separators, and the digits between the spaces are d in order |
| `CardFormat.FormatKeepsBrand` | app/user/cart/payment/payment-client.tsx:115-144 | detecting the brand on the formatted text, as the effect on the number does, gives the brand the change handler set |
| `CardFormat.FormatIdempotent` | app/user/cart/payment/payment-client.tsx:111-137 | formatting the formatted field again changes nothing |
| `CardFormat.CardNumberChange` | app/user/cart/payment/payment-client.tsx:111-139 | the handler yields the formatted text and the brand; that brand is the one detected on the formatted text, and the formatted text without spaces is d |
| `Expiry.MaskExpiry` | app/user/cart/payment/payment-client.tsx:444-450 | the expiry field's change handler: with n typed digits the text is min(n, 4) digits long, plus one for the slash when n >= 2, so never longer than 5 |
| `Expiry.MaskExpiryShape` | app/user/cart/payment/payment-client.tsx:444-450 | with n typed digits, the masked text's digits are the first min(n, 4) of them; a '/' appears iff n >= 2, and then only at index 2; with n >= 4 the text has the `^\d{2}\/\d{2}$` shape |
| `Expiry.MaskExpiryIdempotent` | app/user/cart/payment/payment-client.tsx:444-450 | masking already-masked text changes nothing |
| `Expiry.ValidateDate` | app/user/cart/payment/payment-client.tsx:88-101 | true iff the text has the DD/DD shape, the month is in 1..12, and (year, month) is not before (current year, current month) |
| `Expiry.CurrentMonthAccepted` | app/user/cart/payment/payment-client.tsx:93-100 | an expiry in the current month and year is accepted |
| `Expiry.ValidateDateMonotone` | app/user/cart/payment/payment-client.tsx:97-100 | any valid month that is not before an accepted expiry is accepted too |
| `Expiry.ValidateDateEarlierNow` | app/user/cart/payment/payment-client.tsx:93-100 | an expiry accepted now would also have been accepted at any earlier current date |
| `Expiry.SampleMonthThirteen` | app/user/cart/payment/payment-client.tsx:91 | "13/25" is refused whatever the date |
| `Expiry.SampleExpired` | app/user/cart/payment/payment-client.tsx:97-98 | "01/20" is refused from February 2020 on |
| `Pricing.SumLines` | app/user/cart/payment/payment-client.tsx:146 | the page's left-to-right `reduce` over the cart equals the sum of price times quantity |
| `Pricing.SubtotalAppend` | app/user/cart/payment/payment-client.tsx:146 | the subtotal of two carts joined is the sum of their subtotals |
| `Pricing.Subtotal` | app/user/cart/payment/payment-client.tsx:146 | the subtotal is the sum of price times quantity over the cart, and it is non-negative when no price or quantity is negative |
| `Pricing.BaseShipping` | app/user/cart/payment/payment-client.tsx:148 | base shipping is 0 iff the subtotal is strictly over 50, and 9.99 otherwise |
| `Pricing.AppliedCoupon` | app/user/cart/payment/payment-client.tsx:153 | a coupon is applied iff some entry's code equals, exactly, the selected or the typed code; the applied one is the first such entry |
| `Pricing.ComputeTotals` | app/user/cart/payment/payment-client.tsx:146-165 | tax is 8% of the subtotal whatever the coupon. Percentage gives discount subtotal·v/100, fixed gives discount v (no cap), shipping gives discount 0 and shipping 0. No coupon gives discount 0 and base shipping. total = subtotal - discount + tax + shipping |
| `Pricing.CheckoutTotals` | app/user/cart/payment/payment-client.tsx:146-165 | the totals for a cart, a catalog and the two coupon inputs: tax is 8% of the subtotal and the total adds up; when no catalog code equals either input, the discount is 0 and shipping is the base rate; when the first matching entry is a shipping coupon, shipping is 0 |
| `Pricing.CouponSaving` | app/user/cart/payment/payment-client.tsx:150-165 | every coupon lowers the coupon-free total by exactly its saving (subtotal·v/100, v, or the base shipping) and leaves subtotal and tax unchanged |
| `Pricing.FreeShippingExactly` | app/user/cart/payment/payment-client.tsx:148-162 | shipping is 0 iff the subtotal is over 50 or a shipping coupon applies |
| `Pricing.PickedCouponApplies` | app/user/cart/payment/payment-client.tsx:153 | when no catalog code is empty, picking or typing a code alone applies the first entry carrying that code |
| `Pricing.SampleTotals` | app/user/cart/payment/payment-client.tsx:146-165 | cart 30×2 + 40×1 gives 100 / 0 / 8 / 0 / 108, and 98 with a 10% coupon; a 20 cart with a shipping coupon totals 21.60 |
| `Pricing.FixedDiscountUncapped` | app/user/cart/payment/payment-client.tsx:158-165 | a fixed coupon larger than the subtotal makes the total negative |
| `Checkout.CardErrors` | app/user/cart/payment/payment-client.tsx:180-197 | the error map has `number` iff no brand was detected; `expiry` iff `validateDate` fails; `cvc` iff `validateCVV` fails for the detected brand; `name` iff the name is blank after trim; each key carries its message |
| `Checkout.Edit` | app/user/cart/payment/payment-client.tsx:111-139 | the form's change handlers (number 111-139, coupons 314-317 and 349-352, method 381, expiry 444-450, CVV 462, name 475). With the card method: the number field gets the formatted text, whose spaces removed give the kept digits, and the brand detected on it; the expiry field gets the masked text; CVV and name get the typed text. Picking or typing a coupon fills that input and empties the other. Each field changes only through its own handler, and with PayPal the card fields stay as they were |
| `Checkout.PlaceOrder` | app/user/cart/payment/payment-client.tsx:208-228 | `processOrder`: one `createOrder` call is appended, with the page's cart, the form's total and discount, and its method; success or an error result sets the page's result and ends the payment; a rejected promise sets no result and leaves the page processing |
| `Checkout.Settle` | app/user/cart/payment/payment-client.tsx:174-205 | the rest of `handlePayment` after the delay: the payment is no longer in flight and the form is untouched; one order is placed iff PayPal is used or every card check passes; otherwise the errors are exactly the failed checks and the result is unchanged |
| `Checkout.Step` | app/user/cart/payment/payment-client.tsx:167-259 | one page event: orders are only ever appended; a page left processing by a rejected call stays so; while a result is shown only the result can change; the result changes only by Try Again on the failure page or by a payment in flight completing; the form changes only through its handlers |
| `Checkout.EditKeepsFormOk` | app/user/cart/payment/payment-client.tsx:111-144 | every form handler keeps the form consistent: the number field is left unchanged by its own formatter and the expiry by its own mask, the brand equals detection on the number field, and at most one of the two coupon inputs is filled |
| `Checkout.StepKeepsInv` | app/user/cart/payment/payment-client.tsx:167-228 | every event keeps the page invariant: the form is consistent; while processing (a payment in flight, or stalled after a rejected `createOrder`) the errors are empty and no result is shown; a payment in flight works on a consistent recorded form |
| `Checkout.RunKeepsInv` | app/user/cart/payment/payment-client.tsx:167-228 | any sequence of events keeps the page invariant |
| `Checkout.ReachableOk` | app/user/cart/payment/payment-client.tsx:48-60 | every state reachable from the initial one satisfies the invariant |
| `Checkout.PayStartsProcessing` | app/user/cart/payment/payment-client.tsx:167-169 | Pay clears the errors and starts processing on the current form; while processing (line 556 disables the button), Pay does nothing |
| `Checkout.InvalidCardStops` | app/user/cart/payment/payment-client.tsx:199-203 | with the card method and a non-empty error map, the errors are that map, processing stops, no order is created, and the result and the form stay unchanged |
| `Checkout.ValidPaymentPlacesOrder` | app/user/cart/payment/payment-client.tsx:174-228 | PayPal, or the card method with no errors, creates exactly one order: its items are the page's `cartItems`, and its total, discount and method come from the form recorded at Pay; a resolved call sets the result to success or failed and stops processing; a rejected promise leaves no result and the page processing |
| `Checkout.StalledStaysStuck` | app/user/cart/payment/payment-client.tsx:208-227 | after a rejected `createOrder` promise, whatever events follow, the page stays processing with Pay disabled, never shows a result and creates no further order |
| `Checkout.OrderCreatedExactly` | app/user/cart/payment/payment-client.tsx:167-228 | an event appends an order iff a payment is due and either PayPal is used or every card check passes; no event appends more than one, or alters earlier ones |
| `Checkout.SuccessIsFinal` | app/user/cart/payment/payment-client.tsx:230-247 | after success, no event changes the state |
| `Checkout.TryAgainResets` | app/user/cart/payment/payment-client.tsx:259 | Try Again on the failure page clears the result and keeps everything else |
| `Checkout.CouponInputsExclusive` | app/user/cart/payment/payment-client.tsx:314-352 | picking a coupon clears the typed code, and typing one clears the pick; in both cases the applied coupon is the first one carrying that code |
| `Checkout.LooseNumberCheckAtSubmit` | app/user/cart/payment/payment-client.tsx:183-185 | the number "4" passes the submit-time number check, yet the strict validator refuses it |
| `Checkout.InvalidCardScenario` | app/user/cart/payment/payment-client.tsx:167-203 | from an idle card form with a failing field, Pay and then the delay leave the page idle, with field errors and no order |

## Notes on the code

- **Number check at submit.** `validateCardNumber` (line 71) is defined but
  never called. The submit check at line 183 tests only the loose
  `cardType`, so any text starting with "4", "51"–"55", "34" or "37"
  passes, whatever its length. `Checkout.CardErrors` follows the code.
  `Cards.ValidateCardNumber` is modelled on its own.
  `Checkout.LooseNumberCheckAtSubmit` exhibits a number that passes the
  submit check but not the strict validator.
- **Uncapped fixed discount.** Line 159 takes a fixed coupon's value as the
  discount without capping it at the subtotal, so the total can be
  negative. `Pricing.FixedDiscountUncapped` shows one.
- **Empty coupon code.** With both coupon inputs empty, a catalog entry with
  the empty code would match and be applied. The admin form marks the code
  as required, so the catalog should not hold one.
  `Pricing.PickedCouponApplies` states its result under that assumption.
- **Rejected order call.** `processOrder` awaits `createOrder` (line 209)
  with no `try`/`catch`. If that promise rejects, lines 217-227 never run:
  `isProcessing` stays true, so Pay stays disabled, and no result is
  shown. The model has this outcome as `Threw`.
  `Checkout.StalledStaysStuck` proves the page never leaves that state.

## Left out

- Rendering, styling, icons and brand-logo images: presentation only.
- `createOrder` and the fixed mock shipping address. The order-placement
  outcome (success, an error result, or a rejected promise) is an input of
  the `PaymentDue` event. The address is not
  recorded in `OrderRequest`. The `./actions` module that defines
  `createOrder` is not part of this model.
- The error `console.error` logs when placement fails: logging only.
- The two 2-second `setTimeout` delays and the `router.push` redirect after
  success: timer and navigation side effects.
- `new Date()`. The current two-digit year and month are parameters of
  `PaymentDue`. Century wrap is not modelled.
- Floating point. Amounts are exact reals. IEEE rounding and the
  `toFixed(2)` display are not modelled.
- React scheduling. Each handler is one atomic state update. The effect
  that re-detects the brand from the number is not a separate step;
  `Checkout.EditKeepsFormOk` proves it would change nothing.
- The `maxLength` attributes of the expiry (5) and CVV (4) inputs. They are
  limits the browser enforces before any handler runs.
- The `userEmail` prop, which the page's logic never reads, and the
  "Apply" button of the typed coupon, whose handler does nothing.
- The admin coupon form (`app/admin/coupons/coupon-form.tsx`). It is
  database I/O plus an upper-case and shipping-to-zero mapping of the form
  fields.
- Every other page of the repository: static layout, mock figures, or
  authentication calls into external libraries.
