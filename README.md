# Storefront rules in Dafny

This project models the logic of a small React storefront. The storefront sells a product
catalogue, keeps a cart, takes a checkout form and shows a confirmation of the order it
places. The model covers:

- **Checkout** (`CheckoutPage`, class `Checkout`). The cart subtotal, GST (5%) on every
  region and QST (9.975%) for Quebec, and shipping that is free strictly above 100. It also
  covers the field-by-field validator that builds the error map, checking card fields only
  for the "credit-card" payment method. Then the change handlers, which clear the edited
  field's error, the card-number and expiry formatters, and the order record built on submit.
- **Older checkout component** (`CheckoutComponent`, class `LegacyCheckout`). The same form
  and order, with three differences:
  - the tax comes from a table of province codes matched on the first two characters;
  - card fields are always validated;
  - the order has no payment method.
- **Cart totals** (`CartPage`). The discounted and undiscounted totals, the savings that
  count only discounts of at least 1%, the item count, the per-line display amounts and the
  quantity buttons.
- **Catalogue query pipeline** (`Catalog`, `ProductListPage`, `ProductListComponent`).
  - The category, price-range and case-insensitive search filters.
  - The in-place sort by price, date or rating, on an array.
  - The sorted list of distinct categories.
  - Pagination: 12 products per page, with the "Previous" and "Next" targets clamped.
- **Product detail** (`ProductDetailPage`, class `ProductDetail`).
  - The quantity handler and its stock bound.
  - Review submission and normalisation, the star input, the combined review list.
  - The average rating and its full, half and empty stars.
  - The savings display.
- **Order confirmation** (`OrderConfirmationPage`). The view of a stored order: the
  not-found state, the payment label, the Quebec tax label, the line totals and "was" notes,
  and the stored amounts.

Shared pieces live in `Text` (JavaScript `trim`, `\s`, `\d`, `includes`, ASCII case mapping),
`Seqs` (filter, subsequence, sums), `Money` (`toFixed(2)`/`toFixed(1)` as rounding half away
from zero to cents or tenths), `Pricing` (line and cart arithmetic, shipping), `FormRules`
(field rules, messages, error maps, formatters), `TaxRules` (rates, normalisation, province
codes) and `Orders` (the order record).

Form values are a `map<Field, string>` over an enumeration of the form's input names. A key
that is absent reads as "". Money is `real`. The clock and random parts of the order id and
date are parameters. So is the outcome of the simulated payment step, and so is the parsed
value of a number input (`None` when parsing gives NaN).

## Model

| member | source | states |
|---|---|---|
| Pricing.DiscountedPrice | src/pages/Checkout.jsx:27 | for a non-negative price and a percentage in 0..100, the discounted price is between 0 and the price; 0% leaves it unchanged |
| Pricing.Shipping | src/pages/Checkout.jsx:46 | shipping is 0 exactly when the subtotal is strictly above 100, and 10 otherwise |
| Pricing.LineDifference | src/pages/Cart.jsx:24-35 | a line's undiscounted total minus its discounted total is its savings `price·(d/100)·qty` |
| Pricing.LineTotalBounds | src/pages/Checkout.jsx:26-29 | a well-formed line's discounted total lies between 0 and its undiscounted total |
| Pricing.SubtotalBounds | src/pages/Checkout.jsx:26-29 | the subtotal of well-formed lines is between 0 and the undiscounted total, and 0 for an empty cart |
| Pricing.SubtotalOrderInvariant | src/pages/Checkout.jsx:26-29 | the subtotal does not depend on the order of the cart's lines |
| Pricing.TotalDiscount | src/pages/Cart.jsx:7-35 | the undiscounted total minus the discounted total is the sum of the line savings |
| Money.ToFixed2 | src/pages/Cart.jsx:15 | the rounded amount is within half a cent of the amount and is a whole number of cents |
| Money.ToFixed1 | src/pages/ProductDetail.jsx:164 | the rounded value is within 0.05 of the value and is a whole number of tenths |
| Money.ToFixed2Idempotent | src/pages/OrderConfirmation.jsx:105-121 | rounding an already rounded amount changes nothing |
| Money.ToFixed2Monotone | src/pages/Cart.jsx:15 | rounding to cents preserves order |
| Money.ToFixed1Monotone | src/pages/ProductDetail.jsx:164 | rounding to tenths preserves order |
| Text.TrimEmptyIffBlank | src/pages/Checkout.jsx:52 | `trim()` gives "" exactly when every character is whitespace |
| Text.RemoveWhitespaceOfTrim | src/pages/Checkout.jsx:113-118 | removing whitespace after a trim is the same as removing it from the untrimmed string |
| Text.IncludesIffOccurs | src/pages/ProductList.jsx:80 | `includes` holds exactly when the needle occurs at some index |
| Text.ToUpperUnchanged | src/pages/Checkout.jsx:33 | upper-casing leaves a string without lower-case letters unchanged |
| TaxRules.NormalizedUnchanged | src/pages/Checkout.jsx:33 | an unpadded value with no lower-case letters is already normalised |
| FormRules.EmailCheckMatchesPattern | src/pages/Checkout.jsx:57 | the scanning email check accepts exactly the strings `/^[^\s@]+@[^\s@]+\.[^\s@]+$/` matches |
| FormRules.ValidationErrors | src/pages/Checkout.jsx:49-88 | the error map holds exactly the checked fields that fail, each with that field's message |
| FormRules.ValidationErrorsInOrder | src/pages/Checkout.jsx:49-88 | checking the fields one `if` after another, in the screen's order, builds exactly that error map |
| FormRules.ErrorsOfEntries | src/pages/Checkout.jsx:49-88 | a step-by-step error map has an entry exactly for each checked field whose check fails |
| FormRules.PhoneErrorIffFewDigits | src/pages/Checkout.jsx:60-64 | the phone errs exactly when it has fewer than 10 digits |
| FormRules.EmailErrorIffNoMatch | src/pages/Checkout.jsx:55-59 | the email errs exactly when it does not match the pattern |
| FormRules.CardNumberErrorIffInvalid | src/pages/Checkout.jsx:72-76 | the card number errs exactly when, once whitespace is removed, it is not 16 digits |
| FormRules.ExpiryErrorIffInvalid | src/pages/Checkout.jsx:77-81 | the expiry errs exactly when the raw value is not `DD/DD` |
| FormRules.CvvErrorIffInvalid | src/pages/Checkout.jsx:82-86 | the CVV errs exactly when the raw value is not 3 or 4 digits |
| FormRules.RequiredFieldErrs | src/pages/Checkout.jsx:52-54 | a field that is only required errs exactly when it is blank |
| FormRules.FieldErrorMessage | src/pages/Checkout.jsx:55-86 | a field's message is its "required" message exactly when the field is blank |
| FormRules.BlankFieldRequired | src/pages/Checkout.jsx:52-86 | a blank checked field gets its "required" message |
| FormRules.BlankFormErrors | src/pages/Checkout.jsx:49-88 | a form whose checked fields are all blank gets exactly one "required" message per checked field |
| FormRules.CardFieldsSkipped | src/pages/Checkout.jsx:70-87 | without card checks, no card field appears in the error map |
| FormRules.CardFieldsChecked | src/pages/Checkout.jsx:70-87 | with card checks, each card field is in the map exactly when it is invalid |
| FormRules.RequiredMessageIffBlank | src/pages/Checkout.jsx:49-88 | every recorded message is the "required" one exactly for a blank field |
| FormRules.ValidationErrorsEmptyIff | src/pages/Checkout.jsx:101 | the error map is empty exactly when no checked field fails |
| FormRules.AddressFieldsPassIff | src/pages/Checkout.jsx:52-68 | the contact and address fields all pass exactly when the required ones are non-blank, the email matches and the phone has at least 10 digits |
| FormRules.CardFieldsPassIff | src/pages/Checkout.jsx:72-86 | the card fields all pass exactly when number, expiry and CVV are all well formed |
| FormRules.ClearError | src/pages/Checkout.jsx:107-110 | the edited field no longer shows an error, the keys are unchanged, other entries are kept, and a field without an error leaves the map unchanged |
| FormRules.GroupsOfFourRemoveWhitespace | src/pages/Checkout.jsx:116 | inserting a space after every four characters and then removing whitespace gives back the original |
| FormRules.FormatCardNumberDigitsKept | src/pages/Checkout.jsx:113-118 | removing spaces from the formatted card number gives the input with whitespace removed |
| FormRules.FormatCardNumberIdempotent | src/pages/Checkout.jsx:113-118 | formatting a formatted card number changes nothing |
| FormRules.FormatCardNumberKeepsValidity | src/pages/Checkout.jsx:74 | formatting never changes whether the card number is valid |
| FormRules.FormatExpiryDate | src/pages/Checkout.jsx:120-126 | the result is at most 5 characters: the digits when there are fewer than two, else two digits, "/", then at most two more digits |
| FormRules.FormatExpiryDateValidIff | src/pages/Checkout.jsx:120-126 | the formatted expiry is valid exactly when the input has at least four digits |
| FormRules.FormatExpiryDateIdempotent | src/pages/Checkout.jsx:120-126 | formatting a formatted expiry changes nothing |
| Orders.CentsWithinOneCent | src/pages/Checkout.jsx:173-176 | whole-cent amounts, each within half a cent of exact values, differ from their exact relation by at most one cent |
| Orders.StoredTotalsReconcile | src/pages/Checkout.jsx:159-178 | the stored total is within half a cent of the exact total and within a cent of the sum of the stored parts; items and customer are copied |
| CheckoutPage.TaxRates | src/pages/Checkout.jsx:32-44 | the tax is 5% of the subtotal for every region value, and 14.975% exactly when the trimmed, upper-cased value is QC or QUEBEC |
| CheckoutPage.TaxLowerCaseQuebec | src/pages/Checkout.jsx:33-41 | "qc" pays both taxes: 14.975 on 100 |
| CheckoutPage.TaxEmptyRegion | src/pages/Checkout.jsx:33-35 | an empty region still pays GST: 5 on 100 |
| CheckoutPage.TaxForeignRegion | src/pages/Checkout.jsx:33-43 | "US-CA" still pays GST: 5 on 100 |
| CheckoutPage.FormIsValidIff | src/pages/Checkout.jsx:49-101 | the form passes exactly when the contact and address fields are complete and, for card payment only, the card fields are too |
| CheckoutPage.CardChecksOnlyForCreditCard | src/pages/Checkout.jsx:70-87 | card errors appear only for "credit-card", and then exactly for the invalid card fields |
| CheckoutPage.InitialFormErrors | src/pages/Checkout.jsx:7-20 | submitting the untouched form gives one "required" message for each of the 11 checked fields |
| CheckoutPage.OnlyEmailMalformed | src/pages/Checkout.jsx:55-59 | a form whose only fault is a malformed email gets exactly the "Invalid email format" entry |
| CheckoutPage.QuebecOrderExample | src/pages/Checkout.jsx:173-176 | on exact amounts, two items at 50 shipped to QC store subtotal 100, tax 14.98, shipping 10 and total 124.98 |
| CheckoutPage.StoredTotalMayDifferFromParts | src/pages/Checkout.jsx:173-176 | the stored total (10.01) can differ from the sum of the stored parts (10.00) |
| CheckoutPage.Checkout.constructor | src/pages/Checkout.jsx:7-23 | the screen starts with the initial form, no errors and not processing |
| CheckoutPage.Checkout.ValidateForm | src/pages/Checkout.jsx:49-102 | the errors become the validation map, and the result is true exactly when the form is valid |
| CheckoutPage.Checkout.HandleChange | src/pages/Checkout.jsx:104-111 | only the named field changes, and only its error is cleared |
| CheckoutPage.Checkout.HandleCardNumberChange | src/pages/Checkout.jsx:128-134 | the card number becomes the formatted input, and only its error is cleared |
| CheckoutPage.Checkout.HandleExpiryDateChange | src/pages/Checkout.jsx:136-142 | the expiry becomes the formatted input, and only its error is cleared |
| CheckoutPage.Checkout.HandleSubmit | src/pages/Checkout.jsx:144-187 | an invalid form places nothing and shows its errors; a valid one places the rounded order with the payment method, or on failure shows only the submit error; processing ends cleared |
| CheckoutComponent.LegacyRate | src/components/Checkout.jsx:31-69 | the rate is 0, 5% or 14.975% |
| CheckoutComponent.LegacyTaxBounds | src/components/Checkout.jsx:31-69 | the tax is between 0 and 14.975% of the subtotal, and 0 when the region is neither Quebec nor starts with a province code |
| CheckoutComponent.LegacyNeverExceedsCurrent | src/components/Checkout.jsx:31-69 | this tax never exceeds the current screen's, and on a positive subtotal equals it exactly when the region is Quebec or starts with a code |
| CheckoutComponent.LegacyTaxOntarioPrefix | src/components/Checkout.jsx:45-64 | "ONX" pays GST only |
| CheckoutComponent.LegacyTaxQuebecPrefix | src/components/Checkout.jsx:39-64 | "QCX" pays GST only |
| CheckoutComponent.LegacyTaxNoCode | src/components/Checkout.jsx:45-68 | "QUE" pays nothing |
| CheckoutComponent.LegacyTaxQuebecName | src/components/Checkout.jsx:33-41 | " quebec " pays both taxes |
| CheckoutComponent.VariantsDisagreeOnEmptyState | src/components/Checkout.jsx:32-68 | on an empty region the current screen charges 5 on 100 and this component 0 |
| CheckoutComponent.LegacyFormIsValidIff | src/components/Checkout.jsx:75-113 | the form passes exactly when both the address part and the card part are complete |
| CheckoutComponent.LegacyValidImpliesCurrentValid | src/components/Checkout.jsx:95-109 | a form this component accepts is also accepted by the current screen |
| CheckoutComponent.LegacyCheckout.constructor | src/components/Checkout.jsx:7-22 | the component starts with the empty form (no payment method), no errors and not processing |
| CheckoutComponent.LegacyCheckout.CalculateTax | src/components/Checkout.jsx:31-69 | the branch-by-branch computation equals the province-table tax on the subtotal |
| CheckoutComponent.LegacyCheckout.ValidateForm | src/components/Checkout.jsx:75-113 | the errors become the validation map with card checks, and the result says whether it is empty |
| CheckoutComponent.LegacyCheckout.HandleChange | src/components/Checkout.jsx:115-122 | only the named field changes, and only its error is cleared |
| CheckoutComponent.LegacyCheckout.HandleCardNumberChange | src/components/Checkout.jsx:139-145 | the card number becomes the formatted input, and only its error is cleared |
| CheckoutComponent.LegacyCheckout.HandleExpiryDateChange | src/components/Checkout.jsx:147-153 | the expiry becomes the formatted input, and only its error is cleared |
| CheckoutComponent.LegacyCheckout.HandleSubmit | src/components/Checkout.jsx:155-197 | as the current screen, but with the province-table tax and no payment method in the order |
| CartPage.SavingsIgnoresSmallDiscounts | src/pages/Cart.jsx:24-35 | the savings are the sum of the line savings with every line under 1% counted as 0 |
| CartPage.SavingsIsTotalDiscount | src/pages/Cart.jsx:7-35 | when no line has a discount strictly between 0 and 1%, the savings are the undiscounted total minus the discounted total |
| CartPage.SmallDiscountNotSaved | src/pages/Cart.jsx:24-35 | 100 at 0.5% off shows 99.50 against 100.00, yet savings 0 and no savings row |
| CartPage.NoSignificantDiscountNoSavingsRow | src/pages/Cart.jsx:156 | without a line discounted by at least 1% there is no savings row |
| CartPage.TotalsBounds | src/pages/Cart.jsx:7-22 | the rounded total lies between 0 and the rounded undiscounted total; an empty cart shows zeros |
| CartPage.TotalItemsAtLeastLines | src/pages/Cart.jsx:37 | the item count is at least the number of well-formed lines |
| CartPage.TotalItemsAppend | src/pages/Cart.jsx:37 | the item count of two carts together is the sum of their counts |
| CartPage.ItemsLabelSingularIffOne | src/pages/Cart.jsx:74 | the label is "item" exactly for a count of 1 |
| CartPage.DisplayedLineTotalNearLineTotal | src/pages/Cart.jsx:82-86 | the line total shown is whole cents and within half a cent per unit plus half a cent of the exact discounted line total |
| CartPage.TwoRoundingsError | src/pages/Cart.jsx:82-86 | rounding a unit amount and then its product with a non-negative count, each to within half a cent, errs by at most (count + 1) half-cents |
| CartPage.DisplayedLineTotalRoundsTwice | src/pages/Cart.jsx:82-86 | the line total multiplies the rounded unit price, so 2 × 0.125 shows 0.26, not 0.25 |
| CartPage.QuantityButtons | src/pages/Cart.jsx:119-126 | the buttons ask for one less and one more, with no lower clamp: 0 from 1 |
| Catalog.FieldIncludesIffOccurs | src/pages/ProductList.jsx:80-87 | a field matches exactly when the term occurs in its lower-cased text |
| Catalog.SearchFilterSpec | src/pages/ProductList.jsx:76-100 | a blank query keeps the list; otherwise exactly the matching products are kept, as a subsequence |
| Catalog.UntrimmedQueryExample | src/pages/ProductList.jsx:77-79 | the search term is not trimmed: " phone" does not match a product titled "Phone" |
| Catalog.SortedByRankMeaning | src/pages/ProductList.jsx:103-119 | a sorted list is cheapest first, dearest first, newest first, or best-rated first, by option |
| Catalog.SortByKey | src/pages/ProductList.jsx:103-119 | the array ends sorted by the key and is a permutation of its old contents |
| Catalog.SortedCopy | src/pages/ProductList.jsx:58-121 | the result is a sorted permutation of the input |
| Catalog.InsertLast | src/pages/ProductList.jsx:103-119 | one insertion step extends the sorted prefix by one element and keeps a permutation |
| Catalog.SwapLeft | src/pages/ProductList.jsx:103-119 | swapping the moving element past a larger neighbour keeps the insertion invariant and the contents |
| Catalog.InsertingDone | src/pages/ProductList.jsx:103-119 | once the moving element's left neighbour is not larger, the prefix is sorted |
| Catalog.InsertUnique | src/pages/ProductList.jsx:40-42 | the result holds exactly the new element and the old ones |
| Catalog.InsertUniqueAscending | src/pages/ProductList.jsx:40-42 | inserting into a strictly ascending list keeps it strictly ascending |
| Catalog.UniqueCategoriesSpec | src/pages/ProductList.jsx:40-42 | the category list holds exactly the catalogue's categories, strictly ascending |
| Catalog.StrictlyAscendingDistinct | src/pages/ProductList.jsx:40-42 | a strictly ascending list has no duplicates |
| Catalog.StrLessTotal | src/pages/ProductList.jsx:42 | the string order is total on distinct strings |
| Catalog.StrLessTransitive | src/pages/ProductList.jsx:42 | the string order is transitive |
| Catalog.TotalPages | src/pages/ProductList.jsx:130 | the page count is 0 only for no products, and otherwise the least count whose pages hold them all |
| Catalog.CurrentPageItemsSpec | src/pages/ProductList.jsx:131-133 | page p shows positions (p−1)·12 up to p·12, cut off at the end of the list |
| Catalog.EveryProductOnItsPage | src/pages/ProductList.jsx:130-133 | every product appears on exactly the page its position says, within the page count |
| Catalog.PageButtons | src/pages/ProductList.jsx:256-271 | "Previous" and "Next" stay within 1..total, move at most one page, and stay put exactly where disabled |
| Catalog.PaginationShownIffMoreThanOnePage | src/pages/ProductList.jsx:252 | the pagination bar appears exactly when there are more than 12 products |
| ProductListPage.FilteredProductsSpec | src/pages/ProductList.jsx:57-100 | the filtered list holds exactly the products in the category, in the price range and matching the query, as a subsequence |
| ProductListPage.FilterStepsCompose | src/pages/ProductList.jsx:58-100 | the three successive filters give the single combined filter |
| ProductListPage.ApplyQuery | src/pages/ProductList.jsx:57-121 | the result is a permutation of the filtered list, sorted for the option |
| ProductListPage.PriceInputFallbacks | src/pages/ProductList.jsx:185-200 | entered numbers are used as typed, an unreadable entry gives 0 or 10000, and a maximum of 0 becomes 10000 |
| ProductListComponent.SearchAndSort | src/components/ProductList.jsx:45-93 | the result is a permutation of the search-filtered list, sorted for the option |
| ProductListComponent.SearchAndSortContents | src/components/ProductList.jsx:46-72 | a blank query keeps every product; otherwise exactly the matching ones |
| ProductDetailPage.QuantityOptions | src/pages/ProductDetail.jsx:315-319 | the menu offers min(stock, 10) choices numbered from 1 |
| ProductDetailPage.QuantityOptionsAccepted | src/pages/ProductDetail.jsx:63-68 | the menu offers exactly 1..min(stock, 10), and every choice passes the quantity handler's check |
| ProductDetailPage.NewReviewNormalised | src/pages/ProductDetail.jsx:76-82 | a submitted review has a non-empty comment and name; a blank name becomes "Anonymous", any other is kept trimmed |
| ProductDetailPage.AllReviews | src/pages/ProductDetail.jsx:154-156 | the list is the product's reviews followed by the user reviews, and its length is the sum |
| ProductDetailPage.ReviewsLabelSingularIffOne | src/pages/ProductDetail.jsx:237 | the label is "review" exactly when the two lists hold one review between them |
| ProductDetailPage.CalculatedRatingBounds | src/pages/ProductDetail.jsx:159-165 | with every rating from 1 to 5 the displayed average is between 1 and 5 |
| ProductDetailPage.StarClassShape | src/pages/ProductDetail.jsx:167-169 | the stars read filled, then at most one half star at floor(r), then empty |
| ProductDetailPage.StarClassExamples | src/pages/ProductDetail.jsx:221-233 | 3.5 shows three filled, one half and one empty star; 3.4 shows no half star |
| ProductDetailPage.SavingsShownForRealDiscount | src/pages/ProductDetail.jsx:147-151 | a discount of at least 1% taking at least a cent off always shows the savings badge |
| ProductDetailPage.ProductDetail.constructor | src/pages/ProductDetail.jsx:14-22 | quantity 1, the review form {5, "", ""}, closed |
| ProductDetailPage.ProductDetail.HandleQuantityChange | src/pages/ProductDetail.jsx:63-68 | the quantity becomes the value exactly when it is positive and at most the stock (100 for a zero stock); otherwise it is unchanged |
| ProductDetailPage.ProductDetail.HandleSubmitReview | src/pages/ProductDetail.jsx:74-87 | a form with a rating and a non-blank comment yields the normalised review and resets and closes the form; otherwise nothing changes |
| ProductDetailPage.ProductDetail.HandleReviewFormChange | src/pages/ProductDetail.jsx:89-96 | only the edited text field of the review form changes |
| ProductDetailPage.ProductDetail.HandleStarClick | src/pages/ProductDetail.jsx:98-113 | clicking star i sets rating i+1, so exactly stars 0..i are lit |
| ProductDetailPage.ProductDetail.ToggleReviewForm | src/pages/ProductDetail.jsx:359 | the button flips whether the review form is open |
| ProductDetailPage.ProductDetail.ReviewCount | src/pages/ProductDetail.jsx:156 | the count is the number of product reviews plus user reviews |
| OrderConfirmationPage.PaymentLabelSpec | src/pages/OrderConfirmation.jsx:29-33 | the three known methods get their labels, any other value is shown as stored, and a missing method shows nothing |
| OrderConfirmationPage.IsQCImpliesQuebecTax | src/pages/OrderConfirmation.jsx:35-37 | whenever the tax is labelled "GST + QST", the current checkout charged both taxes |
| OrderConfirmationPage.PaddedQuebecMislabelled | src/pages/OrderConfirmation.jsx:35-37 | " QC" pays both taxes at checkout, which trims, but is labelled "(GST)" here, which does not |
| OrderConfirmationPage.WasNote | src/pages/OrderConfirmation.jsx:88-93 | the "was" note appears exactly for a discount of at least 1% and shows the rounded undiscounted line |
| OrderConfirmationPage.ShippingOf | src/pages/OrderConfirmation.jsx:113-117 | shipping shows FREE exactly for a stored 0, otherwise the rounded amount |
| OrderConfirmationPage.View | src/pages/OrderConfirmation.jsx:9-27 | the not-found state appears exactly for a missing order; otherwise one line per item and the rounded stored total |
| OrderConfirmationPage.ItemTotalsAreLineTotals | src/pages/OrderConfirmation.jsx:69-71 | each line total uses checkout's formula, so the line totals add up to the cart subtotal |
| OrderConfirmationPage.PlacedOrderView | src/pages/OrderConfirmation.jsx:105-148 | for an order built by either checkout, subtotal, tax and total show as stored; the subtotal is the rounded sum of the line totals; FREE appears exactly above 100, else 10.00 |
| OrderConfirmationPage.DiscountedLineExample | src/pages/OrderConfirmation.jsx:68-93 | 2 × 40.00 at 25% off shows 60.00, "was 80.00" |

## Left out

- Network access, and the loading and error states around it. This covers the `fetch` of the product list and product detail, and the detail screen's not-found branch. The model starts from the fetched catalogue or the loaded product.
- Browser effects. This covers navigation, `window.scrollTo`, and the scroll-and-focus on the first error field after validation. The order of keys in the JavaScript error object, which decides that first field, is not modelled: errors are a map.
- Timers. This covers the two-second payment delay and the "added to cart" message timer. Submission is one synchronous step; whether handing the order to the caller succeeds is a parameter. `handleAddToCart` only passes the product and quantity to its caller and is not modelled.
- The order id, the ISO date and the review date come from the clock and a random number. They are parameters.
- Binary floating point. Amounts are exact reals, and `toFixed` rounds half away from zero on the exact value. A stored `toFixed` string read back by `parseFloat` is the rounded number itself.
- Case mapping covers ASCII letters only. There is no Unicode case folding.
- Strings are sequences of Unicode code points, where JavaScript strings are UTF-16 code units. For characters outside the basic plane this changes the four-character grouping of the card number (`FormRules.GroupsOfFour`) and the default order of category names (`Catalog.StrLess`).
- Input names are the `Field` enumeration. A `name` attribute outside the form's fields cannot be expressed.
- Fields read through `?.` (category, tags, customer, items, reviews) are assumed present.
- Catalog.SortByKey: proved sorted and a permutation, not stable. JavaScript's comparator sort with NaN keys (missing dates or prices) is not modelled. The "newest" key is an integer timestamp, not a parsed date string.
- The request to return to page 1 when the query changes is a call to the parent. The current page is an input.
- Pagination takes the current page as an input of at least 1. The page number and the page-change callback come from a caller outside the modelled files. The application root renders the older product list with only the search query, so its page is undefined and its reset-to-page-1 call has no callback to call; that wiring is not modelled.
- `handleReviewFormChange` for an input named "rating" parses the value with `parseInt`. The form has no such input: stars are set by `handleStarClick`. Only the comment and name inputs are modelled.
- `product.rating || 0` and `product.stock || 100` treat a missing value like 0. Fields are always present here, so only the zero case is modelled.
- ProductDetailPage.CalculatedRatingBounds: proves bounds on the displayed average, not that it is within 0.05 of the exact mean (which `Money.ToFixed1` states).
- Cart mutations (add, merge, remove, set quantity) happen outside the modelled files. The cart screen only asks for new quantities. The empty-cart screens are markup only.
- The older checkout's payment step: the model's `completes` parameter stands for the outcome of the simulated payment. The component never fails it on its own.
- `toLocaleDateString` and other locale formatting; all JSX markup; the navigation bar, footer, product card and the older confirmation component, which repeat formulas already covered.
