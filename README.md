# Purchase entry: line totals, document totals and submit validation

A Dafny model of the new-purchase form of a billing and inventory web
front-end. On this form a user records a supplier's bill: a list of line
items (product, batch, expiry, quantity, price, GST rate and discount) plus
freight, packaging and other charges and a document-level discount. The
page does three things:
- it derives a line total for each item;
- it derives the document's subtotal, total GST and grand total;
- on submit, it checks the form, reporting only the first failure, and then
  sends the purchase with the three totals attached.

The model has four modules:

- `PurchaseModel` (`purchase_model.dfy`) holds the data. It has the line
  item, the purchase document, the item that "Add Item" appends, and the
  page's initial state. It also has a typed form of the page's
  `updateItem(index, field, value)`: a `FieldUpdate` names one field and its
  new value, and `Get` reads any field back.
- `PurchaseTotals` (`purchase_totals.dfy`) holds `calculateItemTotal` and
  `calculateTotals` as functions. The two `reduce` folds are one left fold,
  `Sum`. Money is exact `real` arithmetic. Under exact arithmetic,
  "subtotal = sum of taxable amounts" is a theorem.
- `PurchaseValidation` (`purchase_validation.dfy`) has two forms of the
  submit-time checks. `Validate` is a first-failure function.
  `ValidateForSubmit` is the loop of `handleSubmit`, with early returns, and
  is proved equal to `Validate`. Lemmas cover:
  - the fixed order: no items, then no supplier, then the items in list order;
  - the lowest failing index, with its first failing check;
  - "passes exactly when every item passes all five checks".
- `PurchaseForm` (`purchase_form.dfy`) is the page, the class
  `NewPurchasePage`:
  - its one field `formData` is the React state. Each edit replaces it whole,
    as `setFormData` does.
  - `AddItem`, `RemoveItem` and `UpdateItem` state the new state outright.
  - `HandleSubmit` either rejects with the validation error or builds the
    payload with its totals.
  - lemmas tie the edits to the totals and to validation.

On these points the model follows the page's code:
- Quantities and amounts are reals held as the inputs parse them
  (`parseFloat`). The page's state itself does not keep a quantity whole or
  at least 1, or an amount non-negative. Before the submit handler runs, the
  browser's own form validation imposes those bounds (see "Left out").
- Validation reports the first failure, not a list.

## Model

| member | source | states |
|---|---|---|
| `PurchaseModel.DefaultItem` | app/dashboard/purchases/new/page.js:54-65 | the appended item has empty product, batch and expiry, quantity 1, GST rate 12 (one of the offered rates), and zero free quantity, price, MRP, selling price and discount |
| `PurchaseModel.InitialDocument` | app/dashboard/purchases/new/page.js:15-29 | the page opens with no items, no supplier or bill number, the bill date and the purchase date each set to its own clock reading, zero charges, discount and paid amount, status unpaid, mode credit, empty notes |
| `PurchaseModel.Apply` | app/dashboard/purchases/new/page.js:77 | `{ ...item, [field]: value }`: the written field reads back as the new value and every other field reads back as before |
| `PurchaseModel.ApplyCurrentValueIsIdentity` | app/dashboard/purchases/new/page.js:77 | writing a field with the value it already holds gives back the same item |
| `PurchaseTotals.TaxableAmount` | app/dashboard/purchases/new/page.js:82 | quantity × price − discount, not clamped: negative exactly when the discount exceeds quantity × price |
| `PurchaseTotals.GstAmount` | app/dashboard/purchases/new/page.js:83 | zero at rate 0; at a positive rate negative exactly when the taxable amount is, and positive exactly when it is |
| `PurchaseTotals.ItemTotal` | app/dashboard/purchases/new/page.js:81-85 | line total = (quantity × price − discount) × (1 + rate/100); at rate 0 it is exactly quantity × price − discount |
| `PurchaseTotals.NegativeTaxableNotClamped` | app/dashboard/purchases/new/page.js:82-84 | for an offered rate, a discount above quantity × price gives a negative taxable amount and line total, and a GST that is not positive (negative whenever the rate is not zero) |
| `PurchaseTotals.UnpricedItemIsZero` | app/dashboard/purchases/new/page.js:81-85 | an item with no price and no discount has zero taxable amount, GST and line total at any quantity and rate |
| `PurchaseTotals.CalculateTotals` | app/dashboard/purchases/new/page.js:87-100 | subtotal + total GST = the items' total; the subtotal is the sum of the taxable amounts, the GST the sum of the line GSTs, and grand total = subtotal + GST + freight + packaging + other charges − document discount |
| `PurchaseTotals.ItemsTotalSplits` | app/dashboard/purchases/new/page.js:88-97 | the sum of the line totals equals the sum of the taxable amounts plus the sum of the line GSTs |
| `PurchaseTotals.SumConcat` | app/dashboard/purchases/new/page.js:88 | a fold over two joined lists is the sum of the two folds |
| `PurchaseTotals.SumOrderIndependent` | app/dashboard/purchases/new/page.js:88 | two lists holding the same items, each as often (equal multisets), have the same sum, in whatever order |
| `PurchaseTotals.TotalsIndependentOfItemOrder` | app/dashboard/purchases/new/page.js:87-100 | any rearrangement of the item list leaves subtotal, GST and grand total unchanged |
| `PurchaseTotals.FreightRaisesGrandTotal` | app/dashboard/purchases/new/page.js:89-90 | raising freight by x raises the grand total by exactly x and leaves subtotal and GST unchanged |
| `PurchaseTotals.EmptyDocumentTotals` | app/dashboard/purchases/new/page.js:88-99 | with no items: subtotal 0, GST 0, grand total = charges − discount |
| `PurchaseTotals.AppendUnpricedItemKeepsTotals` | app/dashboard/purchases/new/page.js:88-99 | appending an item with no price and no discount leaves all three totals unchanged |
| `PurchaseTotals.AppendDefaultItemKeepsTotals` | app/dashboard/purchases/new/page.js:49-68 | adding the default item changes no total |
| `PurchaseTotals.SumWithoutPosition` | app/dashboard/purchases/new/page.js:88 | dropping position i from the list lowers a fold by exactly that item's term |
| `PurchaseTotals.SumWithReplacedItem` | app/dashboard/purchases/new/page.js:88 | replacing item i changes a fold by the new term minus the old one |
| `PurchaseTotals.OneItemScenario` | app/dashboard/purchases/new/page.js:81-99 | 10 units at 50, no discount, 12%: line total 560; totals 500 / 60 / 560 |
| `PurchaseTotals.TwoItemScenario` | app/dashboard/purchases/new/page.js:81-99 | adding 5 units at 20 less 10 at 5% (line total 94.5), freight 20, discount 5: items total 654.5, totals 590 / 64.5 / 669.5 |
| `PurchaseValidation.CheckItem` | app/dashboard/purchases/new/page.js:117-137 | None exactly when the item passes all five checks; otherwise a check the item fails, and every check ordered before it passes |
| `PurchaseValidation.ValidateForSubmit` | app/dashboard/purchases/new/page.js:105-138 | the loop with early returns yields the same outcome as the first-failure function `Validate` |
| `PurchaseValidation.FirstInvalidFromNone` | app/dashboard/purchases/new/page.js:116-138 | the item scan from position i reports nothing exactly when every item from i on passes |
| `PurchaseValidation.FirstInvalidFromLowest` | app/dashboard/purchases/new/page.js:116-138 | the scan reports item k with check c exactly when k is the lowest failing position and c is its first failing check |
| `PurchaseValidation.FirstInvalidFrom` | app/dashboard/purchases/new/page.js:116-138 | the item scan only ever reports an item failure, at a position in range, with that item's first failing check |
| `PurchaseValidation.EmptyItemsRejectedFirst` | app/dashboard/purchases/new/page.js:105-108 | an empty item list is rejected as such, whatever the supplier |
| `PurchaseValidation.MissingSupplierRejectedBeforeItems` | app/dashboard/purchases/new/page.js:110-113 | with items present and no supplier, the supplier is reported, whatever the items hold |
| `PurchaseValidation.Validate` | app/dashboard/purchases/new/page.js:105-138 | validation passes exactly when there are items, a supplier, and no item fails any of the five checks |
| `PurchaseValidation.ValidateReportsFirstItemFailure` | app/dashboard/purchases/new/page.js:116-137 | item k with check c is reported exactly when items and supplier are present, all earlier items pass, item k fails c and passes every check before c |
| `PurchaseValidation.ItemFailureIsIndependentOfLaterItems` | app/dashboard/purchases/new/page.js:116-121 | an item failure stays the one reported whatever items are added after it |
| `PurchaseValidation.DocumentWithDefaultItemRejected` | app/dashboard/purchases/new/page.js:118-121 | a document holding an unedited default item is never accepted |
| `PurchaseForm.FilterOutPosition` | app/dashboard/purchases/new/page.js:71 | filtering out position `index` of a list that starts at `offset` drops exactly that element when it is in range, and nothing otherwise |
| `PurchaseForm.WithoutPosition` | app/dashboard/purchases/new/page.js:70-73 | for an index in range: one element fewer, earlier ones in place, later ones shifted down by one; any other index leaves the list as it was |
| `PurchaseForm.NewPurchasePage.constructor` | app/dashboard/purchases/new/page.js:15-29 | the page starts in the initial state for the two dates read from the clock |
| `PurchaseForm.NewPurchasePage.AddItem` | app/dashboard/purchases/new/page.js:49-68 | exactly one default item is added at the end, earlier items and every other form field unchanged |
| `PurchaseForm.NewPurchasePage.RemoveItem` | app/dashboard/purchases/new/page.js:70-73 | the new item list is the old one without position `index`; every other form field is unchanged |
| `PurchaseForm.NewPurchasePage.UpdateItem` | app/dashboard/purchases/new/page.js:75-79 | same length; every other item unchanged; in item `index` the target field holds the new value and every other field is unchanged; every other form field unchanged |
| `PurchaseForm.NewPurchasePage.HandleSubmit` | app/dashboard/purchases/new/page.js:102-149 | rejected exactly when validation fails, with validation's error; otherwise the payload is the form with the computed subtotal, GST and grand total attached |
| `PurchaseForm.RemoveItemTotals` | app/dashboard/purchases/new/page.js:70-73 | removing item i lowers subtotal, GST and grand total by that item's taxable amount, GST and line total; an out-of-range index changes no total |
| `PurchaseForm.UpdateOtherFieldKeepsTotals` | app/dashboard/purchases/new/page.js:75-79 | editing product, batch, expiry, free quantity, MRP or selling price changes no total |
| `PurchaseForm.UpdateDiscountShiftsSubtotal` | app/dashboard/purchases/new/page.js:82 | raising one item's discount by x lowers the subtotal by exactly x |
| `PurchaseForm.SubmitRightAfterAddItemRejected` | app/dashboard/purchases/new/page.js:49-68 | a form whose last item was just added by "Add Item" fails validation |

## Left out

- Loading the supplier and product lists in parallel (`loadData`), and the
  backend's `create` call with the redirect after it. Both are network I/O
  against a backend that is not part of this model. `HandleSubmit` stops at
  the payload it would send.
- Alerts, the loading flag, navigation and all rendering. The
  two-decimal display formatting (`toFixed(2)`) is presentation only.
- Floating-point rounding. Amounts are exact reals, so the model cannot say
  how the float result of `itemsTotal - totalGST` differs from the sum of the
  taxable amounts.
- The browser's form validation. The form (app/dashboard/purchases/new/page.js:177) does not turn it
  off, so the browser checks the inputs' `required`, `min` and `step`
  attributes before `handleSubmit` is called at all:
  - it requires a supplier, bill number, both dates, product, batch and expiry;
  - it requires a whole quantity of at least 1;
  - it requires non-negative prices, discounts, charges and paid amount.
  The model does not include this step. `HandleSubmit`, like `Validate`,
  models `handleSubmit` once it is called. For example, a form with an empty
  bill number, a quantity of 1.5 or a negative discount passes `Validate`,
  but the browser would stop it first.
- Input parsing. `parseFloat(...) || 0` in the input handlers, and the
  `x || 0` guards on charges and discounts, act only on NaN or
  missing values. The model has no such values, and its fields already hold
  the parsed numbers.
- `PurchaseForm.NewPurchasePage.UpdateItem`: requires an index inside the
  list. The page only calls it from a rendered row, with that row's index.
  In JavaScript an index past the end would store an object holding only
  the one field. A typed line item cannot represent that.
- The header and payment inputs (supplier, bill number, dates, charges,
  discount, payment status and mode, paid amount, notes). Each replaces
  one field of the form state. They are unguarded one-field record updates,
  outside the item-list edits modelled here.
- The alert texts. The model reports the failing check and a 0-based item
  position; the page shows "item i+1".
- GST rates: a line item's rate may be any real. The page's selector offers only
  0, 5, 12, 18 and 28 (`GstRates`). Only `NegativeTaxableNotClamped` needs
  that restriction, so only it requires it.
- The dashboard home page, the disabled sign-up page and the branding
  configuration. They hold no logic of the purchase form.
