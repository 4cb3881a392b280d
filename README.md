# Akima storefront: colour selection and cart ledger

This project models the session logic of the Akima crochet shop, a
client-side React storefront. The model covers two parts.

- **The product customizer.** Each product asks for a quota of colours in
  two yarn classes, "normal" and "double strand". The customizer keeps one
  selection of colour names per class. Clicking a colour swatch toggles that
  colour. A selected colour is removed, wherever it occurs. An unselected
  colour is appended while the selection is below the quota, and the click
  does nothing at capacity. "Add to cart" emits the two selections only when
  both lengths equal their quotas exactly. It then empties both selections.
  The selections belong to the customizer component, which stays mounted for
  the whole session. Showing another product does not empty them.
- **The cart ledger.** The page keeps the cart as an ordered sequence of
  lines (id, product, customization, quantity). Adding always appends a new
  line with quantity 1 and never merges lines. Changing a quantity to zero
  or less removes the lines with that id; any other value is written into
  them. Removing filters the lines by id. Two sums are derived: the header
  badge (Σ quantity) and the order total (Σ price × quantity). The cart
  panel's "−" button is disabled at quantity 1, so the buttons never reach 0.
  Placing the order only shows a confirmation; the lines stay in the cart.

Modules, one per component, plus a prelude of shared helpers:

- `Prelude` (prelude.dfy) holds `Option`, `NoDup`, `IsSubsequence`, the
  array `filter` as `Filter`, and the summing `reduce` as `Reduce`, with a
  reference sum `SumOf`.
- `Catalog` (catalog.dfy) holds the `Product` record.
- `Customizing` (customizer.dfy) holds the selection functions and the
  `Customizer` class, whose two `seq<string>` fields are the component's two
  state hooks.
- `CartPanel` (cart.dfy) holds the cart line, the subtotal, the total and
  the quantity buttons.
- `App` (app.dfy) holds the mock catalogue, the ledger operations as
  functions, and the `Storefront` class. That class stands for the page
  state: the lines, the product shown, the panel flags and the mounted
  customizer.

Each handler is a method whose `ensures` ties the new state to a pure
function of the old state. The properties are proved about those functions.

The selections start empty (src/components/ProductCustomizer.tsx:40-41)
and are emptied after every commit (src/components/ProductCustomizer.tsx:102-104),
which suggests each product is meant to start from empty selections. Showing
another product does not empty them, and the model follows the code. See
"## Findings". The comment at src/App.tsx:123 calls cart line ids unique.
The code builds them from the product id and a millisecond clock, so two
adds in the same millisecond share an id. The model proves that consequence
(`App.SameInstantAddsShareId`) and claims no uniqueness.

## Model

| member | source | states |
|---|---|---|
| `Prelude.Filter` | src/App.tsx:146 | `filter` keeps exactly the elements satisfying the test, in their order (a subsequence). It keeps them all when every element passes and preserves absence of repetition |
| `Prelude.FilterCounts` | src/App.tsx:146 | `filter` keeps every copy of an element that passes the test and no copy of one that fails it |
| `Customizing.Without` | src/components/ProductCustomizer.tsx:72 | removing a colour leaves no occurrence of it; every other colour stays, in order |
| `Customizing.Toggle` | src/components/ProductCustomizer.tsx:69-77 | after a click, the colour is selected iff it was not selected and the selection was below quota; no other colour's membership changes |
| `Customizing.ToggleSelectedRemoves` | src/components/ProductCustomizer.tsx:70-72 | clicking a selected colour removes all its occurrences whatever the quota, keeps the others' order, and shortens a repetition-free selection by exactly one |
| `Customizing.ToggleAbsent` | src/components/ProductCustomizer.tsx:73-76 | clicking an unselected colour appends it at the end below quota; at or above quota the selection is unchanged |
| `Customizing.ToggleKeepsWithinQuota` | src/components/ProductCustomizer.tsx:69-77 | a click keeps a repetition-free selection within the quota repetition-free and within the quota |
| `Customizing.ToggleKeepsOffered` | src/components/ProductCustomizer.tsx:189-197 | clicking an offered swatch keeps every selected colour among the offered ones |
| `Customizing.ToggleTwiceRestores` | src/components/ProductCustomizer.tsx:70-75 | clicking an unselected colour twice below quota restores the original selection |
| `Customizing.ClicksKeepSelectionValid` | src/components/ProductCustomizer.tsx:69-89 | for a fixed product, any run of clicks on offered colours from a valid selection (e.g. `[]`) stays repetition-free, within quota and offered |
| `Customizing.ClicksOfNewColorsAppend` | src/components/ProductCustomizer.tsx:73-75 | clicking distinct new colours that fit in the quota appends them in click order |
| `Customizing.Commit` | src/components/ProductCustomizer.tsx:95-101 | "add to cart" emits a customization iff the selection is complete, and then exactly the two current selections |
| `Customizing.IsComplete` | src/components/ProductCustomizer.tsx:113-114 | once complete, a click on any unselected colour changes neither selection; while a bounded selection is incomplete, one class appends any new colour |
| `Customizing.CompleteWithoutDoubleStrand` | src/components/ProductCustomizer.tsx:113-114 | with a double-strand quota of 0, an empty double-strand selection is complete iff the normal selection has its quota |
| `Customizing.CommittedCustomizationFitsProduct` | src/components/ProductCustomizer.tsx:96-101 | a committed customization's lists have exactly the product's quotas; from a consistent selection they are distinct and offered |
| `Customizing.CompleteSelectionReachable` | src/components/ProductCustomizer.tsx:113-114 | a product with enough distinct offered colours can be completed from empty selections by clicking its first offered colours |
| `Customizing.FirstOfferedColorsFillQuota` | src/components/ProductCustomizer.tsx:73-75 | clicking the first `quota` of distinct offered colours from `[]` selects exactly `quota` distinct offered colours |
| `Customizing.Customizer.constructor` | src/components/ProductCustomizer.tsx:40-41 | both selections start empty |
| `Customizing.Customizer.SelectNormalColor` | src/components/ProductCustomizer.tsx:69-77 | the normal selection becomes `Toggle` of the old one under the normal quota; the quota invariant is kept |
| `Customizing.Customizer.SelectDoubleStrandColor` | src/components/ProductCustomizer.tsx:83-89 | the same for the double-strand selection and quota |
| `Customizing.Customizer.AddToCart` | src/components/ProductCustomizer.tsx:95-107 | emits `Commit` of the old selections; on emission both selections become empty, otherwise nothing changes |
| `Customizing.Customizer.Clear` | src/components/ProductCustomizer.tsx:103-104 | both selections become empty (the reset the corrected product switch uses) |
| `CartPanel.Subtotal` | src/components/Cart.tsx:156 | a line's amount is not negative, and from one unit on it is at least the product's price |
| `CartPanel.Total` | src/components/Cart.tsx:30 | the `reduce` total equals the independent Σ of the line subtotals |
| `CartPanel.TotalIsSumOfSubtotals` | src/components/Cart.tsx:30 | the `reduce` total equals Σ of the line subtotals `price × quantity`, and is 0 for the empty cart |
| `CartPanel.TotalAppend` | src/components/Cart.tsx:30 | the total of `items + [x]` is the old total plus `x.product.price × x.quantity` |
| `CartPanel.TotalNonNegative` | src/components/Cart.tsx:30 | with non-negative prices and positive quantities the total is non-negative |
| `CartPanel.DecrementRequest` | src/components/Cart.tsx:141-142 | the "−" button is enabled iff the quantity exceeds 1, and then requests quantity − 1 |
| `CartPanel.ButtonsRequestPositive` | src/components/Cart.tsx:141-150 | from a positive quantity, "+" and an enabled "−" only ever request a positive quantity |
| `CartPanel.IncrementRequest` | src/components/Cart.tsx:150 | "+" asks for more than the current quantity, and from one unit or more the "−" of the raised line then asks for the old quantity back |
| `App.MockCatalogWellFormed` | src/App.tsx:28-93 | every mock product has a positive price, distinct colours per class, and at least as many as its quotas |
| `App.MockProductIdsDistinct` | src/App.tsx:28-93 | no two mock products share an id |
| `App.MockProductsCompletable` | src/App.tsx:28-93 | for every mock product a complete, consistent selection is reachable from empty selections |
| `App.DecimalString` | src/App.tsx:123 | the clock part of a line id is a non-empty string of digits |
| `App.LineId` | src/App.tsx:123 | a line id is the product id, a dash, then a non-empty run of digits |
| `App.AddLine` | src/App.tsx:121-129 | adding makes the cart one longer; earlier lines are unchanged and in order; the new last line has quantity 1, the given product and customization, and id `productId-now` |
| `App.RemoveLine` | src/App.tsx:145-147 | removal leaves no line with the id and keeps exactly the other lines, every copy of each, in order; with the id absent it changes nothing |
| `App.UpdateQuantity` | src/App.tsx:132-142 | a quantity ≤ 0 gives exactly `RemoveLine`; otherwise length and order are kept, lines with the id get the new quantity, other lines keep theirs |
| `App.ItemCount` | src/App.tsx:150 | the badge `reduce` equals the independent Σ of the line quantities |
| `App.ItemCountIsSumOfQuantities` | src/App.tsx:150 | the badge count is Σ quantity, 0 for the empty cart, one more after an add, and at least the number of lines when quantities are positive |
| `App.TotalAfterAdd` | src/App.tsx:121-129 | adding a line raises the order total by the product's price |
| `App.TwoAddsNeverMerge` | src/App.tsx:122-128 | two adds of the same product and customization give two new lines, each with quantity 1 |
| `App.UpdateUnknownIdIsNoOp` | src/App.tsx:136-140 | changing the quantity of an id no line carries changes nothing |
| `App.AddThenRemoveRestores` | src/App.tsx:121-147 | removing the id of the line just added, when no earlier line has it, restores the cart |
| `App.SameInstantAddsShareId` | src/App.tsx:123 | two adds of one product at the same clock reading share an id, and removing it drops both lines |
| `App.RemoveKeepsQuantitiesPositive` | src/App.tsx:145-147 | removal keeps every quantity ≥ 1 |
| `App.UpdateKeepsQuantitiesPositive` | src/App.tsx:132-142 | a quantity change with any value keeps every quantity ≥ 1 |
| `App.QuantityButtonsKeepLine` | src/components/Cart.tsx:141-150 | a request from a line's "+" or enabled "−" never removes a line and keeps every quantity ≥ 1 |
| `App.TotalOfTwoLines` | src/components/Cart.tsx:30 | one line at 35000 × 1 and one at 25000 × 2 total 85000 |
| `App.Storefront.constructor` | src/App.tsx:102-108 | the session starts with an empty cart, no product shown, panels closed, empty selections |
| `App.Storefront.CartBadge` | src/App.tsx:150 | with positive quantities the badge count is at least the number of lines |
| `App.Storefront.CustomizeProduct` | src/App.tsx:116-118 | showing a product sets it and leaves the selections as they were |
| `App.Storefront.CustomizeProductFresh` | src/components/ProductCustomizer.tsx:40-41 | corrected switch: shows the product with empty selections, which are consistent with it |
| `App.Storefront.CloseCustomizer` | src/App.tsx:480 | closing sets the product to none and keeps the selections |
| `App.Storefront.SelectNormalColor` | src/components/ProductCustomizer.tsx:189-197 | a click on an offered normal swatch toggles it and keeps a consistent selection consistent |
| `App.Storefront.SelectDoubleStrandColor` | src/components/ProductCustomizer.tsx:265-273 | the same for a double-strand swatch, which is shown only when that quota is positive |
| `App.Storefront.CommitCustomization` | src/components/ProductCustomizer.tsx:95-107 | a complete selection becomes a new cart line, both selections empty and the customizer closes; otherwise nothing changes; positive quantities and consistency are kept |
| `App.Storefront.AddToCart` | src/App.tsx:121-129 | the lines become `AddLine` of the old lines; positive quantities are kept |
| `App.Storefront.UpdateItemQuantity` | src/App.tsx:132-142 | the lines become `UpdateQuantity` of the old lines; positive quantities are kept |
| `App.Storefront.RemoveItem` | src/App.tsx:145-147 | the lines become `RemoveLine` of the old lines; positive quantities are kept |
| `App.Storefront.OpenCart` | src/App.tsx:157 | the header button opens the cart panel |
| `App.Storefront.CloseCart` | src/App.tsx:487 | the panel's close closes it |
| `App.Storefront.Checkout` | src/components/Cart.tsx:32-34 | placing the order shows the confirmation and leaves the lines unchanged |
| `App.Storefront.CloseOrder` | src/components/Cart.tsx:200-204 | closing the confirmation hides it and closes the panel; the lines stay in the cart |
| `App.CarriedSelectionExample` | src/App.tsx:116-118 | a double-strand colour chosen for Buzo Oversize survives the switch to Bikini Verano: the selection is inconsistent and incomplete |
| `App.CarriedSelectionBlocksCommit` | src/components/ProductCustomizer.tsx:241 | with a non-empty double-strand selection, no normal selection whatever lets Bikini Verano commit |
| `App.FreshSelectionCompletesBikini` | src/components/ProductCustomizer.tsx:69-77 | from the emptied selection of the corrected switch, three offered normal colours commit Bikini Verano |

## Left out

- Rendering, layout, styling, icons, image fallbacks, smooth scrolling, and the colour-name-to-swatch palettes: these are presentation only.
- The product `image` field: it is used only as an image source.
- `src/components/Header.tsx` (the mobile menu flag and the badge display), and the product card beyond its `Product` type.
- Price formatting with `toLocaleString`.
- `Date.now()`: it becomes the parameter `now` of the add operations.
- JavaScript numbers: prices, quotas and quantities are whole numbers here. Fractional, NaN and floating-point overflow values are not modelled.
- React's deferred state updates: each handler sees the state of the last render. The model applies every update at once, which agrees as long as one handler runs per render.
- The open and close flags of the cart panel and the order confirmation are kept only to state that placing an order leaves the lines alone.
- App.DecimalString: states only that the id's clock part is a non-empty digit string, not that it is the decimal value of the clock reading.
- App.Storefront.SelectNormalColor and App.Storefront.SelectDoubleStrandColor require what the rendered page guarantees: a product is shown, and the colour is one of its swatches. The underlying `Customizing.Customizer` handlers require nothing.

## Findings

| source | as written | input that shows it | evidently intended | confidence | as-written member | corrected member |
|---|---|---|---|---|---|---|
| src/components/ProductCustomizer.tsx:40-41 | the selections live in a component that stays mounted, and showing or closing a product (src/App.tsx:116-118, src/App.tsx:480) never empties them | on Buzo Oversize pick double-strand "Beige", close, then open Bikini Verano: its double-strand quota is 0, the selection is `["Beige"]`, and no double-strand swatch is shown to remove it, so Bikini Verano cannot be added until "Beige" is removed on a product that shows it, or a commit on another product empties the selection (a commit on Falda Midi with `["Beige"]` plus two of its double-strand colours then emits "Beige", which Falda Midi does not offer as a double-strand colour, src/App.tsx:74) | showing a product starts with empty selections | not executed | `App.CarriedSelectionExample` | `App.Storefront.CustomizeProductFresh` |
