# Pizzeria ordering widget: pricing, amount counter and cart

This project models the arithmetic core of a pizzeria's ordering page, which
exists twice in the repository: the monolithic `src/js/script.js` and the
component `src/js/components/Product.js`. It covers three parts.

- **The amount counter** (`AmountWidget`). `setValue` reads its input with the
  global `parseInt`, keeps the old value when that gives NaN, clamps the value
  into the global bounds 0..10 and announces an `updated` event on every call.
  The increase and decrease links call `setValue(value ± 1)`. `parseInt` is
  modelled after section 19.2.5 of ECMA-262, with the radix left undefined.
  Integer-to-text conversion comes with a proved round trip.
- **A product's price and selection summary** (`processOrder`,
  `prepareCartProduct`, `prepareCartProductParams`).
  - The unit price is the base price, plus every selected non-default option,
    minus every unselected default option.
  - The page shows the unit price times the amount.
  - `priceSingle` is that product divided by the amount again, so it is NaN at
    amount 0.
  - The summary lists every category with its label and the labels of its
    selected options.
  - Both versions of the product class are modelled. They share the loop
    methods in `Pricing`, which are proved equal to specification functions.
    The price formula is proved as two independent sums over all options.
- **The cart** (`Cart`, `CartProduct`). The cart keeps an ordered list of lines.
  - Every line keeps `price == priceSingle * amount`.
  - `update` recomputes the number of items, the subtotal, the delivery fee
    (20, or 0 below one item) and the total, from scratch.
  - `add` appends one line.
  - `remove` is `splice(indexOf(line), 1)`, so removing a line that is not in
    the cart removes the last line.

JavaScript numbers are `JsNumber.Number`: an integer or NaN. A NaN price
poisons the subtotal and the total. The for-in iteration over catalog
objects is modelled as ordered sequences of `Entry(id, value)`. The form's
state is a map from category id to the selected option ids. Events are
direct calls: a new input in the widget of line k is `Cart.SetLineAmount(k, raw)`, and the
product's cart button is `CartButtonClicked`.

The code differs from a plain reading of its intent in several places. The
model follows the code:

- Removing a line that is not in the cart is not a no-op: `indexOf` gives -1
  and `splice(-1, 1)` drops the last line.
- `priceSingle` is computed as `(unit * amount) / amount`, which is NaN at
  amount 0.
- The posted order is stringified before the lines are pushed into its
  `products`, so the posted list is empty.
- The posted `deliveryFee` is always 20, and the address key is spelled
  `adress`.
- The component `addToCart` stores the base price `data.price`, not the
  configured price.

## Model

| member | source | states |
|---|---|---|
| AmountWidgets.Clamp | src/js/script.js:336-341 | the result lies in 0..10, equals an in-range input, and is the nearer bound otherwise |
| AmountWidgets.AmountWidget.SetValue | src/js/script.js:327-345 | the value becomes the clamped parse of the input, or the clamped old value when parseInt gives NaN; the input shows the value as text; exactly one event is announced; the widget invariant holds |
| AmountWidgets.SetValueResult | src/js/script.js:330-341 | the value setValue leaves lies in 0..10; an in-range parse is taken as it is; when parseInt gives NaN the old value is clamped |
| AmountWidgets.UnparseableKeepsValue | src/js/script.js:330-335 | an input parseInt rejects leaves an in-range value unchanged |
| AmountWidgets.StepsStopAtBounds | src/js/script.js:353-360 | setValue(value + 1) at 10 and setValue(value - 1) at 0 change nothing |
| AmountWidgets.StepMovesByOne | src/js/script.js:353-360 | a step from an in-range value moves it by exactly one unless that leaves 0..10 |
| AmountWidgets.AmountWidget.constructor | src/js/script.js:308-316 | the widget starts at the clamped parse of its input text, or at the default value 1 when the text is empty, and has announced once |
| AmountWidgets.AmountWidget.Announce | src/js/script.js:363-370 | one more 'updated' event is dispatched |
| AmountWidgets.AmountWidget.Increment | src/js/script.js:357-360 | the value goes up by one below 10 and stays at 10; one event is announced |
| AmountWidgets.AmountWidget.Decrement | src/js/script.js:353-356 | the value goes down by one above 0 and stays at 0; one event is announced |
| JsParseInt.TrimStartDropsWhiteSpace | src/js/script.js:330 | parseInt drops exactly the leading white space and line terminators: the rest is a suffix that starts with neither |
| JsParseInt.ParseInt | src/js/script.js:330 | parseInt with the radix undefined: trim the leading white space, take one sign, switch to base 16 after "0x", read the longest digit run, NaN when it is empty; its properties are the lemmas below |
| JsParseInt.DecimalString | src/js/script.js:343-360 | the text of an integer (ToString), which setValue writes into the input and parseInt receives for value ± 1; it never starts with white space, and ParseIntRoundTrip reads it back |
| JsParseInt.ParseIntDecimalPrefix | src/js/script.js:330 | parseInt reads back any integer's decimal text when the text after it does not start with a digit and, after a lone "0", does not start with the "x" or "X" of a hexadecimal prefix |
| JsParseInt.ParseIntRoundTrip | src/js/script.js:355-359 | parseInt(String(n)) == n, so setValue(value ± 1) receives value ± 1 |
| JsParseInt.ParseIntSkipsWhiteSpace | src/js/script.js:330 | leading white space never changes what parseInt reads |
| JsParseInt.ParseIntRejectsNonDigit | src/js/script.js:330-335 | text whose first character after the white space and an optional sign is neither a digit, a sign nor white space is NaN |
| JsParseInt.ParseIntRejectsAfterSign | src/js/script.js:330-335 | text whose sign is not followed by a digit ("- 5", "+-1") is NaN |
| JsNumber.MulDivCancel | src/js/script.js:241-244 | for a nonzero amount, (u * amount) / amount is exactly u |
| Pricing.PriceSingleOf | src/js/script.js:241-244 | priceSingle is the unit price when the amount is not 0, and NaN (0 / 0) when it is |
| Pricing.ComputeUnitPrice | src/js/script.js:197-226 | the nested loops over categories and options give UnitPrice of the product and the form |
| Pricing.OptionsDeltaFormula | src/js/script.js:206-226 | within one category the change is the sum over selected non-default options minus the sum over unselected default ones |
| Pricing.ParamsDeltaFormula | src/js/components/Product.js:108-139 | over all categories the change is the sum over selected non-default options minus the sum over unselected default ones |
| Pricing.UnitPriceFormula | src/js/script.js:197-226 | unit price = base price + the selected non-default options − the unselected default options |
| Pricing.SameSelectionSamePrice | src/js/script.js:211 | two forms that select the same catalog options give the same price change and the same summary |
| Pricing.UnknownCategoryIgnored | src/js/script.js:200-202 | form entries for a category the product does not have change neither the price nor the summary |
| Pricing.UnknownOptionIgnored | src/js/script.js:206-211 | selecting an option id the category does not list changes neither the price nor the summary |
| Pricing.MissingCategoryDropsDefaults | src/js/components/Product.js:123-139 | a category with no key in the form counts as unselected: its defaults are subtracted and its summary is empty |
| Pricing.CollectParams | src/js/components/Product.js:192-226 | the loops of prepareCartProductParams build ParamsSummaryOf of the form and the categories |
| Pricing.SelectedOptionsExact | src/js/script.js:290-300 | an id and label appear in a category's summary exactly when the catalog lists that option with that label and the form selects it |
| Pricing.SummaryListsEveryCategory | src/js/script.js:279-288 | the summary has one entry per category, in order, under the category's id and label, with its selected options |
| ShoppingCart.DeliveryFeeFor | src/js/script.js:450-462 | the fee is either 0 or the default fee of 20, and it is 0 exactly when the cart holds fewer than one item |
| ShoppingCart.TotalNumberAppend | src/js/script.js:455-458 | the item count and the subtotal of two runs of lines add up |
| ShoppingCart.TotalsWithoutLine | src/js/script.js:488-495 | taking line k out takes exactly its amount off the count and its price off the subtotal |
| ShoppingCart.SubtotalNaNIff | src/js/script.js:455-458 | the subtotal is NaN exactly when some line's price is NaN |
| ShoppingCart.FeeChargedIffSomeAmount | src/js/script.js:450-462 | with non-negative amounts, the fee is 20 exactly when some line has a positive amount, so a cart of zero-amount lines pays none |
| ShoppingCart.NaNLinePoisonsTotals | src/js/script.js:455-464 | a well-priced line with a NaN priceSingle makes its price, the subtotal and the total NaN |
| ShoppingCart.ZeroedOnlyLine | src/js/script.js:447-464 | totals of a cart whose only line has amount 0 and price 0: no item, a subtotal of 0, no fee and a total of 0 |
| ShoppingCart.UnparseableInputKeepsLine | src/js/script.js:545-549 | a line added to an empty cart with an amount in 0..10 keeps that amount when its input receives text parseInt rejects |
| ShoppingCart.TwoLineExample | src/js/script.js:447-464 | lines of 2 × 10 and 3 × 5 give 5 items, subtotal 35, fee 20 and total 55 |
| ShoppingCart.IndexOf | src/js/script.js:492 | indexOf gives -1 exactly for an absent element, and otherwise the first index that holds it |
| ShoppingCart.Splice | src/js/script.js:493 | splice(start, deleteCount) as ECMA-262 defines it: a negative start counts from the end, both are clamped to the array, the block they name is removed and the rest keeps its order; a count of 0 or less removes nothing |
| ShoppingCart.RemoveResult | src/js/script.js:491-493 | splice(indexOf(x), 1) drops the first occurrence of a present x and keeps the others in order; for an absent x it drops the last element |
| ShoppingCart.CartProduct.GetData | src/js/script.js:526-538 | the record of the line's current id, name, amount, priceSingle, price and params; the line constructor proves it gives back the record the line was made from |
| ShoppingCart.CartProduct.constructor | src/js/script.js:499-512 | getData gives back exactly the record the line was built from; the line's widget shows the clamped amount |
| ShoppingCart.CartProduct.ChangeAmount | src/js/script.js:545-549 | the line's widget takes the value setValue computes from the input, and the line's amount and price follow it, so the line is well priced |
| ShoppingCart.CartProduct.OnAmountUpdated | src/js/script.js:545-549 | the line takes the widget's amount and its price becomes priceSingle times it, so the line is well priced again |
| ShoppingCart.Cart.constructor | src/js/script.js:374-381 | a new cart is empty and its totals agree with its (no) lines |
| ShoppingCart.SumLines | src/js/script.js:455-458 | the loop of update() over the line objects yields the item count and the subtotal of their records, as TotalNumber and Subtotal define them |
| ShoppingCart.Cart.Update | src/js/script.js:447-473 | the count, subtotal, fee and total are those computed from the current lines |
| ShoppingCart.Cart.UpdateAgain | src/js/script.js:447-464 | an update of a cart whose totals are up to date changes none of them |
| ShoppingCart.Cart.Add | src/js/script.js:475-486 | one fresh line with a fresh widget showing the clamped amount is appended at the end carrying the given record; earlier lines are untouched; the totals are updated; well-priced lines stay well priced |
| ShoppingCart.Cart.Remove | src/js/script.js:488-495 | the list becomes RemoveResult: a present line is dropped with the others in order, an absent one drops the last line; totals updated |
| ShoppingCart.Cart.SetLineAmount | src/js/script.js:407-409 | line k's widget takes the new input, the line's amount follows it and its price becomes priceSingle times the new amount; the records become the old ones with record k alone replaced by the line's new record; the totals are updated; well-priced lines stay well priced |
| ShoppingCart.Cart.SendOrder | src/js/script.js:419-445 | the posted body carries the cart's totals, a fee of 20 and no lines, so for a cart without items its total is not its subtotal plus its fee |
| MenuProduct.Product.constructor | src/js/script.js:100-111 | a new product has its id, data and form, a fresh widget that starts at the clamped parseInt of its input text (1 when that text is empty), and the state processOrder leaves |
| MenuProduct.Product.ProcessOrder | src/js/script.js:188-248 | the shown price is the unit price times the amount; priceSingle is the unit price, or NaN at amount 0 |
| MenuProduct.Product.SelectOptions | src/js/script.js:169-180 | after a form change the shown price and priceSingle follow the new selection |
| MenuProduct.Product.ChangeAmount | src/js/script.js:113-120 | after an amount change the widget holds setValue's result and the prices follow it |
| MenuProduct.Product.PrepareCartProductParams | src/js/script.js:270-304 | the summary of the current selection, one entry per category |
| MenuProduct.Product.PrepareCartProduct | src/js/script.js:256-268 | the record carries id, name, the widget's amount, priceSingle and priceSingle × amount, so it is well priced; after processOrder its price is unit × amount, NaN at amount 0 |
| MenuProduct.Product.AddToCart | src/js/script.js:250-254 | the cart gains exactly that record as its last line, on a fresh line object with a fresh widget that shows the clamped amount |
| MenuProduct.Product.CartButtonClicked | src/js/script.js:181-185 | the cart gains one fresh line at the end, whose widget shows the product's amount, with priceSingle the unit price of the current selection and price unit × amount (NaN at amount 0); earlier lines are unchanged |
| MenuProduct.ZeroedLineScenario | src/js/script.js:447-464 | a product whose widget starts at 1..10 is added to an empty cart and its line is then set to 0: the line's price is 0, the cart counts no item, charges no delivery fee and totals 0 |
| ComponentProduct.Product.constructor | src/js/components/Product.js:6-19 | a new product has its id, data and form, a fresh widget that starts at the clamped parseInt of its input text (1 when that text is empty), the state processOrder leaves, and no name, amount or price yet |
| ComponentProduct.Product.ProcessOrder | src/js/components/Product.js:99-161 | the shown price is the unit price times the amount; priceSingle is the unit price, or NaN at amount 0 |
| ComponentProduct.Product.SelectOptions | src/js/components/Product.js:78-90 | after a form change the shown price and priceSingle follow the new selection |
| ComponentProduct.Product.ChangeAmount | src/js/components/Product.js:21-28 | after an amount change the widget holds setValue's result and the prices follow it |
| ComponentProduct.Product.AddToCart | src/js/components/Product.js:163-176 | stores the name, the widget's amount and the base price, which differs from the configured unit price whenever options change it; one event is dispatched |
| ComponentProduct.Product.CartButtonClicked | src/js/components/Product.js:92-96 | the prices are refreshed, then the name, amount and base price are stored |
| ComponentProduct.Product.PrepareCartProductParams | src/js/components/Product.js:192-226 | the summary of the current selection, one entry per category |
| ComponentProduct.Product.PrepareCartProduct | src/js/components/Product.js:178-190 | the record carries id, name, the widget's amount, priceSingle and priceSingle × amount, so it is well priced; after processOrder its price is unit × amount, NaN at amount 0 |

## Left out

- Rendering is left out: Handlebars templates, `querySelector` lookups,
  `innerHTML` writes, option images, the accordion and the cart's open/close
  toggle. The price a product shows is kept as `displayedPrice`. The cart's
  displayed totals are its fields.
- Custom events and their bubbling are replaced by direct calls, as described
  above. `CartProduct.remove` only dispatches an event, so it appears as
  `Cart.Remove`. The listener of the component's `add-to-cart` event is not
  part of this model; the event is counted.
- The network is left out. `initData`'s fetch is not modelled. `SendOrder`
  returns the body it would post instead of posting it.
- The `app` bootstrap object and `src/js/components/Bookings.js` are left out.
  Bookings.js only renders a template and creates two widgets.
- `utils.serializeFormToObject` is not part of this model. The form's state is
  the `form` map, and an option counts as selected when its id is in the list
  under its category's id.
- The component `AmountWidget.js` is not part of this model. Both product
  classes use the widget of `script.js`.
- Floating point is left out. Prices and amounts are integers. Division only
  occurs as `(unit * amount) / amount`, which is exact or `0 / 0`.
- Number-to-text conversion covers integers only; the exponent form for
  magnitudes of 1e21 and above is not modelled. Widget values stay within 0..11
  in magnitude.
- AmountWidgets.AmountWidget.constructor: requires the input's initial text to
  be empty or to start with a number. Otherwise the source would leave the
  value undefined, and that state is not modelled.
- MenuProduct.Product.constructor: requires the same of the widget's initial
  text, for the same reason.
- ComponentProduct.Product.constructor: requires the same of the widget's
  initial text, for the same reason.
- ShoppingCart.CartProduct.constructor: assumes the cart-line template writes
  the line's amount as the widget input's text, since the template is not part
  of this model.
- ShoppingCart.Cart.constructor: the totals start at 0. In the source they are
  undefined until the first update.
- ShoppingCart.Cart.Update: sums into local variables (in `SumLines`) and
  writes the fields once. The source sums in the fields themselves, and no one observes the
  partial sums.
- ShoppingCart.Cart.Add, ShoppingCart.Cart.Remove, ShoppingCart.Cart.SetLineAmount: require `Valid()`, meaning
  no line object is in the list twice. The source does not check this. Every
  cart operation keeps it, because `add` only pushes new objects.
- ShoppingCart.Cart.Add: includes the extra update that the new line's widget
  triggers before the push. Its `updated` event bubbles to the cart's list,
  which already holds the line's DOM. That update is harmless because
  `update` starts from scratch.
