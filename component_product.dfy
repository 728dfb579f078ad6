/**
 * The component version of a menu product (src/js/components/Product.js).
 * It prices the selection and builds the cart record exactly as the menu
 * product of src/js/script.js does, but its addToCart only copies the name,
 * the amount and the BASE price into fields of its own and announces an
 * 'add-to-cart' event; whoever listens to that event is not part of this model.
 */
module ComponentProduct {
  import opened Wrappers
  import opened Settings
  import opened JsNumber
  import opened JsParseInt
  import opened Catalog
  import opened Pricing
  import opened AmountWidgets
  import opened ShoppingCart

  class Product {
    const id: string
    const data: ProductData
    const amountWidget: AmountWidget
    /** What serializeFormToObject reads from the product's form. */
    var form: FormData
    var priceSingle: Number
    /** The price processOrder writes into the product's price element. */
    var displayedPrice: int
    /** thisProduct.name, thisProduct.amount and thisProduct.price: undefined until addToCart. */
    var name: Option<string>
    var amount: Option<int>
    var price: Option<int>
    /** How many 'add-to-cart' events the product has dispatched. */
    var addToCartEvents: nat

    ghost predicate Valid()
      reads this, amountWidget
    {
      && amountWidget.Valid()
      && displayedPrice == UnitPrice(data, form) * amountWidget.value
      && priceSingle == PriceSingleOf(UnitPrice(data, form), amountWidget.value)
    }

    constructor (id: string, data: ProductData, form: FormData, widgetText: string)
      requires widgetText == "" || ParseInt(widgetText).Some?
      ensures this.id == id && this.data == data && this.form == form
      ensures name == None && amount == None && price == None && addToCartEvents == 0
      ensures fresh(amountWidget) && Valid()
      ensures amountWidget.value == Clamp(ParseInt(if widgetText == "" then DecimalString(DefaultValue) else widgetText).value)
    {
      this.id := id;
      this.data := data;
      this.form := form;
      priceSingle, displayedPrice := NaN, 0;
      name, amount, price, addToCartEvents := None, None, None, 0;
      amountWidget := new AmountWidget(widgetText);
      new;
      ProcessOrder();
    }

    /** processOrder(): the same nested loops, product and division as in script.js. */
    method ProcessOrder()
      requires amountWidget.Valid()
      modifies this`priceSingle, this`displayedPrice
      ensures Valid()
      ensures displayedPrice == UnitPrice(data, form) * amountWidget.value
      ensures amountWidget.value != 0 ==> priceSingle == Finite(UnitPrice(data, form))
      ensures amountWidget.value == 0 ==> priceSingle.NaN?
    {
      var price := ComputeUnitPrice(data, form);
      var amount := amountWidget.value;
      if amount != 0 {
        MulDivCancel(price, amount);
      }
      price := price * amount;
      priceSingle := Quotient(Finite(price), Finite(amount));
      displayedPrice := price;
    }

    /** A change of the form's inputs (or a submit): new selections, then processOrder. */
    method SelectOptions(newForm: FormData)
      requires amountWidget.Valid()
      modifies this`form, this`priceSingle, this`displayedPrice
      ensures form == newForm && Valid()
    {
      form := newForm;
      ProcessOrder();
    }

    /** A change of the widget's input: setValue, then processOrder on its 'updated' event. */
    method ChangeAmount(raw: string)
      requires amountWidget.Valid()
      modifies amountWidget, this`priceSingle, this`displayedPrice
      ensures amountWidget.value == SetValueResult(old(amountWidget.value), raw)
      ensures Valid()
    {
      amountWidget.SetValue(raw);
      ProcessOrder();
    }

    /**
     * addToCart(): stores the name, the widget's amount and `data.price`,
     * the base price, which leaves out what the selected options add or
     * take away; then dispatches 'add-to-cart'.
     */
    method AddToCart()
      modifies this`name, this`amount, this`price, this`addToCartEvents
      ensures name == Some(data.name) && amount == Some(amountWidget.value)
      ensures price == Some(data.price)
      ensures addToCartEvents == old(addToCartEvents) + 1
      ensures Valid() && amountWidget.value != 0 && UnitPrice(data, form) != data.price ==>
        priceSingle != Finite(price.value)
    {
      name := Some(data.name);
      amount := Some(amountWidget.value);
      price := Some(data.price);
      addToCartEvents := addToCartEvents + 1;
    }

    /**
     * The click on the cart button: processOrder, then addToCart. The stored
     * price is the base price, not the price the product shows.
     */
    method CartButtonClicked()
      requires amountWidget.Valid()
      modifies this`priceSingle, this`displayedPrice, this`name, this`amount, this`price, this`addToCartEvents
      ensures Valid() && addToCartEvents == old(addToCartEvents) + 1
      ensures name == Some(data.name) && amount == Some(amountWidget.value) && price == Some(data.price)
      ensures displayedPrice == UnitPrice(data, form) * amountWidget.value
    {
      ProcessOrder();
      AddToCart();
    }

    /** prepareCartProductParams(): every category with its label and its selected options. */
    method PrepareCartProductParams() returns (params: ParamsSummary)
      ensures params == ParamsSummaryOf(form, data.params)
      ensures |params| == |data.params|
    {
      SummaryListsEveryCategory(form, data.params);
      params := CollectParams(data, form);
    }

    /** prepareCartProduct(): the record for the cart, priced as priceSingle times the amount. */
    method PrepareCartProduct() returns (summary: CartProductData)
      ensures summary == CartProductData(id, data.name, amountWidget.value, priceSingle,
                                         Times(priceSingle, Finite(amountWidget.value)),
                                         ParamsSummaryOf(form, data.params))
      ensures WellPriced(summary)
      ensures Valid() && amountWidget.value != 0 ==>
        summary.priceSingle == Finite(UnitPrice(data, form))
        && summary.price == Finite(UnitPrice(data, form) * amountWidget.value)
      ensures Valid() && amountWidget.value == 0 ==> summary.price.NaN?
    {
      var params := PrepareCartProductParams();
      summary := CartProductData(id, data.name, amountWidget.value, priceSingle,
                                 Times(priceSingle, Finite(amountWidget.value)), params);
    }
  }
}
