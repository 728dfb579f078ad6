/**
 * A product of the menu in src/js/script.js (class Product, lines 99-305):
 * its order form, its amount widget, the price it shows and the record it
 * hands to the cart. The form's inputs and the widget's events are direct
 * calls here: a change of the form is SelectOptions, a change of the amount
 * is ChangeAmount, and both end in processOrder as in the source.
 */
module MenuProduct {
  import opened Wrappers
  import opened Settings
  import opened JsNumber
  import opened JsParseInt
  import opened Catalog
  import opened Pricing
  import opened AmountWidgets
  import opened ShoppingCart
  import opened Seqs

  class Product {
    const id: string
    const data: ProductData
    const amountWidget: AmountWidget
    /** What serializeFormToObject reads from the product's form: category id to selected option ids. */
    var form: FormData
    /** thisProduct.priceSingle */
    var priceSingle: Number
    /** The price processOrder writes into the product's price element. */
    var displayedPrice: int

    /**
     * The state processOrder leaves behind: the shown price is the unit price
     * of the selection times the amount, and priceSingle divides it back.
     */
    ghost predicate Valid()
      reads this, amountWidget
    {
      && amountWidget.Valid()
      && displayedPrice == UnitPrice(data, form) * amountWidget.value
      && priceSingle == PriceSingleOf(UnitPrice(data, form), amountWidget.value)
    }

    /**
     * new Product(id, data): builds the amount widget from the text of its
     * input, then runs processOrder once.
     */
    constructor (id: string, data: ProductData, form: FormData, widgetText: string)
      requires widgetText == "" || ParseInt(widgetText).Some?
      ensures this.id == id && this.data == data && this.form == form
      ensures fresh(amountWidget) && Valid()
      ensures amountWidget.value == Clamp(ParseInt(if widgetText == "" then DecimalString(DefaultValue) else widgetText).value)
    {
      this.id := id;
      this.data := data;
      this.form := form;
      priceSingle, displayedPrice := NaN, 0;
      amountWidget := new AmountWidget(widgetText);
      new;
      ProcessOrder();
    }

    /**
     * processOrder(): the unit price of the selection from the nested loops,
     * times the widget's amount, then priceSingle as that product divided
     * by the amount again.
     */
    method ProcessOrder()
      requires amountWidget.Valid()
      modifies this`priceSingle, this`displayedPrice
      ensures Valid()
      ensures displayedPrice == UnitPrice(data, form) * amountWidget.value
      ensures amountWidget.value != 0 ==> priceSingle == Finite(UnitPrice(data, form))
      ensures amountWidget.value == 0 ==> priceSingle.NaN?
    {
      var price := ComputeUnitPrice(data, form);
      var amount := amountWidget.value;
      if amount != 0 {
        MulDivCancel(price, amount);
      }
      price := price * amount;
      priceSingle := Quotient(Finite(price), Finite(amount));
      displayedPrice := price;
    }

    /** A change of the form's inputs (or a submit): new selections, then processOrder. */
    method SelectOptions(newForm: FormData)
      requires amountWidget.Valid()
      modifies this`form, this`priceSingle, this`displayedPrice
      ensures form == newForm && Valid()
    {
      form := newForm;
      ProcessOrder();
    }

    /**
     * A change of the widget's input: setValue, whose 'updated' event makes
     * the product run processOrder.
     */
    method ChangeAmount(raw: string)
      requires amountWidget.Valid()
      modifies amountWidget, this`priceSingle, this`displayedPrice
      ensures amountWidget.value == SetValueResult(old(amountWidget.value), raw)
      ensures Valid()
    {
      amountWidget.SetValue(raw);
      ProcessOrder();
    }

    /** prepareCartProductParams(): every category with its label and its selected options. */
    method PrepareCartProductParams() returns (params: ParamsSummary)
      ensures params == ParamsSummaryOf(form, data.params)
      ensures |params| == |data.params|
    {
      SummaryListsEveryCategory(form, data.params);
      params := CollectParams(data, form);
    }

    /**
     * prepareCartProduct(): the record for the cart. Its price is
     * priceSingle times the amount, so the line is well priced; after
     * processOrder it is the unit price times the amount, and NaN at amount 0.
     */
    method PrepareCartProduct() returns (summary: CartProductData)
      ensures summary == CartProductData(id, data.name, amountWidget.value, priceSingle,
                                         Times(priceSingle, Finite(amountWidget.value)),
                                         ParamsSummaryOf(form, data.params))
      ensures WellPriced(summary)
      ensures Valid() && amountWidget.value != 0 ==>
        summary.priceSingle == Finite(UnitPrice(data, form))
        && summary.price == Finite(UnitPrice(data, form) * amountWidget.value)
      ensures Valid() && amountWidget.value == 0 ==> summary.price.NaN?
    {
      var params := PrepareCartProductParams();
      summary := CartProductData(id, data.name, amountWidget.value, priceSingle,
                                 Times(priceSingle, Finite(amountWidget.value)), params);
    }

    /** addToCart(): `app.cart.add(prepareCartProduct())`; the cart is a parameter here. */
    method AddToCart(cart: Cart)
      requires cart.Valid()
      modifies cart
      ensures cart.Valid() && cart.Consistent()
      ensures cart.Lines() == old(cart.Lines())
                + [CartProductData(id, data.name, amountWidget.value, priceSingle,
                                   Times(priceSingle, Finite(amountWidget.value)),
                                   ParamsSummaryOf(form, data.params))]
      ensures |cart.products| == |old(cart.products)| + 1
      ensures cart.products[..|old(cart.products)|] == old(cart.products)
      ensures fresh(cart.products[|cart.products| - 1])
      ensures fresh(cart.products[|cart.products| - 1].amountWidget)
      ensures cart.products[|cart.products| - 1].amountWidget.value == Clamp(amountWidget.value)
    {
      var summary := PrepareCartProduct();
      cart.Add(summary);
    }

    /**
     * The click on the product's cart button: processOrder, then addToCart.
     * The new line is priced from the current selection: the unit price
     * times the amount, or NaN when the amount is 0.
     */
    method CartButtonClicked(cart: Cart)
      requires amountWidget.Valid() && cart.Valid()
      modifies this`priceSingle, this`displayedPrice, cart
      ensures Valid() && cart.Valid() && cart.Consistent()
      ensures |cart.Lines()| == |old(cart.Lines())| + 1
      ensures cart.Lines()[..|old(cart.Lines())|] == old(cart.Lines())
      ensures |cart.products| == |old(cart.products)| + 1
      ensures cart.products[..|old(cart.products)|] == old(cart.products)
      ensures fresh(cart.products[|cart.products| - 1])
      ensures fresh(cart.products[|cart.products| - 1].amountWidget)
      ensures cart.products[|cart.products| - 1].amountWidget.value == amountWidget.value
      ensures var line := cart.Lines()[|old(cart.Lines())|];
        && line.id == id && line.name == data.name && line.amount == amountWidget.value
        && line.priceSingle == PriceSingleOf(UnitPrice(data, form), amountWidget.value)
        && line.params == ParamsSummaryOf(form, data.params)
        && (amountWidget.value != 0 ==> line.price == Finite(UnitPrice(data, form) * amountWidget.value))
        && (amountWidget.value == 0 ==> line.price.NaN?)
    {
      ProcessOrder();
      AddToCart(cart);
    }
  }

  /** A product whose widget starts at n, put into an empty cart with one click. */
  method OneLineCart(id: string, data: ProductData, form: FormData, n: int) returns (cart: Cart, line: CartProduct)
    requires DefaultMin < n <= DefaultMax
    ensures fresh(cart) && fresh(line) && fresh(line.amountWidget)
    ensures cart.Valid() && cart.products == [line]
    ensures line.amount == n && line.priceSingle == Finite(UnitPrice(data, form))
  {
    ParseIntRoundTrip(n);
    var product := new Product(id, data, form, DecimalString(n));
    assert product.amountWidget.value == n;
    cart := new Cart();
    assert cart.Lines() == [];
    product.CartButtonClicked(cart);
    assert |cart.products| == 1;
    assert cart.Lines()[0].amount == n;
    assert cart.Lines()[0].priceSingle == PriceSingleOf(UnitPrice(data, form), n);
    line := cart.products[0];
    Singleton(cart.products);
    assert line.GetData() == cart.Lines()[0] by {
      DataOfAt(cart.products, 0);
    }
  }

  /**
   * A product whose widget starts at n goes into an empty cart, and then
   * that line's amount is set to 0: the cart counts no item, so it charges
   * no delivery fee, and its total is 0.
   */
  method ZeroedLineScenario(id: string, data: ProductData, form: FormData, n: int) returns (cart: Cart)
    requires DefaultMin < n <= DefaultMax
    ensures cart.Valid() && cart.Consistent() && |cart.Lines()| == 1
    ensures cart.Lines()[0].amount == 0 && cart.Lines()[0].price == Finite(0)
    ensures cart.totalNumber == 0 && cart.deliveryFee == 0 && cart.totalPrice == Finite(0)
  {
    var line;
    cart, line := OneLineCart(id, data, form, n);
    assert ParseInt(DecimalString(0)) == Some(0) by {
      ParseIntRoundTrip(0);
    }
    cart.SetLineAmount(0, DecimalString(0));
    assert line.amount == 0 && line.price == Finite(0);
    assert cart.Lines()[0] == line.GetData() by {
      DataOfAt(cart.products, 0);
    }
    ZeroedOnlyLine(cart.Lines(), cart.totalNumber, cart.subtotalPrice, cart.deliveryFee, cart.totalPrice);
  }
}
