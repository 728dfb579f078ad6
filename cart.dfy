/**
 * The cart (classes Cart and CartProduct, src/js/script.js:373-573): an
 * ordered list of lines, each keeping price == priceSingle * amount, and
 * totals that update() recomputes from scratch. The DOM events that connect
 * them are direct calls here.
 */
module ShoppingCart {
  import opened Settings
  import opened JsNumber
  import opened Catalog
  import opened JsParseInt
  import opened AmountWidgets
  import opened Seqs

  /** The record prepareCartProduct builds and CartProduct.getData returns. */
  datatype CartProductData = CartProductData(
    id: string, name: string, amount: int, priceSingle: Number, price: Number, params: ParamsSummary)

  /** The line invariant: price == priceSingle * amount. */
  predicate WellPriced(d: CartProductData)
  {
    d.price == Times(d.priceSingle, Finite(d.amount))
  }

  predicate AllWellPriced(lines: seq<CartProductData>)
  {
    forall i :: 0 <= i < |lines| ==> WellPriced(lines[i])
  }

  lemma WellPricedAppend(lines: seq<CartProductData>, d: CartProductData)
    ensures AllWellPriced(lines) && WellPriced(d) ==> AllWellPriced(lines + [d])
  {
    if AllWellPriced(lines) && WellPriced(d) {
      forall i | 0 <= i < |lines| + 1 ensures WellPriced((lines + [d])[i]) {
        if i < |lines| { assert (lines + [d])[i] == lines[i]; }
      }
    }
  }

  // ----- the totals update() computes -----

  /** totalNumber: the sum of the lines' amounts. */
  function TotalNumber(lines: seq<CartProductData>): int
  {
    if lines == [] then 0
    else TotalNumber(lines[..|lines| - 1]) + lines[|lines| - 1].amount
  }

  /** subtotalPrice: the sum of the lines' prices, starting from 0. */
  function Subtotal(lines: seq<CartProductData>): Number
  {
    if lines == [] then Finite(0)
    else Plus(Subtotal(lines[..|lines| - 1]), lines[|lines| - 1].price)
  }

  lemma OneLine(lines: seq<CartProductData>)
    requires |lines| == 1
    ensures TotalNumber(lines) == lines[0].amount
    ensures Subtotal(lines) == Plus(Finite(0), lines[0].price)
  {
    assert lines[..0] == [];
  }

  /** The delivery fee: the default fee, or 0 when fewer than one item is in the cart. */
  function DeliveryFeeFor(totalNumber: int): (fee: int)
    ensures fee == 0 || fee == DefaultDeliveryFee
    ensures fee == 0 <==> totalNumber < 1
  {
    if totalNumber < 1 then 0 else DefaultDeliveryFee
  }

  lemma {:induction false} TotalNumberAppend(a: seq<CartProductData>, b: seq<CartProductData>)
    ensures TotalNumber(a + b) == TotalNumber(a) + TotalNumber(b)
    ensures Subtotal(a + b) == Plus(Subtotal(a), Subtotal(b))
  {
    if b == [] {
      AppendEmpty(a);
    } else {
      InitOfConcat(a, b);
      TotalNumberAppend(a, b[..|b| - 1]);
    }
  }

  /**
   * Taking line k out of the cart takes exactly its amount off totalNumber,
   * and its price off the subtotal (a NaN anywhere makes the sum NaN).
   */
  lemma TotalsWithoutLine(lines: seq<CartProductData>, k: nat)
    requires k < |lines|
    ensures TotalNumber(lines) == TotalNumber(lines[..k] + lines[k + 1..]) + lines[k].amount
    ensures Subtotal(lines) == Plus(Subtotal(lines[..k] + lines[k + 1..]), lines[k].price)
  {
    var before, after := lines[..k], lines[k + 1..];
    SplitAt(lines, k);
    TotalNumberAppend(before + [lines[k]], after);
    AppendOneLine(before, lines[k]);
    TotalNumberAppend(before, after);
    PlusSwap(Subtotal(before), lines[k].price, Subtotal(after));
  }

  lemma AppendOneLine(lines: seq<CartProductData>, d: CartProductData)
    ensures TotalNumber(lines + [d]) == TotalNumber(lines) + d.amount
    ensures Subtotal(lines + [d]) == Plus(Subtotal(lines), d.price)
  {
    TakeOfAppend(lines, d);
  }

  lemma PlusSwap(a: Number, x: Number, b: Number)
    ensures Plus(Plus(a, x), b) == Plus(Plus(a, b), x)
  {
  }

  /** The running sums of update() after one more line. */
  lemma TotalsStep(lines: seq<CartProductData>, i: int)
    requires 0 <= i < |lines|
    ensures TotalNumber(lines[..i + 1]) == TotalNumber(lines[..i]) + lines[i].amount
    ensures Subtotal(lines[..i + 1]) == Plus(Subtotal(lines[..i]), lines[i].price)
  {
    TakeOfTake(lines, i, i + 1);
  }

  /**
   * What update() leaves in totalNumber, subtotalPrice, the fee it shows and
   * totalPrice for the given lines.
   */
  ghost predicate AreTotals(lines: seq<CartProductData>, number: int, subtotal: Number, fee: int, total: Number)
  {
    && number == TotalNumber(lines)
    && subtotal == Subtotal(lines)
    && fee == DeliveryFeeFor(number)
    // subtotal + fee, written out: NaN stays NaN
    && total == (if subtotal.NaN? then NaN else Finite(subtotal.v + fee))
  }

  /** Totals of a single line with amount 0 and price 0: no item, no fee, a total of 0. */
  lemma ZeroedOnlyLine(lines: seq<CartProductData>, number: int, subtotal: Number, fee: int, total: Number)
    requires AreTotals(lines, number, subtotal, fee, total)
    requires |lines| == 1 && lines[0].amount == 0 && lines[0].price == Finite(0)
    ensures number == 0 && subtotal == Finite(0) && fee == 0 && total == Finite(0)
  {
    OneLine(lines);
  }

  /** The subtotal is NaN exactly when some line's price is NaN. */
  lemma {:induction false} SubtotalNaNIff(lines: seq<CartProductData>)
    ensures Subtotal(lines).NaN? <==> exists i :: 0 <= i < |lines| && lines[i].price.NaN?
  {
    if lines != [] {
      var init := lines[..|lines| - 1];
      SubtotalNaNIff(init);
      if exists i :: 0 <= i < |init| && init[i].price.NaN? {
        var i :| 0 <= i < |init| && init[i].price.NaN?;
        assert lines[i] == init[i];
      }
      if exists i :: 0 <= i < |lines| && lines[i].price.NaN? {
        var i :| 0 <= i < |lines| && lines[i].price.NaN?;
        if i < |init| { assert init[i] == lines[i]; }
      }
    }
  }

  /**
   * Amounts come from widgets, so they are never negative; then the fee is
   * charged exactly when some line has a positive amount. A cart whose lines
   * are all at amount 0 pays no delivery fee.
   */
  lemma {:induction false} FeeChargedIffSomeAmount(lines: seq<CartProductData>)
    requires forall i :: 0 <= i < |lines| ==> lines[i].amount >= 0
    ensures TotalNumber(lines) >= 0
    ensures DeliveryFeeFor(TotalNumber(lines))
         == if exists i :: 0 <= i < |lines| && lines[i].amount > 0 then DefaultDeliveryFee else 0
  {
    if lines != [] {
      var init := lines[..|lines| - 1];
      FeeChargedIffSomeAmount(init);
      if exists i :: 0 <= i < |init| && init[i].amount > 0 {
        var i :| 0 <= i < |init| && init[i].amount > 0;
        assert lines[i] == init[i];
      }
      if exists i :: 0 <= i < |lines| && lines[i].amount > 0 {
        var i :| 0 <= i < |lines| && lines[i].amount > 0;
        if i < |init| { assert init[i] == lines[i]; }
      }
    }
  }

  /** A line whose unit price is NaN keeps a NaN price at every amount, and so does the cart. */
  lemma NaNLinePoisonsTotals(lines: seq<CartProductData>, k: nat)
    requires k < |lines| && lines[k].priceSingle.NaN? && WellPriced(lines[k])
    ensures lines[k].price.NaN?
    ensures Subtotal(lines).NaN?
    ensures Plus(Subtotal(lines), Finite(DeliveryFeeFor(TotalNumber(lines)))).NaN?
  {
    SubtotalNaNIff(lines);
  }

  // ----- Array.prototype.indexOf and Array.prototype.splice -----

  /** `list.indexOf(x)`: the first index holding x, or -1. */
  function IndexOf<T(==)>(s: seq<T>, x: T): (r: int)
    ensures -1 <= r < |s|
    ensures r == -1 <==> x !in s
    ensures r >= 0 ==> s[r] == x && x !in s[..r]
  {
    if s == [] then -1
    else if s[0] == x then 0
    else
      var k := IndexOf(s[1..], x);
      assert k >= 0 ==> s[1..][..k] == s[1..k + 1] && s[..k + 1] == [s[0]] + s[1..k + 1];
      if k == -1 then -1 else k + 1
  }

  /**
   * What `list.splice(start, deleteCount)` leaves in the list (ECMA-262
   * section 23.1.3.31): a negative start counts from the end.
   */
  function Splice<T>(s: seq<T>, start: int, deleteCount: int): (r: seq<T>)
    ensures 0 <= start <= |s| && 0 <= deleteCount ==>
      r == s[..start] + s[if start + deleteCount < |s| then start + deleteCount else |s|..]
    ensures -|s| <= start < 0 && 0 <= deleteCount ==>
      r == s[..|s| + start] + s[if |s| + start + deleteCount < |s| then |s| + start + deleteCount else |s|..]
    ensures start < -|s| && 0 <= deleteCount ==> r == s[if deleteCount < |s| then deleteCount else |s|..]
    ensures start > |s| ==> r == s
    ensures deleteCount <= 0 ==> r == s
  {
    var len := |s|;
    var actualStart := if start < 0 then (if len + start < 0 then 0 else len + start)
                       else (if start < len then start else len);
    var actualDelete := if deleteCount < 0 then 0
                        else if deleteCount < len - actualStart then deleteCount else len - actualStart;
    s[..actualStart] + s[actualStart + actualDelete..]
  }

  /**
   * `list.splice(list.indexOf(x), 1)`: removes the first occurrence of x,
   * keeping the order of the others; when x is absent, indexOf gives -1 and
   * the LAST element is removed instead (nothing, when the list is empty).
   */
  function RemoveResult<T(==)>(s: seq<T>, x: T): (r: seq<T>)
    ensures x in s ==> r == s[..IndexOf(s, x)] + s[IndexOf(s, x) + 1..]
    ensures x !in s && s != [] ==> r == s[..|s| - 1]
    ensures s == [] ==> r == []
    ensures x in s && Distinct(s) ==> |r| == |s| - 1 && x !in r
  {
    var r := Splice(s, IndexOf(s, x), 1);
    if x in s && Distinct(s) then
      var k := IndexOf(s, x);
      assert x !in r by {
        forall i | 0 <= i < |r| ensures r[i] != x {
          if i < k { assert r[i] == s[i]; } else { assert r[i] == s[i + 1]; }
        }
      }
      r
    else r
  }

  /** The line objects' getData() records, in order. */
  function DataOf(ps: seq<CartProduct>): (r: seq<CartProductData>)
    reads ps
    ensures |r| == |ps|
  {
    if ps == [] then [] else DataOf(ps[..|ps| - 1]) + [ps[|ps| - 1].GetData()]
  }

  lemma {:induction false} DataOfAt(ps: seq<CartProduct>, i: int)
    requires 0 <= i < |ps|
    ensures DataOf(ps)[i] == ps[i].GetData()
  {
    if i < |ps| - 1 { DataOfAt(ps[..|ps| - 1], i); }
  }

  /** The records of all the lines but line k are those of the list without line k. */
  lemma DataOfWithout(ps: seq<CartProduct>, k: int)
    requires 0 <= k < |ps|
    ensures DataOf(ps[..k] + ps[k + 1..]) == DataOf(ps)[..k] + DataOf(ps)[k + 1..]
  {
    DataOfConcat(ps[..k], ps[k + 1..]);
    DataOfSplit(ps, k);
    AroundMiddle(DataOf(ps[..k]), ps[k].GetData(), DataOf(ps[k + 1..]));
  }

  lemma {:induction false} DataOfConcat(a: seq<CartProduct>, b: seq<CartProduct>)
    ensures DataOf(a + b) == DataOf(a) + DataOf(b)
  {
    if b == [] {
      AppendEmpty(a);
      AppendEmpty(DataOf(a));
    } else {
      var init, last := b[..|b| - 1], b[|b| - 1];
      InitOfConcat(a, b);
      DataOfConcat(a, init);
      ConcatAssoc(DataOf(a), DataOf(init), [last.GetData()]);
    }
  }

  /** The records around line k, and line k's own record. */
  lemma DataOfSplit(ps: seq<CartProduct>, k: nat)
    requires k < |ps|
    ensures DataOf(ps) == (DataOf(ps[..k]) + [ps[k].GetData()]) + DataOf(ps[k + 1..])
  {
    SplitAt(ps, k);
    DataOfConcat(ps[..k] + [ps[k]], ps[k + 1..]);
    DataOfAppend(ps[..k], ps[k]);
  }

  lemma DataOfAppend(ps: seq<CartProduct>, p: CartProduct)
    ensures DataOf(ps + [p]) == DataOf(ps) + [p.GetData()]
  {
    TakeOfAppend(ps, p);
  }

  /** No element occurs twice. */
  predicate Distinct<T(==)>(s: seq<T>)
  {
    forall i, j :: 0 <= i < j < |s| ==> s[i] != s[j]
  }

  lemma DistinctAppend<T>(s: seq<T>, x: T)
    requires Distinct(s) && x !in s
    ensures Distinct(s + [x])
  {
    var t := s + [x];
    forall i, j | 0 <= i < j < |t| ensures t[i] != t[j] {
      if j < |s| { assert t[i] == s[i] && t[j] == s[j]; }
    }
  }

  lemma RemoveKeepsDistinct<T>(s: seq<T>, x: T)
    requires Distinct(s)
    ensures Distinct(RemoveResult(s, x))
  {
    var r := RemoveResult(s, x);
    var k := if x in s then IndexOf(s, x) else |s| - 1;
    if s != [] {
      forall i, j | 0 <= i < j < |r| ensures r[i] != r[j] {
        var i' := if i < k then i else i + 1;
        var j' := if j < k then j else j + 1;
        assert r[i] == s[i'] && r[j] == s[j'];
      }
    }
  }

  /** What removing a line object does to the records of the lines. */
  lemma RemovedLines(ps: seq<CartProduct>, x: CartProduct)
    ensures x in ps ==>
      var k := IndexOf(ps, x);
      DataOf(RemoveResult(ps, x)) == DataOf(ps)[..k] + DataOf(ps)[k + 1..]
    ensures x !in ps && ps != [] ==> DataOf(RemoveResult(ps, x)) == DataOf(ps)[..|ps| - 1]
    ensures AllWellPriced(DataOf(ps)) ==> AllWellPriced(DataOf(RemoveResult(ps, x)))
  {
    if x in ps {
      var k := IndexOf(ps, x);
      DataOfWithout(ps, k);
      WellPricedDrop(DataOf(ps), k);
    } else if ps != [] {
      var k := |ps| - 1;
      TakeOfAppend(DataOf(ps[..k]), ps[k].GetData());
      WellPricedDrop(DataOf(ps), k);
      DropLastOnly(DataOf(ps));
    }
  }

  lemma WellPricedDrop(lines: seq<CartProductData>, k: int)
    requires 0 <= k < |lines|
    ensures AllWellPriced(lines) ==> AllWellPriced(lines[..k] + lines[k + 1..])
  {
    var r := lines[..k] + lines[k + 1..];
    if AllWellPriced(lines) {
      forall i | 0 <= i < |r| ensures WellPriced(r[i]) {
        if i < k { assert r[i] == lines[i]; } else { assert r[i] == lines[i + 1]; }
      }
    }
  }

  /** The records of the lines depend only on the line objects. */
  twostate lemma DataOfFramed(ps: seq<CartProduct>)
    requires forall i :: 0 <= i < |ps| ==> unchanged(ps[i])
    ensures DataOf(ps) == old(DataOf(ps))
  {
    if ps != [] {
      DataOfFramed(ps[..|ps| - 1]);
    }
  }

  /**
   * When line object k alone has changed, record k alone has. The caller
   * supplies the records around line k in the earlier state (DataOfSplit
   * there); k is a plain index, marked `new` as it needs no earlier state.
   */
  twostate lemma OneRecordChanged(ps: seq<CartProduct>, new k: nat)
    requires k < |ps|
    requires old(DataOf(ps)) == (old(DataOf(ps[..k])) + [old(ps[k].GetData())]) + old(DataOf(ps[k + 1..]))
    requires forall i :: 0 <= i < |ps| && i != k ==> unchanged(ps[i])
    ensures DataOf(ps) == old(DataOf(ps))[k := ps[k].GetData()]
  {
    var before, after := ps[..k], ps[k + 1..];
    FramedAround(ps, k);
    DataOfSplit(ps, k);
    UpdateMiddle(old(DataOf(before)), old(ps[k].GetData()), old(DataOf(after)), ps[k].GetData());
  }

  /** The records before and after an unchanged-around line k are unchanged. */
  twostate lemma FramedAround(ps: seq<CartProduct>, new k: nat)
    requires k < |ps|
    requires forall i :: 0 <= i < |ps| && i != k ==> unchanged(ps[i])
    ensures DataOf(ps[..k]) == old(DataOf(ps[..k]))
    ensures DataOf(ps[k + 1..]) == old(DataOf(ps[k + 1..]))
  {
    DataOfFramed(ps[..k]);
    DataOfFramed(ps[k + 1..]);
  }

  lemma WellPricedUpdate(lines: seq<CartProductData>, k: int, d: CartProductData)
    requires 0 <= k < |lines|
    ensures AllWellPriced(lines) && WellPriced(d) ==> AllWellPriced(lines[k := d])
  {
  }

  /** The loop of update(): the sums of the amounts and of the prices of the lines. */
  method SumLines(ps: seq<CartProduct>) returns (number: int, subtotal: Number)
    ensures number == TotalNumber(DataOf(ps)) && subtotal == Subtotal(DataOf(ps))
  {
    ghost var lines := DataOf(ps);
    number, subtotal := 0, Finite(0);
    var i := 0;
    while i < |ps|
      invariant 0 <= i <= |ps|
      invariant number == TotalNumber(lines[..i])
      invariant subtotal == Subtotal(lines[..i])
    {
      var product := ps[i];
      DataOfAt(ps, i);
      TotalsStep(lines, i);
      number := number + product.amount;
      subtotal := Plus(subtotal, product.price);
      i := i + 1;
    }
    TakeAll(lines);
  }

  /** A line of the cart (class CartProduct). */
  class CartProduct {
    const id: string
    const name: string
    var amount: int
    const params: ParamsSummary
    var price: Number
    const priceSingle: Number
    /** The line's own amount widget, shown with the line's amount. */
    const amountWidget: AmountWidget

    /** getData(): the line's fields as a record. */
    function GetData(): CartProductData
      reads this
    {
      CartProductData(id, name, amount, priceSingle, price, params)
    }

    /**
     * Copies the record built by prepareCartProduct, so that getData gives it
     * back unchanged, and creates the line's amount widget from the amount.
     */
    constructor (menuProduct: CartProductData)
      ensures GetData() == menuProduct
      ensures fresh(amountWidget) && amountWidget.Valid()
      ensures amountWidget.value == Clamp(menuProduct.amount)
    {
      id := menuProduct.id;
      name := menuProduct.name;
      amount := menuProduct.amount;
      params := menuProduct.params;
      price := menuProduct.price;
      priceSingle := menuProduct.priceSingle;
      ParseIntRoundTrip(menuProduct.amount);
      amountWidget := new AmountWidget(DecimalString(menuProduct.amount));
    }

    /**
     * A new input in the line's widget: setValue, whose 'updated' event runs
     * the handler below.
     */
    method ChangeAmount(raw: string)
      modifies this`amount, this`price, amountWidget
      ensures amountWidget.value == SetValueResult(old(amountWidget.value), raw)
      ensures amountWidget.Valid()
      ensures amount == amountWidget.value && WellPriced(GetData())
    {
      amountWidget.SetValue(raw);
      OnAmountUpdated();
    }

    /** The 'updated' handler of the line's widget: take its value and reprice the line. */
    method OnAmountUpdated()
      modifies this`amount, this`price
      ensures amount == amountWidget.value
      ensures price == Times(priceSingle, Finite(amount))
      ensures WellPriced(GetData())
    {
      amount := amountWidget.value;
      price := Times(priceSingle, Finite(amount));
    }
  }

  /** The body `sendOrder` posts; the key `adress` is spelled as the order server receives it. */
  datatype OrderPayload = OrderPayload(
    adress: string, phone: string, totalPrice: Number, subtotalPrice: Number,
    totalNumber: int, deliveryFee: int, products: seq<CartProductData>)

  class Cart {
    var products: seq<CartProduct>
    var totalNumber: int
    var subtotalPrice: Number
    /** The fee update() last wrote to the page (a local variable of update() in the source). */
    var deliveryFee: int
    var totalPrice: Number

    /** Every line object is in the cart once. */
    ghost predicate Valid()
      reads this
    {
      Distinct(products)
    }

    ghost function Lines(): seq<CartProductData>
      reads this`products, products
    {
      DataOf(products)
    }

    /** The totals are those update() computes from the current lines. */
    ghost predicate Consistent()
      reads this, products
    {
      TotalsOf(Lines())
    }

    /** The four totals are those of the given lines. */
    ghost predicate TotalsOf(lines: seq<CartProductData>)
      reads this`totalNumber, this`subtotalPrice, this`deliveryFee, this`totalPrice
    {
      AreTotals(lines, totalNumber, subtotalPrice, deliveryFee, totalPrice)
    }

    constructor ()
      ensures Valid() && products == [] && Consistent()
    {
      products := [];
      totalNumber, subtotalPrice, deliveryFee, totalPrice := 0, Finite(0), 0, Finite(0);
    }

    /** update(): recompute every total from the lines, from scratch. */
    method Update()
      modifies this`totalNumber, this`subtotalPrice, this`deliveryFee, this`totalPrice
      ensures Consistent()
    {
      ghost var lines := Lines();
      var number, subtotal := SumLines(products);
      var fee := DefaultDeliveryFee;
      if number < 1 {
        fee := 0;
      }
      var total := Plus(subtotal, Finite(fee));
      assert AreTotals(lines, number, subtotal, fee, total);
      // update() accumulates into the fields themselves; no one observes the partial sums.
      totalNumber, subtotalPrice, deliveryFee, totalPrice := number, subtotal, fee, total;
      assert TotalsOf(lines);
      DataOfFramed(products);
    }

    /**
     * The totals depend on the lines alone, so updating a cart whose totals
     * are up to date (a second update in a row) changes none of them.
     */
    method UpdateAgain()
      requires Consistent()
      modifies this`totalNumber, this`subtotalPrice, this`deliveryFee, this`totalPrice
      ensures Consistent()
      ensures totalNumber == old(totalNumber) && subtotalPrice == old(subtotalPrice)
      ensures deliveryFee == old(deliveryFee) && totalPrice == old(totalPrice)
    {
      Update();
    }

    /**
     * add(menuProduct): append a new line built from the record and update.
     * The new line's widget announces itself while it is created, and that
     * 'updated' event reaches the cart before the push: one more update.
     */
    method Add(menuProduct: CartProductData)
      requires Valid()
      modifies this
      ensures Valid() && Consistent()
      ensures |products| == |old(products)| + 1 && products[..|old(products)|] == old(products)
      ensures fresh(products[|products| - 1]) && fresh(products[|products| - 1].amountWidget)
      ensures products[|products| - 1].amountWidget.value == Clamp(menuProduct.amount)
      ensures Lines() == old(Lines()) + [menuProduct]
      ensures AllWellPriced(old(Lines())) && WellPriced(menuProduct) ==> AllWellPriced(Lines())
    {
      var line := new CartProduct(menuProduct);
      Update();
      var ps := products;
      DistinctAppend(ps, line);
      products := ps + [line];
      Update();
      DataOfFramed(ps);
      DataOfAppend(ps, line);
      WellPricedAppend(old(Lines()), menuProduct);
    }

    /**
     * remove(instance): `products.splice(products.indexOf(instance), 1)`, then
     * update. A line not in the cart makes indexOf -1, which removes the last line.
     */
    method Remove(instance: CartProduct)
      requires Valid()
      modifies this
      ensures products == RemoveResult(old(products), instance)
      ensures Valid() && Consistent()
      ensures instance in old(products) ==>
        var k := IndexOf(old(products), instance);
        Lines() == old(Lines())[..k] + old(Lines())[k + 1..]
      ensures instance !in old(products) && old(products) != [] ==>
        Lines() == old(Lines())[..|old(Lines())| - 1]
      ensures AllWellPriced(old(Lines())) ==> AllWellPriced(Lines())
    {
      var list := products;
      var productIndex := IndexOf(list, instance);
      RemovedLines(list, instance);
      RemoveKeepsDistinct(list, instance);
      products := Splice(list, productIndex, 1);
      Update();
      DataOfFramed(products);
    }

    /**
     * A change of a line's amount: the line's widget takes the new input,
     * the line's handler reprices the line, and the event reaches the cart,
     * which updates. Only that line changes.
     */
    method SetLineAmount(k: nat, raw: string)
      requires Valid() && k < |products|
      modifies this`totalNumber, this`subtotalPrice, this`deliveryFee, this`totalPrice
      modifies products[k], products[k].amountWidget
      ensures products[k].amountWidget.value == SetValueResult(old(products[k].amountWidget.value), raw)
      ensures products[k].amount == products[k].amountWidget.value
      ensures WellPriced(products[k].GetData())
      ensures Valid() && Consistent()
      ensures Lines() == old(Lines())[k := products[k].GetData()]
      ensures AllWellPriced(old(Lines())) ==> AllWellPriced(Lines())
    {
      var line := products[k];
      assert DataOf(products) == (DataOf(products[..k]) + [products[k].GetData()]) + DataOf(products[k + 1..]) by {
        DataOfSplit(products, k);
      }
      line.ChangeAmount(raw);
      Update();
      OneRecordChanged(products, k);
      WellPricedUpdate(old(Lines()), k, line.GetData());
    }

    /**
     * The body sendOrder posts. It is stringified before the lines are pushed
     * into `products`, so the posted list is empty, and its delivery fee is
     * always the default one, even when the cart charges none.
     */
    method SendOrder(address: string, phone: string) returns (body: OrderPayload)
      ensures body.adress == address && body.phone == phone && body.products == []
      ensures body.totalPrice == totalPrice && body.subtotalPrice == subtotalPrice
      ensures body.totalNumber == totalNumber && body.deliveryFee == DefaultDeliveryFee
      ensures Consistent() && totalNumber < 1 && subtotalPrice.Finite? ==>
        body.totalPrice != Plus(body.subtotalPrice, Finite(body.deliveryFee))
    {
      body := OrderPayload(address, phone, totalPrice, subtotalPrice, totalNumber, DefaultDeliveryFee, []);
    }
  }

  /** An empty cart with the record d added as its only line. */
  method OneLineOf(d: CartProductData) returns (cart: Cart, line: CartProduct)
    ensures fresh(cart) && fresh(line) && fresh(line.amountWidget)
    ensures cart.Valid() && cart.products == [line]
    ensures line.amountWidget.value == Clamp(d.amount)
  {
    cart := new Cart();
    assert cart.Lines() == [];
    cart.Add(d);
    assert |cart.products| == 1;
    line := cart.products[0];
    Singleton(cart.products);
  }

  /**
   * A line added to an empty cart keeps its amount when its input receives
   * text that parseInt rejects: the widget keeps its value and the line's
   * handler writes that value back.
   */
  method UnparseableInputKeepsLine(d: CartProductData, raw: string) returns (cart: Cart)
    requires DefaultMin <= d.amount <= DefaultMax && ParseInt(raw).None?
    ensures cart.Valid() && cart.Consistent() && |cart.Lines()| == 1
    ensures cart.Lines()[0].amount == d.amount
  {
    var line;
    cart, line := OneLineOf(d);
    cart.SetLineAmount(0, raw);
    assert line.amountWidget.value == d.amount by {
      UnparseableKeepsValue(d.amount, raw);
    }
    assert cart.Lines()[0].amount == d.amount by {
      DataOfAt(cart.products, 0);
    }
  }

  /** Two lines, amounts 2 and 3 at 10 and 5 apiece: 5 items, 35 subtotal, 20 fee, 55 total. */
  lemma TwoLineExample(p: ParamsSummary)
    ensures var lines := [CartProductData("a", "A", 2, Finite(10), Finite(20), p),
                          CartProductData("b", "B", 3, Finite(5), Finite(15), p)];
            && AllWellPriced(lines)
            && TotalNumber(lines) == 5 && Subtotal(lines) == Finite(35)
            && DeliveryFeeFor(TotalNumber(lines)) == 20
            && Plus(Subtotal(lines), Finite(DeliveryFeeFor(TotalNumber(lines)))) == Finite(55)
  {
    var lines := [CartProductData("a", "A", 2, Finite(10), Finite(20), p),
                  CartProductData("b", "B", 3, Finite(5), Finite(15), p)];
    var first, second := [lines[0]], [lines[1]];
    assert lines == first + second;
    assert first[..0] == [] && second[..0] == [];
    OneLine(first);
    OneLine(second);
    TotalNumberAppend(first, second);
  }
}
