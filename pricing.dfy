/**
 * The price and the cart summary of a configured product, shared by
 * Product.processOrder and Product.prepareCartProductParams in
 * src/js/script.js and src/js/components/Product.js, which compute them the
 * same way: a specification as functions over the catalog, the formula it
 * obeys, and the nested loops of the source proved equal to it.
 */
module Pricing {
  import opened Catalog
  import opened JsNumber

  /** `formData[paramId] && formData[paramId].includes(optionId)` */
  predicate Selected(form: FormData, paramId: string, optionId: string)
  {
    paramId in form && optionId in form[paramId]
  }

  /** What one option changes in the base price, given whether it is selected. */
  function OptionDelta(selected: bool, option: OptionData): int
  {
    if selected then (if !option.isDefault then option.price else 0)
    else (if option.isDefault then -option.price else 0)
  }

  /** The change made by the options of one category, visited in order. */
  function OptionsDelta(form: FormData, paramId: string, options: seq<Entry<OptionData>>): int
  {
    if options == [] then 0
    else
      var last := options[|options| - 1];
      OptionsDelta(form, paramId, options[..|options| - 1])
        + OptionDelta(Selected(form, paramId, last.id), last.value)
  }

  /** The change made by all categories, visited in order. */
  function ParamsDelta(form: FormData, params: seq<Entry<ParamData>>): int
  {
    if params == [] then 0
    else
      var last := params[|params| - 1];
      ParamsDelta(form, params[..|params| - 1]) + OptionsDelta(form, last.id, last.value.options)
  }

  /** The price of one unit of the product configured by the form. */
  function UnitPrice(data: ProductData, form: FormData): int
  {
    data.price + ParamsDelta(form, data.params)
  }

  /**
   * `priceSingle = (unit * amount) / amount` as processOrder computes it:
   * the unit price, except at amount 0, where `0 / 0` is NaN.
   */
  function PriceSingleOf(unit: int, amount: int): (r: Number)
    ensures amount != 0 ==> r == Finite(unit)
    ensures amount == 0 ==> r == NaN
  {
    if amount == 0 then Quotient(Finite(unit * amount), Finite(amount))
    else MulDivCancel(unit, amount); Quotient(Finite(unit * amount), Finite(amount))
  }

  // ----- an independent statement of the price: two sums over all options -----

  /** An option together with the id of the category it belongs to. */
  datatype Choice = Choice(paramId: string, optionId: string, option: OptionData)

  function ChoicesOf(paramId: string, options: seq<Entry<OptionData>>): (cs: seq<Choice>)
    ensures |cs| == |options|
    ensures forall i :: 0 <= i < |cs| ==> cs[i] == Choice(paramId, options[i].id, options[i].value)
  {
    if options == [] then []
    else
      var last := options[|options| - 1];
      ChoicesOf(paramId, options[..|options| - 1]) + [Choice(paramId, last.id, last.value)]
  }

  /** Every (category, option) pair of the catalog, in visiting order. */
  function Choices(params: seq<Entry<ParamData>>): seq<Choice>
  {
    if params == [] then []
    else
      var last := params[|params| - 1];
      Choices(params[..|params| - 1]) + ChoicesOf(last.id, last.value.options)
  }

  /** Sum of the prices of the choices whose selection state and default flag are as given. */
  function PriceSum(cs: seq<Choice>, form: FormData, selected: bool, isDefault: bool): int
  {
    if cs == [] then 0
    else
      var last := cs[|cs| - 1];
      PriceSum(cs[..|cs| - 1], form, selected, isDefault)
        + (if Selected(form, last.paramId, last.optionId) == selected && last.option.isDefault == isDefault
           then last.option.price else 0)
  }

  lemma {:induction false} PriceSumAppend(a: seq<Choice>, b: seq<Choice>, form: FormData, selected: bool, isDefault: bool)
    ensures PriceSum(a + b, form, selected, isDefault)
         == PriceSum(a, form, selected, isDefault) + PriceSum(b, form, selected, isDefault)
  {
    if b == [] {
      assert a + b == a;
    } else {
      assert (a + b)[..|a + b| - 1] == a + b[..|b| - 1];
      PriceSumAppend(a, b[..|b| - 1], form, selected, isDefault);
    }
  }

  lemma {:induction false} OptionsDeltaFormula(form: FormData, paramId: string, options: seq<Entry<OptionData>>)
    ensures OptionsDelta(form, paramId, options)
         == PriceSum(ChoicesOf(paramId, options), form, true, false)
          - PriceSum(ChoicesOf(paramId, options), form, false, true)
  {
    if options != [] {
      var cs := ChoicesOf(paramId, options);
      assert cs[..|cs| - 1] == ChoicesOf(paramId, options[..|options| - 1]);
      OptionsDeltaFormula(form, paramId, options[..|options| - 1]);
    }
  }

  lemma {:induction false} ParamsDeltaFormula(form: FormData, params: seq<Entry<ParamData>>)
    ensures ParamsDelta(form, params)
         == PriceSum(Choices(params), form, true, false) - PriceSum(Choices(params), form, false, true)
  {
    if params != [] {
      var last := params[|params| - 1];
      var init := params[..|params| - 1];
      ParamsDeltaFormula(form, init);
      OptionsDeltaFormula(form, last.id, last.value.options);
      PriceSumAppend(Choices(init), ChoicesOf(last.id, last.value.options), form, true, false);
      PriceSumAppend(Choices(init), ChoicesOf(last.id, last.value.options), form, false, true);
    }
  }

  /**
   * Unit price = base price + the prices of the selected options that are not
   * default - the prices of the default options that are not selected.
   * Selected defaults and unselected non-defaults contribute nothing.
   */
  lemma UnitPriceFormula(data: ProductData, form: FormData)
    ensures UnitPrice(data, form)
         == data.price
          + PriceSum(Choices(data.params), form, true, false)
          - PriceSum(Choices(data.params), form, false, true)
  {
    ParamsDeltaFormula(form, data.params);
  }

  // ----- only the catalog's own ids matter -----

  /** The two forms select the same options among those the catalog lists. */
  ghost predicate SameSelection(f1: FormData, f2: FormData, params: seq<Entry<ParamData>>)
  {
    forall i, j :: 0 <= i < |params| && 0 <= j < |params[i].value.options| ==>
      Selected(f1, params[i].id, params[i].value.options[j].id)
        == Selected(f2, params[i].id, params[i].value.options[j].id)
  }

  lemma {:induction false} OptionsDeltaSameSelection(f1: FormData, f2: FormData, paramId: string, options: seq<Entry<OptionData>>)
    requires forall j :: 0 <= j < |options| ==> Selected(f1, paramId, options[j].id) == Selected(f2, paramId, options[j].id)
    ensures OptionsDelta(f1, paramId, options) == OptionsDelta(f2, paramId, options)
    ensures SelectedOptions(f1, paramId, options) == SelectedOptions(f2, paramId, options)
  {
    if options != [] {
      OptionsDeltaSameSelection(f1, f2, paramId, options[..|options| - 1]);
    }
  }

  /**
   * Price and summary depend on the form only through the catalog's own
   * (category, option) pairs, because the loops walk the catalog, not the form.
   */
  lemma {:induction false} SameSelectionSamePrice(f1: FormData, f2: FormData, params: seq<Entry<ParamData>>)
    requires SameSelection(f1, f2, params)
    ensures ParamsDelta(f1, params) == ParamsDelta(f2, params)
    ensures ParamsSummaryOf(f1, params) == ParamsSummaryOf(f2, params)
  {
    if params != [] {
      var n := |params| - 1;
      assert SameSelection(f1, f2, params[..n]) by {
        forall i, j | 0 <= i < n && 0 <= j < |params[..n][i].value.options|
          ensures Selected(f1, params[..n][i].id, params[..n][i].value.options[j].id)
               == Selected(f2, params[..n][i].id, params[..n][i].value.options[j].id)
        {
          assert params[..n][i] == params[i];
        }
      }
      SameSelectionSamePrice(f1, f2, params[..n]);
      OptionsDeltaSameSelection(f1, f2, params[n].id, params[n].value.options);
    }
  }

  /** A form entry for a category id that the product does not have changes nothing. */
  lemma UnknownCategoryIgnored(data: ProductData, form: FormData, paramId: string, optionIds: seq<string>)
    requires forall i :: 0 <= i < |data.params| ==> data.params[i].id != paramId
    ensures UnitPrice(data, form[paramId := optionIds]) == UnitPrice(data, form)
    ensures ParamsSummaryOf(form[paramId := optionIds], data.params) == ParamsSummaryOf(form, data.params)
  {
    SameSelectionSamePrice(form[paramId := optionIds], form, data.params);
  }

  /** An option id that the category does not list changes nothing when added to the form. */
  lemma UnknownOptionIgnored(data: ProductData, form: FormData, paramId: string, optionId: string)
    requires forall i, j :: 0 <= i < |data.params| && data.params[i].id == paramId && 0 <= j < |data.params[i].value.options|
               ==> data.params[i].value.options[j].id != optionId
    ensures var f := form[paramId := (if paramId in form then form[paramId] else []) + [optionId]];
            UnitPrice(data, f) == UnitPrice(data, form)
            && ParamsSummaryOf(f, data.params) == ParamsSummaryOf(form, data.params)
  {
    var f := form[paramId := (if paramId in form then form[paramId] else []) + [optionId]];
    SameSelectionSamePrice(f, form, data.params);
  }

  /** Sum of the prices of a category's default options. */
  function DefaultsTotal(options: seq<Entry<OptionData>>): int
  {
    if options == [] then 0
    else
      var last := options[|options| - 1];
      DefaultsTotal(options[..|options| - 1]) + (if last.value.isDefault then last.value.price else 0)
  }

  /** A category absent from the form counts as nothing selected: all its defaults are taken off. */
  lemma {:induction false} MissingCategoryDropsDefaults(form: FormData, paramId: string, options: seq<Entry<OptionData>>)
    requires paramId !in form
    ensures OptionsDelta(form, paramId, options) == -DefaultsTotal(options)
    ensures SelectedOptions(form, paramId, options) == []
  {
    if options != [] {
      MissingCategoryDropsDefaults(form, paramId, options[..|options| - 1]);
    }
  }

  // ----- the cart summary: prepareCartProductParams -----

  /** The selected options of one category, as id to label, in catalog order. */
  function SelectedOptions(form: FormData, paramId: string, options: seq<Entry<OptionData>>): seq<Entry<string>>
  {
    if options == [] then []
    else
      var last := options[|options| - 1];
      SelectedOptions(form, paramId, options[..|options| - 1])
        + (if Selected(form, paramId, last.id) then [Entry(last.id, last.value.caption)] else [])
  }

  /** Every category with its label and its selected options. */
  function ParamsSummaryOf(form: FormData, params: seq<Entry<ParamData>>): ParamsSummary
  {
    if params == [] then []
    else
      var last := params[|params| - 1];
      ParamsSummaryOf(form, params[..|params| - 1])
        + [Entry(last.id, ParamSummary(last.value.caption, SelectedOptions(form, last.id, last.value.options)))]
  }

  /**
   * An entry appears in a category's summary exactly when the catalog lists
   * an option with that id and label and the form selects it.
   */
  lemma {:induction false} SelectedOptionsExact(form: FormData, paramId: string, options: seq<Entry<OptionData>>, e: Entry<string>)
    ensures e in SelectedOptions(form, paramId, options)
        <==> Selected(form, paramId, e.id)
             && exists j :: 0 <= j < |options| && options[j].id == e.id && options[j].value.caption == e.value
  {
    if options != [] {
      var init := options[..|options| - 1];
      SelectedOptionsExact(form, paramId, init, e);
      if exists j :: 0 <= j < |init| && init[j].id == e.id && init[j].value.caption == e.value {
        var j :| 0 <= j < |init| && init[j].id == e.id && init[j].value.caption == e.value;
        assert options[j] == init[j];
      }
      if exists j :: 0 <= j < |options| && options[j].id == e.id && options[j].value.caption == e.value {
        var j :| 0 <= j < |options| && options[j].id == e.id && options[j].value.caption == e.value;
        if j < |init| { assert init[j] == options[j]; }
      }
    }
  }

  /** The summary lists every category of the product, in order, under its own id and label. */
  lemma {:induction false} SummaryListsEveryCategory(form: FormData, params: seq<Entry<ParamData>>)
    ensures |ParamsSummaryOf(form, params)| == |params|
    ensures forall i :: 0 <= i < |params| ==>
      var s := ParamsSummaryOf(form, params)[i];
      s.id == params[i].id && s.value.caption == params[i].value.caption
      && s.value.options == SelectedOptions(form, params[i].id, params[i].value.options)
  {
    if params != [] {
      SummaryListsEveryCategory(form, params[..|params| - 1]);
    }
  }

  // ----- the loops of processOrder and prepareCartProductParams -----

  /** processOrder's nested for-in loops over the categories and their options. */
  method ComputeUnitPrice(data: ProductData, form: FormData) returns (price: int)
    ensures price == UnitPrice(data, form)
  {
    price := data.price;
    var i := 0;
    while i < |data.params|
      invariant 0 <= i <= |data.params|
      invariant price == data.price + ParamsDelta(form, data.params[..i])
    {
      var param := data.params[i];
      var j := 0;
      while j < |param.value.options|
        invariant 0 <= j <= |param.value.options|
        invariant price == data.price + ParamsDelta(form, data.params[..i])
                         + OptionsDelta(form, param.id, param.value.options[..j])
      {
        var option := param.value.options[j];
        var optionSelected := param.id in form && option.id in form[param.id];
        if optionSelected {
          if !option.value.isDefault {
            price := price + option.value.price;
          }
        } else {
          if option.value.isDefault {
            price := price - option.value.price;
          }
        }
        assert param.value.options[..j + 1][..j] == param.value.options[..j];
        j := j + 1;
      }
      assert param.value.options[..j] == param.value.options;
      assert data.params[..i + 1][..i] == data.params[..i];
      i := i + 1;
    }
    assert data.params[..i] == data.params;
  }

  /** prepareCartProductParams' loops: one entry per category, filled with the selected options. */
  method CollectParams(data: ProductData, form: FormData) returns (params: ParamsSummary)
    ensures params == ParamsSummaryOf(form, data.params)
  {
    params := [];
    var i := 0;
    while i < |data.params|
      invariant 0 <= i <= |data.params|
      invariant params == ParamsSummaryOf(form, data.params[..i])
    {
      var param := data.params[i];
      var options: seq<Entry<string>> := [];
      var j := 0;
      while j < |param.value.options|
        invariant 0 <= j <= |param.value.options|
        invariant options == SelectedOptions(form, param.id, param.value.options[..j])
      {
        var option := param.value.options[j];
        var optionSelected := param.id in form && option.id in form[param.id];
        if optionSelected {
          options := options + [Entry(option.id, option.value.caption)];
        }
        assert param.value.options[..j + 1][..j] == param.value.options[..j];
        j := j + 1;
      }
      assert param.value.options[..j] == param.value.options;
      assert data.params[..i + 1][..i] == data.params[..i];
      params := params + [Entry(param.id, ParamSummary(param.value.caption, options))];
      i := i + 1;
    }
    assert data.params[..i] == data.params;
  }
}
