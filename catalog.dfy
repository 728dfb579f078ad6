/**
 * Product data as the menu receives it, and the form data serialized from a
 * product's order form. JavaScript objects that the code walks with for-in
 * are ordered lists of entries, in the order for-in visits their keys. The objects' `label`
 * property is the field `caption` here, `label` being a Dafny keyword.
 */
module Catalog {

  /** One own property of a JavaScript object: its key and its value. */
  datatype Entry<V> = Entry(id: string, value: V)

  /** An option of a category, e.g. { label: 'Olives', price: 2, default: true }. */
  datatype OptionData = OptionData(caption: string, price: int, isDefault: bool)

  /** A category (a "param"), e.g. { label: 'Toppings', options: { ... } }. */
  datatype ParamData = ParamData(caption: string, options: seq<Entry<OptionData>>)

  /** A product: its name, its base price (defaults included) and its categories. */
  datatype ProductData = ProductData(name: string, price: int, params: seq<Entry<ParamData>>)

  /**
   * utils.serializeFormToObject(form): category id to the option ids whose
   * inputs are checked or selected, e.g. { sauce: ['tomato'], toppings: ['olives'] }.
   */
  type FormData = map<string, seq<string>>

  /** A category of the cart summary: its label and the selected options' labels by id. */
  datatype ParamSummary = ParamSummary(caption: string, options: seq<Entry<string>>)

  /** prepareCartProductParams' result: category id to its summary. */
  type ParamsSummary = seq<Entry<ParamSummary>>
}
