/** The constants of the `settings` object that the core reads (src/js/script.js:71-81). */
module Settings {
  /** Value a widget starts from when its input is empty. */
  const DefaultValue: int := 1
  /** Lower bound of every amount widget. */
  const DefaultMin: int := 0
  /** Upper bound of every amount widget. */
  const DefaultMax: int := 10
  /** Flat delivery fee of a cart holding at least one item. */
  const DefaultDeliveryFee: int := 20
}
