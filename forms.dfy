/** A form field as the page reads it: its text, and the numbers JavaScript makes of
    that text. The conversions themselves (`Number`, `parseInt`) work on floating
    point and are not modelled; their outcomes are carried with the text. */
module Forms {

  /** `Number(text)` (what a relational comparison with a number converts to). */
  datatype Reading = NaN | Finite(value: real)

  /** `parseInt(text)`. */
  datatype IntReading = NoInt | Int(value: int)

  datatype Entry = Entry(text: string, number: Reading, integer: IntReading)

  /** A field is truthy exactly when its text is non-empty. */
  predicate Filled(e: Entry) {
    e.text != ""
  }

  /** `x > 0` on the field: false for NaN. */
  predicate Positive(e: Entry) {
    e.number.Finite? && e.number.value > 0.0
  }

  /** `x <= 0` on the field: false for NaN as well. */
  predicate NonPositive(e: Entry) {
    e.number.Finite? && e.number.value <= 0.0
  }

  /** `!parseInt(text)`: NaN and zero are both falsy. */
  predicate IntFalsy(e: Entry) {
    e.integer.NoInt? || e.integer.value == 0
  }
}
