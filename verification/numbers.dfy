/**
 * Prices, changes and percentages are never computed on by the dashboard or the
 * price table: they are shown as text and compared with zero. A number is therefore
 * kept as the text JavaScript or Python prints for it together with where it lies
 * relative to zero (NaN lies on neither side).
 */
module Numbers {

  datatype Sign = Negative | Zero | Positive | NotANumber

  /** An opaque number: how it prints, and how it compares with zero. */
  datatype Num = Num(text: string, sign: Sign) {
    /**
     * JavaScript truthiness of a number: 0 and NaN are falsy, every other number is
     * truthy, so a number is truthy exactly when `x > 0` or `x < 0` holds.
     */
    predicate Truthy(): (b: bool)
      ensures b <==> sign == Positive || sign == Negative
    {
      sign != Zero && sign != NotANumber
    }
  }
}
