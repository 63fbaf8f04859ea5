/**
 * The value of an `<input type="number">`: the browser hands the page
 * either an empty string or the text of a valid number.
 */
module NumberInput {
  datatype NumberInput = Blank | Number(value: real)
}
