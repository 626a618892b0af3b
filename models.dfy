/**
 * The two response bodies the upstream rates API returns and the endpoints pass
 * through unchanged. Their JSON decoding is not part of this model.
 */
module Models {

  /** `RatesResponse`: the rates of `base` against other symbols on `date`. */
  datatype RatesResponse = RatesResponse(date: string, base: string, rates: map<string, real>)

  /** `ConversionResponse`: `amount` of `from` is worth `value` of `to` on `date`. */
  datatype ConversionResponse = ConversionResponse(date: string, from: string, to: string, amount: real, value: real)
}
