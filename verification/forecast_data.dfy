/**
 * Values shared by the forecast client and the condition evaluator: the
 * optional values of the configuration, a JSON field that may be missing or
 * null, one forecast period as the provider delivers it, and the rendering
 * helpers (title-casing and date formatting) that the model leaves
 * uninterpreted.
 */
module ForecastData {

  /** A configuration value that may be unset. */
  datatype Option<+T> = None | Some(value: T)

  /**
   * A field of a JSON object: the key may be missing, present with `null`,
   * or present with a value. Python's `dict.get` tells the first two apart
   * only when it is given a default.
   */
  datatype Field<+T> = Absent | Null | Present(value: T)

  /**
   * One daily forecast period. `dateTimeISO` and `weather` are always
   * present; the temperatures are JSON numbers that may be missing or null.
   */
  datatype Period = Period(dateTimeISO: string, weather: string, maxTempC: Field<real>, minTempC: Field<real>)

  /**
   * The library calls the model does not interpret: `str.title()` on the
   * location, and `datetime.fromisoformat(..).strftime(..)` with the long
   * format `%A, %b %d` (alerts) and the short format `%a, %b %d` (table rows).
   */
  datatype Formatting = Formatting(
    title: string -> string,
    longDate: string -> string,
    shortDate: string -> string)
}
