/**
 * The record model: one purchase per imported line, and the two library parsers
 * that turn its text fields into typed values.
 */
module Records {
  import opened Results

  /** An instant on the time line, as `java.util.Date` holds it (milliseconds since the epoch). */
  datatype Date = Date(epochMillis: int)

  /**
   * A purchase: name, amount and date, built without any validation of its own.
   * Amounts are exact reals; Java's `double` rounding is not part of this model.
   */
  datatype Purchase = Purchase(name: string, amount: real, date: Date)

  /**
   * `Double.parseDouble` and the `dd-MM-yyyy` `SimpleDateFormat.parse` as partial
   * functions: `None` stands for the `NumberFormatException`, respectively the
   * `ParseException`, that the library throws. Which strings they accept is the
   * library's business and is left open.
   */
  datatype Parsers = Parsers(parseAmount: string -> Option<real>, parseDate: string -> Option<Date>)
}
