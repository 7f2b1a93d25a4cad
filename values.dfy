/**
 The values the data-preparation pipeline works on: rows as they come out of
 the CSV parser, JavaScript numbers as far as the pipeline distinguishes them,
 and the two truthiness tests (`||` and `&&` on strings and numbers).
 */
module Values {

  datatype Option<+T> = None | Some(value: T)

  /** A parsed CSV row: column name to cell text. */
  type Row = map<string, string>

  /**
   A JavaScript number as the pipeline sees it. Arithmetic is never done on
   these values; only their truthiness matters, so a finite value is kept as
   a real number (negative zero and zero are the same value here, and both
   are falsy in JavaScript).
   */
  datatype Number = Finite(value: real) | Infinity(negative: bool) | NaN

  /** The cell of `row` in `column`; the CSV parser gives "" for a missing cell. */
  function Field(row: Row, column: string): string {
    if column in row then row[column] else ""
  }

  /** A string is truthy exactly when it is not empty. */
  predicate TruthyString(s: string) {
    s != ""
  }

  /** A number is falsy exactly when it is zero or NaN. */
  predicate TruthyNumber(n: Number) {
    match n
    case Finite(v) => v != 0.0
    case Infinity(_) => true
    case NaN => false
  }
}
