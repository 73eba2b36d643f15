/**
 * Values shared by every part of the model: optional and fallible results,
 * the JavaScript truthiness rules the screens lean on (`x || fallback`,
 * `if (x)`), and the shape of the currency converter.
 */
module Common {

  /** A value that may be absent (`null` / `undefined` in the screens). */
  datatype Option<+T> = None | Some(value: T) {
    /** `x ?? fallback` */
    function GetOr(fallback: T): T {
      if Some? then value else fallback
    }
  }

  /** The outcome of a query or mutation: a value, or the error's message. */
  datatype Result<+T> = Ok(value: T) | Err(message: string)

  /** A nullable string is truthy when it is present and not empty. */
  predicate Truthy(s: Option<string>) {
    s.Some? && s.value != ""
  }

  /** A nullable number is truthy when it is present and not zero. */
  predicate TruthyNum(n: Option<int>) {
    n.Some? && n.value != 0
  }

  /** `s || fallback` on a nullable string. */
  function OrElse(s: Option<string>, fallback: string): string {
    if Truthy(s) then s.value else fallback
  }

  /** `s || null` on a form string: the empty string becomes null. */
  function NullIfEmpty(s: string): Option<string> {
    if s == "" then None else Some(s)
  }

  /**
   * The currency converter of the screens (`convertToINR(amount, code)`).
   * Its rate table is not part of this model, so every operation that
   * converts takes the converter as a parameter and nothing is assumed of it.
   */
  type Converter = (real, string) -> real

  /** The base currency every amount is converted to. */
  const BaseCurrency: string := "INR"
}
