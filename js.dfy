/**
 * The few JavaScript and browser conventions the stores rely on:
 * values that may be `null`, the truthiness of a string, and the single
 * `localStorage` key (`"token"`) that the session store and the HTTP client share.
 */
module Js {

  /** A value that may be `null` or `undefined` (`None`) or present (`Some`). */
  datatype Option<+T> = None | Some(value: T)

  /**
   * JavaScript truthiness of a `string | null` value, as used by `!!token`
   * and `if (token)`: `null` and the empty string are falsy, every other string is truthy.
   */
  predicate Truthy(s: Option<string>)
  {
    s.Some? && s.value != ""
  }

  /**
   * The `"token"` key of the browser's `localStorage`: `None` when the key is
   * absent (`getItem` answers `null`), otherwise the stored string.
   * One object is shared by every component that reads or writes the key.
   */
  class TokenStorage {
    var token: Option<string>

    constructor (initial: Option<string>)
      ensures token == initial
    {
      token := initial;
    }
  }
}
