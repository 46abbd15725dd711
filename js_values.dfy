/**
 * Values as the Express handlers of docker/hydra/index.js see them: a field of
 * a query string, a form body or a session may be missing (`undefined`), and
 * the handlers test fields by JavaScript truthiness.
 */
module JsValues {

  /** A value that may be missing. */
  datatype Option<+T> = None | Some(value: T) {
    /** The value, or `default` when missing (JavaScript `x || default` for an object). */
    function GetOr(default: T): T {
      if Some? then value else default
    }
  }

  /** JavaScript truthiness of an optional string: `undefined` and `""` are falsy. */
  predicate Truthy(o: Option<string>) {
    o.Some? && o.value != ""
  }

  /** `x || ''` on an optional string. */
  function OrEmpty(o: Option<string>): string {
    if Truthy(o) then o.value else ""
  }

  /**
   * How a template literal or `URLSearchParams` renders an optional string:
   * a missing value becomes the text "undefined".
   */
  function Text(o: Option<string>): string {
    if o.Some? then o.value else "undefined"
  }
}
