/** Optional values. Where the code treats `null` and `undefined` alike, both are `None`; `Js.Nullable` keeps them apart where it does not. */
module Wrappers {

  datatype Option<+T> = None | Some(value: T) {

    /** The value, or `default` when there is none (JavaScript's `x ?? default`). */
    function GetOr(default: T): T {
      match this
      case Some(v) => v
      case None => default
    }
  }
}

/** What a JavaScript call can end in: it returns (or its promise resolves) or it throws (or its promise rejects). */
module Js {

  import opened Wrappers

  /** A thrown `Error`; only its `message` is observable to the code modelled here. */
  datatype Error = Error(message: string)

  datatype Completion<+T> = Normal(value: T) | Threw(error: Error)

  /**
   * A JavaScript value that is a string or one of the two empty values: `undefined`
   * (a JSON field that is absent) and `null` (a JSON `null`, or what
   * `localStorage.getItem` returns for an absent key).
   */
  datatype Nullable = Undefined | Null | Str(value: string)

  /** `localStorage.getItem(key)`: the stored string, or `null` when the key is absent. */
  function FromStorage(stored: Option<string>): (r: Nullable)
    ensures r.Str? <==> stored.Some?
    ensures stored.Some? ==> r.value == stored.value
    ensures stored.None? ==> r == Null
  {
    match stored
    case Some(s) => Str(s)
    case None => Null
  }

  /** JavaScript truthiness of a string that may be empty: `!!s`. */
  predicate TruthyString(s: Nullable) {
    s.Str? && s.value != ""
  }

  /**
   * JavaScript's `String(x)`, which `localStorage.setItem`, `alert` and a template
   * literal apply: `undefined` and `null` become "undefined" and "null".
   */
  function StringOf(s: Nullable): (r: string)
    ensures s.Str? ==> r == s.value
    ensures s == Undefined ==> r == "undefined"
    ensures s == Null ==> r == "null"
  {
    match s
    case Str(v) => v
    case Undefined => "undefined"
    case Null => "null"
  }

  /** The header value `Bearer ${token}`. */
  function Bearer(token: Nullable): (h: string)
    ensures |h| >= 7 && h[..7] == "Bearer "
    ensures h[7..] == StringOf(token)
  {
    "Bearer " + StringOf(token)
  }
}
