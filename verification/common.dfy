/**
 * Vocabulary shared by both snapshots of the storefront: fields that may be
 * missing from a JSON object, JavaScript truthiness of a stored string, and
 * the text `localStorage.setItem` writes for an undefined value.
 */
module Common {

  /** A field of a stored or received JSON object that may be missing
      (`undefined` in JavaScript). */
  datatype Option<T> = None | Some(value: T) {

    /** `x ?? default` */
    function GetOr(default: T): T {
      match this
      case Some(v) => v
      case None => default
    }
  }

  /** The checkout form's fields, passed on verbatim as `data`. */
  datatype Customer = Customer(name: string, email: string, phone: string, address: string)

  /** `localStorage.getItem(key)` is truthy: the key is present and its text is not empty. */
  predicate Truthy(v: Option<string>) {
    v.Some? && v.value != ""
  }

  /** The text `localStorage.setItem(key, v)` stores when `v` may be
      `undefined`: JavaScript converts `undefined` to "undefined". */
  function StoredText(v: Option<string>): string {
    v.GetOr("undefined")
  }

  /** `JSON.parse(localStorage.getItem(key)) || []`: an absent key reads as the empty list. */
  function ListOr<T>(v: Option<seq<T>>): seq<T> {
    v.GetOr([])
  }

  /** `Number(x || 0)` for an integer field that may be missing. */
  function OrZero(v: Option<int>): int {
    v.GetOr(0)
  }

  function Max(a: int, b: int): int {
    if a < b then b else a
  }

  /** Raising a line's quantity by `d` raises its amount by `d` times its price. */
  lemma Distribute(a: int, b: int, d: int)
    ensures a * (b + d) == a * b + a * d
  {
  }
}
