/** The few JavaScript value semantics the site's logic relies on. */
module Js {

  datatype Option<+T> = None | Some(value: T) {
    function GetOr(default: T): T {
      match this
      case Some(v) => v
      case None => default
    }
  }

  /** Truthiness of a string: only the empty string is falsy. */
  predicate Truthy(s: string) {
    s != ""
  }

  /** `s.startsWith(prefix)`: Dafny's sequence-prefix relation. */
  predicate StartsWith(s: string, prefix: string) {
    prefix <= s
  }

  /** Reading a property of a plain string-valued object. A missing key
      reads as `undefined`, which is falsy and renders as nothing, so it
      is represented by "". */
  function Prop(obj: map<string, string>, key: string): string {
    if key in obj then obj[key] else ""
  }

  /** `({ ...obj, [key]: value })`: a copy of the object with one property set. */
  function Spread(obj: map<string, string>, key: string, value: string): (r: map<string, string>)
    ensures r.Keys == obj.Keys + {key}
    ensures Prop(r, key) == value
    ensures forall g :: g != key ==> Prop(r, g) == Prop(obj, g)
  {
    obj[key := value]
  }
}
