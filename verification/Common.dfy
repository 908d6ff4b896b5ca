/** Small shared vocabulary. */
module Common {

  datatype Option<+T> = None | Some(value: T)

  /** A JavaScript string that counts as true: there, and not empty. */
  predicate Truthy(s: Option<string>) {
    s.Some? && s.value != ""
  }

  function Front<T>(s: seq<T>): seq<T>
    requires s != []
  {
    s[..|s| - 1]
  }

  function Last<T>(s: seq<T>): T
    requires s != []
  {
    s[|s| - 1]
  }
}
