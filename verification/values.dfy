/** Optional request fields and JavaScript truthiness, shared by the server modules. */
module Values {

  /** A field of a request body or socket payload that may be absent (`undefined`). */
  datatype Option<T> = None | Some(value: T)

  /** `!!x` for an optional string: absent and the empty string are both falsy. */
  predicate Truthy(o: Option<string>)
  {
    o.Some? && o.value != ""
  }

  /** `x || fallback` for an optional string. */
  function OrElse(o: Option<string>, fallback: string): (r: string)
    ensures Truthy(o) ==> r == o.value
    ensures !Truthy(o) ==> r == fallback
    ensures r != "" || fallback == ""
  {
    if Truthy(o) then o.value else fallback
  }

  /** `timestamp || now` for an optional numeric timestamp: absent and 0 are falsy. */
  function StampOr(t: Option<int>, now: int): (r: int)
    ensures t.Some? && t.value != 0 ==> r == t.value
    ensures (t.None? || t.value == 0) ==> r == now
    ensures r != 0 || now == 0
  {
    if t.Some? && t.value != 0 then t.value else now
  }
}
