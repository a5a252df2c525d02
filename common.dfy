/** Small shared vocabulary: optional values and the JavaScript `||` fallback
    on values that may be absent or empty. */
module Common {

  /** An optional value; `None` stands for a JavaScript `undefined` field. */
  datatype Option<+T> = None | Some(value: T)

  /** JavaScript truthiness of an optional string: absent and "" are falsy. */
  predicate Present(o: Option<string>) {
    o.Some? && o.value != ""
  }

  /** `o || fallback` for an optional string. */
  function OrElse(o: Option<string>, fallback: string): (r: string)
    ensures Present(o) ==> r == o.value
    ensures !Present(o) ==> r == fallback
    ensures fallback != "" ==> r != ""
  {
    if Present(o) then o.value else fallback
  }
}
