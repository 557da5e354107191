/** Values shared by the front end and the back end: an optional value (a JSON
    field that may be missing, or a JavaScript `null`), and the JavaScript
    truthiness of the string values the components test with `||` and `&&`. */
module Common {

  datatype Option<+T> = None | Some(value: T)

  /** JavaScript truthiness of a string-valued field that may be missing:
      `undefined`, `null` and `''` are falsy, every other string is truthy. */
  predicate Truthy(v: Option<string>) {
    v.Some? && v.value != ""
  }

  /** JavaScript `v || fallback` on a string-valued field. */
  function OrElse(v: Option<string>, fallback: string): (r: string)
    ensures Truthy(v) ==> r == v.value
    ensures !Truthy(v) ==> r == fallback
    ensures fallback != "" ==> r != ""
  {
    if Truthy(v) then v.value else fallback
  }
}
