/** The pieces of the HTTP request/response vocabulary that the API routes
    share, and the JavaScript truthiness rules they rely on. */
module Http {
  import opened Wrappers

  /** A query-string value: the framework gives a plain string for a key that
      occurs once and an array of strings for a repeated key. */
  datatype QueryValue = Single(text: string) | Multi(items: seq<string>)

  type Query = map<string, QueryValue>

  /** `req.query[key]`: absent keys read as `undefined`. */
  function Lookup(q: Query, key: string): (v: Option<QueryValue>)
    ensures v.Some? <==> key in q
    ensures v.Some? ==> v.value == q[key]
  {
    if key in q then Some(q[key]) else None
  }

  /** JavaScript truthiness of an optional string: `undefined`, `null` and
      `""` are falsy, every other string is truthy. */
  predicate Truthy(s: Option<string>) {
    s.Some? && s.value != ""
  }

  /** `s || fallback` for an optional string. */
  function OrElse(s: Option<string>, fallback: string): (r: string)
    ensures Truthy(s) ==> r == s.value
    ensures !Truthy(s) ==> r == fallback
    ensures fallback != "" ==> r != ""
  {
    if Truthy(s) then s.value else fallback
  }

  /** A query value that is a non-empty string, the test
      `typeof v === 'string' && v` made by the routes. */
  predicate IsNonEmptyString(v: Option<QueryValue>) {
    v.Some? && v.value.Single? && v.value.text != ""
  }
}
