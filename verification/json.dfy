/**
 * JSON-like values, used for the option objects handed to the HTTP layer
 * (`request-promise-native` options) and for the headers built by the client.
 */
module Json {

  datatype Json =
    | Null
    | Bool(b: bool)
    | Num(n: int)
    | Str(s: string)
    | Arr(items: seq<Json>)
    | Obj(fields: map<string, Json>)

  /** An options object: a JavaScript object literal, keyed by property name. */
  type Options = map<string, Json>
}
