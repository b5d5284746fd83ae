/**
 * Values as removeUserPermissions receives them from its JavaScript caller:
 * dynamically typed, so the input schema has something to reject.
 */
module JsValues {

  datatype Option<+T> = None | Some(value: T)

  /** A JavaScript value, distinguished only as far as the input schema looks at it. */
  datatype JsValue =
    | Undefined                 // the key is absent
    | Null
    | Str(str: string)
    | Arr(items: seq<JsValue>)
    | Other                     // numbers, booleans, plain objects
}
