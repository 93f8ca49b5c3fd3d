/** Values exchanged with the backend: optional slots and JSON profile data. */
module Values {

  /** A slot that may be empty: JavaScript `null`/`undefined` become `None`. */
  datatype Option<+T> = None | Some(value: T)

  /** A JSON value as the backend returns it (numbers are modelled as integers). */
  datatype Value =
    | Null
    | Bool(b: bool)
    | Num(n: int)
    | Str(s: string)
    | Arr(items: seq<Value>)
    | Obj(fields: map<string, Value>)

  /** A user profile: the top-level fields of the JSON object describing a member. */
  type Profile = map<string, Value>
}
