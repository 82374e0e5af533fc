/** JSON values as stored and read back by the database. */
module Json {
  import opened Outcomes
  import opened Coverage

  datatype Value =
    | Null
    | Number(n: int)
    | Text(s: string)
    | Array(items: seq<Value>)
    | Object(fields: map<string, Value>)

  /** Indexing an object; anything missing is `Null`. */
  function At(v: Value, field: string): Value {
    if v.Object? && field in v.fields then v.fields[field] else Null
  }

  function AsStr(v: Value): Option<string> {
    if v.Text? then Some(v.s) else None
  }

  function AsInt64(v: Value): Option<Int64> {
    if v.Number? && I64_MIN <= v.n <= I64_MAX then Some(v.n) else None
  }
}
