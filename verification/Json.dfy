/** JSON values as the models see them: objects list their own keys in insertion order. */
module Json {
  import opened Common

  datatype Value =
    | Null
    | Bool(flag: bool)
    | Number(number: real)
    | Str(text: string)
    | Arr(items: seq<Value>)
    | Obj(fields: seq<Field>)

  datatype Field = Field(key: string, value: Value)

  /** An own property, if the value is an object that has it. */
  function Lookup(value: Value, key: string): Option<Value> {
    if value.Obj? then LookupIn(value.fields, key) else None
  }

  function LookupIn(fields: seq<Field>, key: string): Option<Value> {
    if fields == [] then None
    else if fields[0].key == key then Some(fields[0].value)
    else LookupIn(fields[1..], key)
  }

  predicate HasText(value: Value, key: string, text: string) {
    Lookup(value, key) == Some(Str(text))
  }
}
