/**
 * Semi-structured event data. The service decodes request bodies into
 * `map[string]interface{}`; here every decoded JSON value is a tagged `Value`,
 * and a field read with a Go type assertion becomes a lookup that yields a
 * value only when the key is present and carries the expected tag.
 */
module Values {
  import opened Wrappers

  /** A decoded JSON value. Every JSON number decodes to a Go float64. */
  datatype Value =
    | Str(str: string)
    | Num(num: real)
    | Bool(flag: bool)
    | Null
    | Composite  // a JSON array or object; no rule inspects their contents

  /** An event payload: field name to decoded value. */
  type Event = map<string, Value>

  /** `data[key].(string)`: present and a string, else nothing. */
  function StringField(data: Event, key: string): Option<string>
  {
    if key in data && data[key].Str? then Some(data[key].str) else None
  }

  /** `data[key].(float64)`: present and a number, else nothing. */
  function NumberField(data: Event, key: string): Option<real>
  {
    if key in data && data[key].Num? then Some(data[key].num) else None
  }

  /** The handlers' and detector's "present, a string, and not empty" test. */
  predicate HasNonEmptyString(data: Event, key: string)
  {
    StringField(data, key).Some? && StringField(data, key).value != ""
  }
}
