/** JSON values as encoding/json hands them to the plugins (map[string]any,
    []any and scalars), with the comma-ok type assertions the plugins use. */
module Json {
  import opened Prelude

  datatype Json =
    | Null
    | Bool(b: bool)
    | Number(n: int)
    | Str(s: string)
    | Arr(elems: seq<Json>)
    | Obj(fields: Object)

  type Object = map<string, Json>

  /** `v, _ := o[key].(string)`: the empty string unless the field is a string. */
  function StrField(o: Object, key: string): string {
    if key in o && o[key].Str? then o[key].s else ""
  }

  /** `v, ok := o[key].(map[string]any)` */
  function ObjField(o: Object, key: string): Option<Object> {
    if key in o && o[key].Obj? then Some(o[key].fields) else None
  }

  /** `v, ok := o[key].([]any)` */
  function ArrField(o: Object, key: string): Option<seq<Json>> {
    if key in o && o[key].Arr? then Some(o[key].elems) else None
  }
}
