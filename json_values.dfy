/** The JSON tree the level file is made of, as the old exporter walks it. */
module JsonValues {

  /** The text `JSON.stringify` produces for a finite number; it never holds a newline. */
  type NumberText = s: string | '\n' !in s witness "0"

  datatype Json =
    | Null
    | Bool(b: bool)
    | Number(text: NumberText)
    | Str(s: string)
    | Arr(items: seq<Json>)
    | Obj(entries: seq<(string, Json)>)

  /** `typeof v !== 'object' || v === null`: everything but arrays and objects. */
  predicate IsPrimitive(j: Json)
  {
    !j.Arr? && !j.Obj?
  }
}
