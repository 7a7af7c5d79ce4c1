/** JSON documents. */
module JsonValue {
  import opened Text

  /** The printed form of a JSON number: never empty, never a structural character. */
  predicate IsNumberText(s: string) {
    s != [] && forall i | 0 <= i < |s| :: IsNumberChar(s[i])
  }

  predicate IsNumberChar(c: char) {
    '0' <= c <= '9' || c == '+' || c == '-' || c == '.' || c == 'e' || c == 'E'
  }

  type NumberText = s: string | IsNumberText(s) witness "0"

  /** Objects are finite maps: two objects are equal whatever the order of their keys. */
  datatype Json =
    | Null
    | Bool(b: bool)
    | Num(repr: NumberText)
    | Str(text: string)
    | Arr(items: seq<Json>)
    | Obj(fields: map<string, Json>)

  function Get(j: Json, key: string): Option<Json> {
    if j.Obj? && key in j.fields then Some(j.fields[key]) else None
  }

  function GetStr(j: Json, key: string): Option<string> {
    match Get(j, key)
    case Some(Str(s)) => Some(s)
    case _ => None
  }

  function GetObj(j: Json, key: string): Option<map<string, Json>> {
    match Get(j, key)
    case Some(Obj(m)) => Some(m)
    case _ => None
  }
}
