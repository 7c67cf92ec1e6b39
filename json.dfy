/** Python values as they appear in order options, requests and schemas. */
module Json {
  import opened Wrappers

  datatype Json =
    | JNull
    | JBool(b: bool)
    | JInt(i: int)
    | JFloat(r: real)
    | JStr(s: string)
    | JList(items: seq<Json>)
    | JObj(fields: map<string, Json>)

  /** Python truthiness: None, False, 0, '', [] and {} are false. */
  predicate Truthy(j: Json)
  {
    match j
    case JNull => false
    case JBool(b) => b
    case JInt(i) => i != 0
    case JFloat(r) => r != 0.0
    case JStr(s) => s != []
    case JList(items) => items != []
    case JObj(fields) => fields != map[]
  }

  /** hasattr(j, '__iter__') in Python 2: lists and dicts, but not strings. */
  predicate HasIter(j: Json)
  {
    j.JList? || j.JObj?
  }

  /** `key in j and j[key]` on a dict. */
  predicate FieldTruthy(fields: map<string, Json>, key: string)
  {
    key in fields && Truthy(fields[key])
  }

  /** The elements of a list of strings, wrapped. */
  function StrList(xs: seq<string>): (r: seq<Json>)
    ensures |r| == |xs| && forall i :: 0 <= i < |xs| ==> r[i] == JStr(xs[i])
  {
    if xs == [] then [] else [JStr(xs[0])] + StrList(xs[1..])
  }

  /** The type name Python reports for a value. */
  function TypeName(j: Json): string
  {
    match j
    case JNull => "NoneType"
    case JBool(_) => "bool"
    case JInt(_) => "int"
    case JFloat(_) => "float"
    case JStr(_) => "unicode"
    case JList(_) => "list"
    case JObj(_) => "dict"
  }

  /** j[key] with a string key: the dict's entry, or what Python raises. */
  function GetItem(j: Json, key: string): Result<Json>
  {
    match j
    case JObj(fields) => if key in fields then Ok(fields[key]) else Err(Raised(KeyError, key))
    case JList(_) => Err(Raised(TypeError, "list indices must be integers, not str"))
    case JStr(_) => Err(Raised(TypeError, "string indices must be integers, not str"))
    case _ => Err(Raised(TypeError, "'" + TypeName(j) + "' object has no attribute '__getitem__'"))
  }
}
