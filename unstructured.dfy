// Schema-less access to a Kubernetes object body: a tree of maps, lists and
// scalars read along a path of field names, as the apimachinery
// "unstructured" helpers do. Absence and a wrong type are explicit outcomes.

module Unstructured {
  /** A JSON-like value; Null is an explicit JSON null. */
  datatype Value =
    | Null
    | Bool(b: bool)
    | Int(i: int)
    | Str(s: string)
    | List(items: seq<Value>)
    | Object(fields: map<string, Value>)

  /** The outcome of reading a nested field. */
  datatype Lookup<+T> = Found(value: T) | Absent | WrongType

  /**
   * Follows a path from a value: a missing key or a null met on the way is
   * Absent, stepping into anything other than a map is WrongType.
   */
  function Get(v: Value, path: seq<string>): Lookup<Value>
  {
    if path == [] then Found(v)
    else match v
      case Null => Absent
      case Object(m) => if path[0] in m then Get(m[path[0]], path[1..]) else Absent
      case _ => WrongType
  }

  /** unstructured.NestedFieldNoCopy on an object body. */
  function NestedField(obj: map<string, Value>, path: seq<string>): Lookup<Value>
  {
    Get(Object(obj), path)
  }

  /** A one-field path reads the field itself. */
  lemma NestedFieldOfKey(obj: map<string, Value>, path: seq<string>)
    ensures |path| == 1 ==>
      NestedField(obj, path) == if path[0] in obj then Found(obj[path[0]]) else Absent
  {
    if |path| == 1 && path[0] in obj {
      assert path[1..] == [];
      assert Get(obj[path[0]], path[1..]) == Found(obj[path[0]]);
    }
  }

  /** unstructured.NestedMap: the field must be a map (a null there is the wrong type). */
  function NestedMap(obj: map<string, Value>, path: seq<string>): (r: Lookup<map<string, Value>>)
    ensures |path| == 1 ==> r == (if path[0] !in obj then Absent
                                  else if obj[path[0]].Object? then Found(obj[path[0]].fields)
                                  else WrongType)
  {
    NestedFieldOfKey(obj, path);
    match NestedField(obj, path)
    case Found(Object(m)) => Found(m)
    case Found(_) => WrongType
    case Absent => Absent
    case WrongType => WrongType
  }

  /** unstructured.NestedString: the field must be a string (a null there is the wrong type). */
  function NestedString(obj: map<string, Value>, path: seq<string>): (r: Lookup<string>)
    ensures |path| == 1 ==> r == (if path[0] !in obj then Absent
                                  else if obj[path[0]].Str? then Found(obj[path[0]].s)
                                  else WrongType)
  {
    NestedFieldOfKey(obj, path);
    match NestedField(obj, path)
    case Found(Str(s)) => Found(s)
    case Found(_) => WrongType
    case Absent => Absent
    case WrongType => WrongType
  }
}
