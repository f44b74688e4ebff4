/** Decoded JSON values as the Python objects `response.json()` yields, and the
    Python operations the normaliser applies to them: indexing with `[0]`,
    subscripting with a string key, and the `in` operator. Each operation that
    can raise in Python returns `Raise(str(e))` with CPython's message. */
module PyJson {
  import opened PyStr

  datatype Option<+T> = None | Some(value: T)

  /** The outcome of a Python expression: its value, or the text `str(e)` of the exception it raised. */
  datatype Result<+T> = Ok(value: T) | Raise(message: string) {
    predicate IsFailure() {
      Raise?
    }

    function PropagateFailure<U>(): Result<U>
      requires Raise?
    {
      Raise(message)
    }

    function Extract(): T
      requires Ok?
    {
      value
    }
  }

  /** `None`, `bool`, `int`, `float`, `str`, `list` and `dict`; a dict is its
      list of entries in insertion order (decoded dicts have distinct keys). */
  datatype Json =
    | JNull
    | JBool(b: bool)
    | JNum(n: int)
    | JFloat(f: real)
    | JStr(s: string)
    | JArr(items: seq<Json>)
    | JObj(entries: seq<(string, Json)>)

  /** The name Python prints for `type(j)`. */
  function TypeName(j: Json): string {
    match j
    case JNull => "NoneType"
    case JBool(_) => "bool"
    case JNum(_) => "int"
    case JFloat(_) => "float"
    case JStr(_) => "str"
    case JArr(_) => "list"
    case JObj(_) => "dict"
  }

  /** `str(type(j))`, e.g. `<class 'list'>`. */
  function ClassRepr(j: Json): string {
    "<class '" + TypeName(j) + "'>"
  }

  /** The value bound to `key` in a dict's entries. */
  function Lookup(entries: seq<(string, Json)>, key: string): (r: Option<Json>)
    ensures r.Some? <==> exists i :: 0 <= i < |entries| && entries[i].0 == key
    ensures r.Some? ==> exists i :: 0 <= i < |entries| && entries[i] == (key, r.value)
  {
    if entries == [] then None
    else if entries[0].0 == key then Some(entries[0].1)
    else
      var r := Lookup(entries[1..], key);
      assert forall i :: 1 <= i < |entries| ==> entries[i] == entries[1..][i - 1];
      r
  }

  /** `key in d` for a dict `d`. */
  predicate HasKey(entries: seq<(string, Json)>, key: string) {
    Lookup(entries, key).Some?
  }

  /** `list(d.keys())`. */
  function Keys(entries: seq<(string, Json)>): (ks: seq<string>)
    ensures |ks| == |entries|
    ensures forall i :: 0 <= i < |entries| ==> ks[i] == entries[i].0
  {
    if entries == [] then [] else [entries[0].0] + Keys(entries[1..])
  }

  /** `repr` of a list of strings, e.g. `['scores', 'sequence']`. */
  function KeyListRepr(keys: seq<string>): string {
    "[" + Join(Quoted(keys), ", ") + "]"
  }

  function Quoted(keys: seq<string>): (qs: seq<string>)
    ensures |qs| == |keys|
  {
    if keys == [] then [] else ["'" + keys[0] + "'"] + Quoted(keys[1..])
  }

  const ListIndexOutOfRange := "list index out of range"
  const StrIndexOutOfRange := "string index out of range"
  const ListIndicesNotStr := "list indices must be integers or slices, not str"
  const StrIndicesNotStr := "string indices must be integers, not 'str'"

  /** `j[0]`. */
  function Index0(j: Json): (r: Result<Json>)
    ensures r.Ok? <==> (j.JArr? && j.items != []) || (j.JStr? && j.s != [])
    ensures j.JArr? && j.items != [] ==> r.value == j.items[0]
    ensures j.JStr? && j.s != [] ==> r.value == JStr([j.s[0]])
  {
    match j
    case JArr(items) => if items == [] then Raise(ListIndexOutOfRange) else Ok(items[0])
    case JStr(s) => if s == [] then Raise(StrIndexOutOfRange) else Ok(JStr([s[0]]))
    case JObj(_) => Raise("0")  // KeyError(0): JSON keys are strings
    case _ => Raise("'" + TypeName(j) + "' object is not subscriptable")
  }

  /** `j[key]` for a string `key`. */
  function GetKey(j: Json, key: string): (r: Result<Json>)
    ensures r.Ok? <==> j.JObj? && HasKey(j.entries, key)
    ensures r.Ok? ==> Lookup(j.entries, key) == Some(r.value)
  {
    match j
    case JObj(entries) =>
      (match Lookup(entries, key)
       case Some(v) => Ok(v)
       case None => Raise("'" + key + "'"))  // KeyError(key)
    case JArr(_) => Raise(ListIndicesNotStr)
    case JStr(_) => Raise(StrIndicesNotStr)
    case _ => Raise("'" + TypeName(j) + "' object is not subscriptable")
  }

  /** `needle in j` for a string `needle`: key membership for a dict, element
      equality for a list, substring test for a str, TypeError otherwise. */
  function Contains(j: Json, needle: string): (r: Result<bool>)
    ensures r.Ok? <==> j.JObj? || j.JArr? || j.JStr?
    ensures j.JObj? ==> r == Ok(HasKey(j.entries, needle))
    ensures j.JArr? ==> r == Ok(exists i :: 0 <= i < |j.items| && j.items[i] == JStr(needle))
    ensures j.JStr? ==> r == Ok(exists i :: OccursAt(j.s, needle, i))
  {
    match j
    case JObj(entries) => Ok(HasKey(entries, needle))
    case JArr(items) => Ok(JStr(needle) in items)
    case JStr(s) => Ok(Find(s, needle) >= 0)
    case _ => Raise("argument of type '" + TypeName(j) + "' is not iterable")
  }
}
