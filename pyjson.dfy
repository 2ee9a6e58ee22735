/** JSON values as json.loads returns them, and the Python operations the
    banner service applies to them: truthiness, `key in x`, `x[key]`,
    `x.get(key, default)`, iteration and `len`. */
module PyJson {
  import opened Py
  import PyStr

  /** A decoded JSON value. An object keeps its fields in insertion order, as
      a Python dict does. */
  datatype Json =
    | JNull
    | JBool(b: bool)
    | JInt(i: int)
    | JFloat(f: real)
    | JStr(s: string)
    | JArr(items: seq<Json>)
    | JObj(fields: seq<(string, Json)>)

  const EmptyObj: Json := JObj([])

  /** Python's bool(x). */
  predicate Truthy(j: Json) {
    match j
    case JNull => false
    case JBool(b) => b
    case JInt(i) => i != 0
    case JFloat(f) => f != 0.0
    case JStr(s) => s != ""
    case JArr(items) => items != []
    case JObj(fields) => fields != []
  }

  function Keys(fields: seq<(string, Json)>): (ks: seq<string>)
    ensures |ks| == |fields|
    ensures forall k :: 0 <= k < |fields| ==> ks[k] == fields[k].0
  {
    if fields == [] then [] else Keys(fields[..|fields| - 1]) + [fields[|fields| - 1].0]
  }

  /** The value bound to key; a later binding of the same key wins, as in the
      dict json.loads builds. */
  function Lookup(fields: seq<(string, Json)>, key: string): (r: Option<Json>)
    ensures r.None? <==> key !in Keys(fields)
  {
    if fields == [] then None
    else if fields[|fields| - 1].0 == key then Some(fields[|fields| - 1].1)
    else
      var r := Lookup(fields[..|fields| - 1], key);
      assert Keys(fields) == Keys(fields[..|fields| - 1]) + [fields[|fields| - 1].0];
      r
  }

  /** A binding that no later binding overrides is the one Lookup finds. */
  lemma {:induction false} LookupLastBinding(fields: seq<(string, Json)>, k: nat)
    requires k < |fields|
    requires forall j :: k < j < |fields| ==> fields[j].0 != fields[k].0
    ensures Lookup(fields, fields[k].0) == Some(fields[k].1)
    decreases |fields|
  {
    if k < |fields| - 1 {
      var front := fields[..|fields| - 1];
      assert front[k] == fields[k];
      forall j | k < j < |front|
        ensures front[j].0 != front[k].0
      {
        assert front[j] == fields[j];
      }
      LookupLastBinding(front, k);
    }
  }

  /** Python's `key in x` with a string key: a key test on a dict, an element
      test on a list, a substring test on a string; TypeError otherwise. */
  function In(key: string, j: Json): (r: Result<bool>)
    ensures j.JObj? ==> r == Ok(key in Keys(j.fields))
  {
    match j
    case JObj(fields) => Ok(key in Keys(fields))
    case JArr(items) => Ok(JStr(key) in items)
    case JStr(s) => Ok(PyStr.Contains(s, key))
    case _ => Err(TypeError)
  }

  /** Python's `x[key]` with a string key: KeyError on a dict without the key,
      TypeError on anything that is not a dict. */
  function Subscript(j: Json, key: string): (r: Result<Json>)
    ensures r.Ok? <==> j.JObj? && key in Keys(j.fields)
    ensures r.Ok? ==> Lookup(j.fields, key) == Some(r.value)
    ensures r.Err? ==> r.exc == (if j.JObj? then KeyError else TypeError)
  {
    match j
    case JObj(fields) =>
      (match Lookup(fields, key)
       case Some(v) => Ok(v)
       case None => Err(KeyError))
    case _ => Err(TypeError)
  }

  /** Python's `x.get(key, default)`: AttributeError unless x is a dict. */
  function DictGet(j: Json, key: string, default: Json): (r: Result<Json>)
    ensures r.Ok? <==> j.JObj?
    ensures r.Ok? && key !in Keys(j.fields) ==> r.value == default
    ensures r.Ok? && key in Keys(j.fields) ==> Some(r.value) == Lookup(j.fields, key)
    ensures r.Err? ==> r.exc == AttributeError
  {
    match j
    case JObj(fields) =>
      (match Lookup(fields, key)
       case Some(v) => Ok(v)
       case None => Ok(default))
    case _ => Err(AttributeError)
  }

  /** What `for x in j` visits: the elements of a list, the one-character
      strings of a string, the keys of a dict; other values are not iterable. */
  function Iterate(j: Json): (r: Result<seq<Json>>)
    ensures r.Ok? <==> (j.JArr? || j.JStr? || j.JObj?)
    ensures j.JArr? ==> r == Ok(j.items)
    ensures r.Err? ==> r.exc == TypeError
  {
    match j
    case JArr(items) => Ok(items)
    case JStr(s) => Ok(seq(|s|, i requires 0 <= i < |s| => JStr([s[i]])))
    case JObj(fields) =>
      var ks := Keys(fields);
      Ok(seq(|ks|, i requires 0 <= i < |ks| => JStr(ks[i])))
    case _ => Err(TypeError)
  }

  /** Python's len(j). */
  function Len(j: Json): (r: Result<nat>)
    ensures r.Ok? <==> Iterate(j).Ok?
    ensures r.Ok? ==> r.value == |Iterate(j).value|
  {
    match j
    case JArr(items) => Ok(|items|)
    case JStr(s) => Ok(|s|)
    case JObj(fields) => Ok(|fields|)
    case _ => Err(TypeError)
  }
}
