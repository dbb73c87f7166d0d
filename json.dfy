/** Parsed JSON values as the Python code sees them after `json.load` or
    `response.json()`: dicts keep their insertion order, and reading a
    missing key or indexing the wrong kind of value raises. */
module Json {
  import opened Wrappers

  datatype Json =
    | Null
    | Bool(b: bool)
    | Num(n: real)
    | Str(s: string)
    | Arr(items: seq<Json>)
    | Obj(fields: seq<(string, Json)>)

  /** The Python exception a payload access raises. */
  datatype Fault = KeyError(key: string) | IndexError | TypeError

  /** Python truthiness, as in `if cached:` and `if not data:`. */
  predicate Truthy(j: Json) {
    match j
    case Null => false
    case Bool(b) => b
    case Num(n) => n != 0.0
    case Str(s) => s != ""
    case Arr(items) => items != []
    case Obj(fields) => fields != []
  }

  function Keys(fields: seq<(string, Json)>): set<string> {
    if fields == [] then {} else {fields[0].0} + Keys(fields[1..])
  }

  /** A Python dict never holds a key twice. */
  predicate UniqueKeys(fields: seq<(string, Json)>) {
    fields == [] || (fields[0].0 !in Keys(fields[1..]) && UniqueKeys(fields[1..]))
  }

  /** `d.get(k)` on a dict. */
  function Lookup(fields: seq<(string, Json)>, k: string): (r: Option<Json>)
    ensures r.Some? <==> k in Keys(fields)
  {
    if fields == [] then None
    else if fields[0].0 == k then Some(fields[0].1)
    else Lookup(fields[1..], k)
  }

  /** `d[k] = v` on a dict: an existing key keeps its place, a new key goes last. */
  function Assign(fields: seq<(string, Json)>, k: string, v: Json): seq<(string, Json)> {
    if fields == [] then [(k, v)]
    else if fields[0].0 == k then [(k, v)] + fields[1..]
    else [fields[0]] + Assign(fields[1..], k, v)
  }

  lemma {:induction false} AssignKeys(fields: seq<(string, Json)>, k: string, v: Json)
    ensures Keys(Assign(fields, k, v)) == Keys(fields) + {k}
  {
    if fields != [] && fields[0].0 != k {
      AssignKeys(fields[1..], k, v);
    }
  }

  /** After `d[k] = v`, `d[k]` is `v`, every other key reads as before and
      no key appears twice. */
  lemma {:induction false} AssignLookup(fields: seq<(string, Json)>, k: string, v: Json)
    requires UniqueKeys(fields)
    ensures Lookup(Assign(fields, k, v), k) == Some(v)
    ensures forall k' :: k' != k ==> Lookup(Assign(fields, k, v), k') == Lookup(fields, k')
    ensures UniqueKeys(Assign(fields, k, v))
  {
    if fields != [] && fields[0].0 != k {
      AssignLookup(fields[1..], k, v);
      AssignKeys(fields[1..], k, v);
    }
  }

  /** `j[k]` on a payload expected to be a dict. */
  function Field(j: Json, k: string): (r: Result<Json, Fault>)
    ensures r.Ok? <==> j.Obj? && k in Keys(j.fields)
  {
    if !j.Obj? then Err(TypeError)
    else match Lookup(j.fields, k)
      case Some(v) => Ok(v)
      case None => Err(KeyError(k))
  }

  /** `j.get(k, default)` on a payload expected to be a dict. */
  function FieldOr(j: Json, k: string, default: Json): (r: Result<Json, Fault>)
    ensures r.Ok? <==> j.Obj?
    ensures j.Obj? && k !in Keys(j.fields) ==> r == Ok(default)
  {
    if !j.Obj? then Err(TypeError)
    else match Lookup(j.fields, k)
      case Some(v) => Ok(v)
      case None => Ok(default)
  }

  /** `j[i]` on a payload expected to be a list. */
  function Item(j: Json, i: nat): (r: Result<Json, Fault>)
    ensures r.Ok? <==> j.Arr? && i < |j.items|
  {
    if j.Arr? then (if i < |j.items| then Ok(j.items[i]) else Err(IndexError))
    else if j.Obj? then Err(KeyError("0"))
    else Err(TypeError)
  }

  /** `j[k] = v` on a payload expected to be a dict. */
  function SetField(j: Json, k: string, v: Json): (r: Result<Json, Fault>)
    ensures r.Ok? <==> j.Obj?
  {
    if j.Obj? then Ok(Obj(Assign(j.fields, k, v))) else Err(TypeError)
  }

  /** A dict payload with the overlay written reads the overlay back under
      its key and everything else as before. */
  lemma SetFieldReads(j: Json, k: string, v: Json)
    requires j.Obj? && UniqueKeys(j.fields)
    ensures SetField(j, k, v).Ok?
    ensures Field(SetField(j, k, v).value, k) == Ok(v)
    ensures forall k' :: k' != k ==> Field(SetField(j, k, v).value, k') == Field(j, k')
    ensures Truthy(SetField(j, k, v).value)
  {
    AssignLookup(j.fields, k, v);
    AssignKeys(j.fields, k, v);
  }
}
