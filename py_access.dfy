/** The Python subscript operations the client applies to decoded values:
    `value[key]`, `value.get(key, default)`, `len(value)`, and the key-path
    walk of `extract_data`. */
module PyAccess {
  import opened Wrappers
  import opened JsonValue
  import opened Wire

  /** `value[key]` with a string key: only a dict can be subscripted by a
      string; a missing key raises KeyError, anything else TypeError. */
  function Index(j: Json, key: string): (r: Result<Json, Error>)
    ensures r.Ok? <==> j.JObj? && key in j.fields
    ensures r.Ok? ==> r.value == j.fields[key]
    ensures j.JObj? && key !in j.fields ==> r == Err(KeyError(JStr(key)))
    ensures !j.JObj? ==> r == Err(TypeError)
  {
    match j
    case JObj(m) => if key in m then Ok(m[key]) else Err(KeyError(JStr(key)))
    case _ => Err(TypeError)
  }

  /** `value.get(key, default)`: only a dict has `.get`. */
  function GetOr(j: Json, key: string, default: Json): (r: Result<Json, Error>)
    ensures r.Ok? <==> j.JObj?
    ensures j.JObj? && key in j.fields ==> r == Ok(j.fields[key])
    ensures j.JObj? && key !in j.fields ==> r == Ok(default)
    ensures !j.JObj? ==> r == Err(AttributeError)
  {
    match j
    case JObj(m) => Ok(if key in m then m[key] else default)
    case _ => Err(AttributeError)
  }

  /** `len(value)`: defined on dicts, lists and strings. */
  function Len(j: Json): (r: Result<nat, Error>)
    ensures r.Ok? <==> j.JObj? || j.JArr? || j.JStr?
  {
    match j
    case JObj(m) => Ok(|m|)
    case JArr(a) => Ok(|a|)
    case JStr(s) => Ok(|s|)
    case _ => Err(TypeError)
  }

  /** The elements a `for` loop or comprehension visits when each element is
      then subscripted by a string key: a list yields its items; a non-empty
      string or dict yields strings, and subscripting a string by a string
      raises TypeError at once; an empty one yields nothing; None, booleans
      and numbers are not iterable (TypeError). */
  function Elements(j: Json): (r: Result<seq<Json>, Error>)
    ensures j.JArr? ==> r == Ok(j.items)
    ensures r.Ok? && r.value != [] ==> j.JArr?
    ensures r.Err? ==> r.error == TypeError
  {
    match j
    case JArr(a) => Ok(a)
    case JStr(s) => if s == [] then Ok([]) else Err(TypeError)
    case JObj(m) => if m == map[] then Ok([]) else Err(TypeError)
    case _ => Err(TypeError)
  }

  /** `value.lower()`: only strings have it. */
  function StrLower(j: Json): (r: Result<string, Error>)
    ensures j.JStr? ==> r == Ok(Lower(j.s))
    ensures !j.JStr? ==> r == Err(AttributeError)
  {
    if j.JStr? then Ok(Lower(j.s)) else Err(AttributeError)
  }

  /** What `extract_data` yields: follow the keys one by one; the first
      missing key or non-dict on the way turns the whole result into None. */
  function Extract(j: Json, path: seq<string>): Json
  {
    if path == [] then j
    else match Index(j, path[0])
      case Ok(v) => Extract(v, path[1..])
      case Err(_) => JNull
  }

  /** `extract_data`: the loop reassigning the current value; the try/except
      around it becomes the early return of None. */
  method ExtractData(j: Json, path: seq<string>) returns (r: Json)
    ensures r == Extract(j, path)
  {
    var cur := j;
    var i := 0;
    while i < |path|
      invariant 0 <= i <= |path|
      invariant Extract(j, path) == Extract(cur, path[i..])
    {
      var step := Index(cur, path[i]);
      if step.Err? {
        return JNull;
      }
      assert path[i..][1..] == path[i + 1..];
      cur := step.value;
      i := i + 1;
    }
    r := cur;
  }

  /** Walking a path in two legs is walking it at once: a miss on the first
      leg stays a miss, since None has no keys. */
  lemma {:induction false} ExtractConcat(j: Json, p: seq<string>, q: seq<string>)
    ensures Extract(j, p + q) == Extract(Extract(j, p), q)
  {
    if p == [] {
      assert p + q == q;
    } else {
      assert (p + q)[0] == p[0];
      assert (p + q)[1..] == p[1..] + q;
      match Index(j, p[0])
      case Ok(v) => ExtractConcat(v, p[1..], q);
      case Err(_) => ExtractOfNull(q);
    }
  }

  /** Nothing can be found below None. */
  lemma {:induction false} ExtractOfNull(q: seq<string>)
    ensures Extract(JNull, q) == JNull
  {
  }

  /** A key path through nested dicts reaches its value; one step off a dict
      or onto a missing key yields None. */
  lemma ExtractTwo(j: Json, a: string, b: string)
    ensures Extract(j, [a, b]) ==
      if j.JObj? && a in j.fields && j.fields[a].JObj? && b in j.fields[a].fields
      then j.fields[a].fields[b] else JNull
  {
    assert [a, b][1..] == [b];
    assert [b][1..] == [];
    if Index(j, a).Ok? {
      var v := j.fields[a];
      assert Extract(v, [b]) == if Index(v, b).Ok? then Extract(v.fields[b], []) else JNull;
    }
  }
}
