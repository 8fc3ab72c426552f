/** JSON values as the Python `json` module hands them back (RFC 8259: objects
    in section 4, arrays in section 5), and the operations of Python's `dict`
    and `str()` the core applies to them. Floating-point numbers are not
    modelled. */
module Json {
  import opened Wrappers
  import opened Strings

  datatype Json =
    | JNull
    | JBool(b: bool)
    | JInt(i: int)
    | JStr(s: string)
    | JArr(items: seq<Json>)
    | JObj(fields: Dict)

  /** A Python `dict` with string keys: its entries in insertion order. */
  type Dict = seq<(string, Json)>

  /** `key in d`. */
  predicate HasKey(d: Dict, key: string)
  {
    exists i :: 0 <= i < |d| && d[i].0 == key
  }

  /** `d.get(key)`, reading the first entry with that key. */
  function Get(d: Dict, key: string): (r: Option<Json>)
    ensures r.None? <==> !HasKey(d, key)
    ensures r.Some? ==> exists i :: 0 <= i < |d| && d[i] == (key, r.value)
  {
    if d == [] then None
    else if d[0].0 == key then assert d[0] == (key, d[0].1); Some(d[0].1)
    else
      var r := Get(d[1..], key);
      assert HasKey(d[1..], key) ==> HasKey(d, key) by {
        if HasKey(d[1..], key) {
          var i :| 0 <= i < |d[1..]| && d[1..][i].0 == key;
          assert d[i + 1].0 == key;
        }
      }
      assert HasKey(d, key) ==> HasKey(d[1..], key) by {
        if HasKey(d, key) {
          var i :| 0 <= i < |d| && d[i].0 == key;
          assert i > 0 && d[1..][i - 1].0 == key;
        }
      }
      assert r.Some? ==> exists i :: 0 <= i < |d| && d[i] == (key, r.value) by {
        if r.Some? {
          var i :| 0 <= i < |d[1..]| && d[1..][i] == (key, r.value);
          assert d[i + 1] == (key, r.value);
        }
      }
      r
  }

  /** No key occurs twice (every dict built by Python has this). */
  predicate DistinctKeys(d: Dict)
  {
    forall i, j :: 0 <= i < j < |d| ==> d[i].0 != d[j].0
  }

  /** `type(v).__name__`. */
  function TypeName(v: Json): (name: string)
    // each kind of value has its own name
    ensures name == "str" <==> v.JStr?
    ensures name == "int" <==> v.JInt?
    ensures name == "list" <==> v.JArr?
    ensures name == "dict" <==> v.JObj?
    ensures name == "bool" <==> v.JBool?
    ensures name == "NoneType" <==> v.JNull?
  {
    match v
    case JNull => "NoneType"
    case JBool(_) => "bool"
    case JInt(_) => "int"
    case JStr(_) => "str"
    case JArr(_) => "list"
    case JObj(_) => "dict"
  }

  /** `repr(v)`; strings are quoted with single quotes, without escaping. */
  function Repr(v: Json): (r: string)
    ensures v.JStr? ==> r == "'" + v.s + "'"
    ensures v.JArr? ==> |r| >= 2 && r[0] == '[' && r[|r| - 1] == ']'
    ensures v.JObj? ==> |r| >= 2 && r[0] == '{' && r[|r| - 1] == '}'
    ensures v.JNull? ==> r == "None"
  {
    match v
    case JNull => "None"
    case JBool(b) => if b then "True" else "False"
    case JInt(i) => IntToString(i)
    case JStr(s) => "'" + s + "'"
    case JArr(items) =>
      "[" + Join(", ", seq(|items|, k requires 0 <= k < |items| => Repr(items[k]))) + "]"
    case JObj(fields) =>
      "{" + Join(", ", seq(|fields|, k requires 0 <= k < |fields| =>
                             "'" + fields[k].0 + "': " + Repr(fields[k].1))) + "}"
  }

  /** `str(v)`: a string is itself, anything else its repr. */
  function Str(v: Json): (r: string)
    ensures v.JStr? ==> r == v.s
    ensures !v.JStr? ==> r == Repr(v)
  {
    match v
    case JStr(s) => s
    case _ => Repr(v)
  }
}
