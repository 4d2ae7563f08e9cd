/** JSON values as the backend and the web client exchange them: the one-pager fact
    sheet, pricing objects and API payloads. Objects keep their keys in insertion order,
    as Python dicts and JavaScript objects do. */
module Json {
  import opened Wrappers
  import opened Strings

  datatype Json =
    | JNull
    | JBool(b: bool)
    | JNum(n: int)
    | JStr(s: string)
    | JArr(items: seq<Json>)
    | JObj(fields: seq<(string, Json)>)

  /** Python truthiness, which `x or default` tests. */
  predicate Truthy(j: Json)
  {
    match j
    case JNull => false
    case JBool(b) => b
    case JNum(n) => n != 0
    case JStr(s) => s != []
    case JArr(items) => items != []
    case JObj(fields) => fields != []
  }

  /** The keys of an object's fields, in order. */
  function Keys(fields: seq<(string, Json)>): (ks: seq<string>)
    ensures |ks| == |fields|
    ensures forall i :: 0 <= i < |fields| ==> ks[i] == fields[i].0
  {
    if fields == [] then [] else [fields[0].0] + Keys(fields[1..])
  }

  /** `d.get(key)`: the value of the first field named `key`. */
  function Get(fields: seq<(string, Json)>, key: string): (v: Option<Json>)
    ensures v.Some? <==> key in Keys(fields)
    ensures v.Some? ==> (key, v.value) in fields
  {
    if fields == [] then None
    else if fields[0].0 == key then Some(fields[0].1)
    else Get(fields[1..], key)
  }

  /** `d[key] = value`: replaces the value in place when the key exists, else appends the field. */
  function Set(fields: seq<(string, Json)>, key: string, value: Json): (r: seq<(string, Json)>)
    ensures Get(r, key) == Some(value)
    ensures forall k :: k != key ==> Get(r, k) == Get(fields, k)
    ensures key in Keys(fields) ==> Keys(r) == Keys(fields)
    ensures key !in Keys(fields) ==> Keys(r) == Keys(fields) + [key]
  {
    if fields == [] then [(key, value)]
    else if fields[0].0 == key then
      var r := [(key, value)] + fields[1..];
      assert r[1..] == fields[1..];
      r
    else
      var rest := Set(fields[1..], key, value);
      SetStep(fields, key, value, rest);
      [fields[0]] + rest
  }

  /** The step of `Set` past a field with another key. */
  lemma SetStep(fields: seq<(string, Json)>, key: string, value: Json, rest: seq<(string, Json)>)
    requires fields != [] && fields[0].0 != key
    requires Get(rest, key) == Some(value)
    requires forall k :: k != key ==> Get(rest, k) == Get(fields[1..], k)
    requires key in Keys(fields[1..]) ==> Keys(rest) == Keys(fields[1..])
    requires key !in Keys(fields[1..]) ==> Keys(rest) == Keys(fields[1..]) + [key]
    ensures var r := [fields[0]] + rest;
      Get(r, key) == Some(value)
      && (forall k :: k != key ==> Get(r, k) == Get(fields, k))
      && (key in Keys(fields) ==> Keys(r) == Keys(fields))
      && (key !in Keys(fields) ==> Keys(r) == Keys(fields) + [key])
  {
    var r := [fields[0]] + rest;
    assert r[1..] == rest;
    forall k | k != key
      ensures Get(r, k) == Get(fields, k)
    {
      if fields[0].0 != k {
        assert Get(r, k) == Get(rest, k);
      }
    }
    assert Keys(r) == [fields[0].0] + Keys(rest);
    assert Keys(fields) == [fields[0].0] + Keys(fields[1..]);
  }

  /** Decimal rendering of an integer with a leading '-' when negative. */
  function IntToString(n: int): (r: string)
    ensures |r| > 0
  {
    if n < 0 then "-" + NatToString(-n) else NatToString(n)
  }

  /** Python's `repr` of a JSON value (string escapes are not modelled). */
  function Repr(j: Json): string
    decreases j, 1
  {
    match j
    case JNull => "None"
    case JBool(b) => if b then "True" else "False"
    case JNum(n) => IntToString(n)
    case JStr(s) => "'" + s + "'"
    case JArr(items) => "[" + ReprItems(j, items) + "]"
    case JObj(fields) => "{" + ReprFields(j, fields) + "}"
  }

  function ReprItems(parent: Json, items: seq<Json>): string
    requires forall i :: 0 <= i < |items| ==> items[i] < parent
    decreases parent, 0, |items|
  {
    if items == [] then ""
    else Repr(items[0]) + (if |items| > 1 then ", " + ReprItems(parent, items[1..]) else "")
  }

  function ReprFields(parent: Json, fields: seq<(string, Json)>): string
    requires forall i :: 0 <= i < |fields| ==> fields[i].1 < parent
    decreases parent, 0, |fields|
  {
    if fields == [] then ""
    else "'" + fields[0].0 + "': " + Repr(fields[0].1) + (if |fields| > 1 then ", " + ReprFields(parent, fields[1..]) else "")
  }

  /** Python's `str(value)`: a string is itself, anything else its `repr`. */
  function PyStr(j: Json): (s: string)
    ensures j.JStr? ==> s == j.s
  {
    if j.JStr? then j.s else Repr(j)
  }
}
