/**
 * An abstract JSON value: what `json.loads` hands to the nodes and what the
 * event payloads carry. Decoding and encoding text are not modelled; a
 * decoder is passed to the nodes as a function.
 */
module Json {
  import opened Wrappers
  import Text

  /** Objects keep their keys in document order (Python dicts preserve insertion order). */
  datatype Json =
    | JNull
    | JBool(b: bool)
    | JInt(i: int)
    | JStr(s: string)
    | JArr(items: seq<Json>)
    | JObj(fields: seq<(string, Json)>)

  /** Python truthiness of the decoded value (`if value:`). */
  predicate Truthy(v: Json)
  {
    match v
    case JNull => false
    case JBool(b) => b
    case JInt(i) => i != 0
    case JStr(s) => s != []
    case JArr(items) => items != []
    case JObj(fields) => fields != []
  }

  /** `key in obj`. */
  predicate HasKey(fields: seq<(string, Json)>, key: string)
  {
    exists i :: 0 <= i < |fields| && fields[i].0 == key
  }

  /** `obj.get(key)`: the value of the first field named `key`. */
  function Get(fields: seq<(string, Json)>, key: string): (r: Option<Json>)
    ensures r.Some? <==> HasKey(fields, key)
    ensures r.Some? ==> exists i :: 0 <= i < |fields| && fields[i] == (key, r.value)
  {
    if fields == [] then None
    else if fields[0].0 == key then Some(fields[0].1)
    else
      var r := Get(fields[1..], key);
      assert HasKey(fields, key) ==> fields[0].0 == key || HasKey(fields[1..], key) by {
        if HasKey(fields, key) {
          var i :| 0 <= i < |fields| && fields[i].0 == key;
          if i > 0 { assert fields[1..][i - 1].0 == key; }
        }
      }
      assert r.Some? ==> exists i :: 0 <= i < |fields| && fields[i] == (key, r.value) by {
        if r.Some? {
          var i :| 0 <= i < |fields[1..]| && fields[1..][i] == (key, r.value);
          assert fields[i + 1] == (key, r.value);
        }
      }
      r
  }

  /** Every element is a string. */
  predicate AllStrings(items: seq<Json>)
  {
    forall i :: 0 <= i < |items| ==> items[i].JStr?
  }

  /** The string elements of a JSON array, in order. */
  function StringItems(items: seq<Json>): (r: seq<string>)
    ensures |r| <= |items|
    ensures AllStrings(items) ==> |r| == |items| && forall i :: 0 <= i < |r| ==> items[i] == JStr(r[i])
  {
    if items == [] then []
    else if items[0].JStr? then [items[0].s] + StringItems(items[1..])
    else StringItems(items[1..])
  }

  /** An object's fields as a dict value (later keys overwrite earlier ones, as `dict.update`). */
  function ToMap(fields: seq<(string, Json)>): (m: map<string, Json>)
    ensures forall k :: k in m <==> HasKey(fields, k)
  {
    if fields == [] then map[]
    else
      var m := ToMap(fields[..|fields| - 1])[fields[|fields| - 1].0 := fields[|fields| - 1].1];
      assert forall k :: HasKey(fields, k) <==> HasKey(fields[..|fields| - 1], k) || fields[|fields| - 1].0 == k by {
        forall k ensures HasKey(fields, k) <==> HasKey(fields[..|fields| - 1], k) || fields[|fields| - 1].0 == k {
          if HasKey(fields, k) {
            var i :| 0 <= i < |fields| && fields[i].0 == k;
            if i < |fields| - 1 { assert fields[..|fields| - 1][i].0 == k; }
          }
          if HasKey(fields[..|fields| - 1], k) {
            var i :| 0 <= i < |fields| - 1 && fields[..|fields| - 1][i].0 == k;
            assert fields[i].0 == k;
          }
        }
      }
      m
  }

  /** A field whose key does not occur before it is what `get` finds. */
  lemma {:induction false} GetAt(fields: seq<(string, Json)>, i: nat)
    requires i < |fields|
    requires forall j :: 0 <= j < i ==> fields[j].0 != fields[i].0
    ensures Get(fields, fields[i].0) == Some(fields[i].1)
  {
    if i > 0 {
      GetAt(fields[1..], i - 1);
    }
  }

  /** Values `len()` and `for` accept: lists, strings and objects. */
  predicate Sized(v: Json)
  {
    v.JArr? || v.JStr? || v.JObj?
  }

  /**
   * What `for x in v` visits: a list's items, a string's characters (each a
   * one-character string), an object's keys. None when `v` is not iterable
   * (a TypeError); `len(v)` is then the length of the result.
   */
  function Items(v: Json): (xs: Option<seq<Json>>)
    ensures xs.Some? <==> Sized(v)
    ensures v.JArr? ==> xs == Some(v.items)
    ensures xs.Some? ==> (|xs.value| == 0 <==> !Truthy(v))
  {
    match v
    case JArr(items) => Some(items)
    case JStr(s) => Some(seq(|s|, i requires 0 <= i < |s| => JStr([s[i]])))
    case JObj(fields) => Some(seq(|fields|, i requires 0 <= i < |fields| => JStr(fields[i].0)))
    case _ => None
  }

  /** Python's `str()` of an integer. */
  function IntText(i: int): (r: string)
    ensures r != []
  {
    if i < 0 then "-" + Text.NatToString(-i) else Text.NatToString(i)
  }

  /**
   * Python's `str(v)`, as an f-string renders a value: a string is itself,
   * other values are their `repr`.
   */
  function Show(v: Json): (r: string)
    ensures v.JStr? ==> r == v.s
    ensures !v.JStr? ==> r == Repr(v)
  {
    if v.JStr? then v.s else Repr(v)
  }

  /** Python's `repr(v)`; strings and keys are written by `Text.StrRepr`. */
  function Repr(v: Json): (r: string)
    ensures r != []
    decreases v
  {
    match v
    case JNull => "None"
    case JBool(b) => if b then "True" else "False"
    case JInt(i) => IntText(i)
    case JStr(s) => Text.StrRepr(s)
    case JArr(items) =>
      "[" + Text.Join(seq(|items|, i requires 0 <= i < |items| => Repr(items[i])), ", ") + "]"
    case JObj(fields) =>
      "{" + Text.Join(seq(|fields|, i requires 0 <= i < |fields| =>
        Text.StrRepr(fields[i].0) + ": " + Repr(fields[i].1)), ", ") + "}"
  }
}
