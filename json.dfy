/**
 * Decoded JSON values as the Python code sees them after `json.loads`:
 * objects are dictionaries whose later duplicate keys win, and every value
 * has a truthiness that `if x:` and `x or y` consult.
 */
module Json {
  import opened Text

  /** Numbers are whole numbers here; fractional JSON numbers are not modelled. */
  datatype Json =
    | JNull
    | JBool(b: bool)
    | JNum(n: int)
    | JStr(s: string)
    | JArr(items: seq<Json>)
    | JObj(fields: seq<(string, Json)>)

  predicate HasKey<V>(fields: seq<(string, V)>, key: string) {
    exists i :: 0 <= i < |fields| && fields[i].0 == key
  }

  /** No entry after position `i` carries `key`. */
  predicate LastWith<V>(fields: seq<(string, V)>, key: string, i: nat) {
    forall k :: i < k < |fields| && k >= 0 ==> fields[k].0 != key
  }

  /** The value a dictionary built from `fields` in order holds for `key`:
      the last occurrence (as `json.loads` and repeated assignment keep). */
  function Lookup<V>(fields: seq<(string, V)>, key: string): (r: Option<V>)
    ensures r.None? <==> !HasKey(fields, key)
  {
    if fields == [] then None
    else if fields[|fields| - 1].0 == key then Some(fields[|fields| - 1].1)
    else
      var r := Lookup(fields[..|fields| - 1], key);
      assert HasKey(fields, key) ==> HasKey(fields[..|fields| - 1], key) by {
        if HasKey(fields, key) {
          var i :| 0 <= i < |fields| && fields[i].0 == key;
          assert fields[..|fields| - 1][i].0 == key;
        }
      }
      r
  }

  /** A key that is present holds the value of its last entry. */
  lemma {:induction false} LookupIsLast<V>(fields: seq<(string, V)>, key: string)
    ensures Lookup(fields, key).Some? ==>
      exists i :: 0 <= i < |fields| && fields[i] == (key, Lookup(fields, key).value) && LastWith(fields, key, i)
    decreases |fields|
  {
    if fields != [] && fields[|fields| - 1].0 != key {
      var init := fields[..|fields| - 1];
      LookupIsLast(init, key);
      if Lookup(init, key).Some? {
        var i :| 0 <= i < |init| && init[i] == (key, Lookup(init, key).value) && LastWith(init, key, i);
        assert fields[i] == init[i];
        assert LastWith(fields, key, i);
      }
    } else if fields != [] {
      assert LastWith(fields, key, |fields| - 1);
    }
  }

  /** The entry at `i` is the last one with its key, so its value is found. */
  lemma {:induction false} LookupAt<V>(fields: seq<(string, V)>, i: nat)
    requires i < |fields| && LastWith(fields, fields[i].0, i)
    ensures Lookup(fields, fields[i].0) == Some(fields[i].1)
    decreases |fields|
  {
    if i < |fields| - 1 {
      var init := fields[..|fields| - 1];
      assert init[i] == fields[i];
      LookupAt(init, i);
    }
  }

  /** Every entry of `fields` with key `key` replaced by `(key, v)`. */
  function Replace<V>(fields: seq<(string, V)>, key: string, v: V): (r: seq<(string, V)>)
    ensures |r| == |fields|
    ensures forall i :: 0 <= i < |r| ==> r[i].0 == fields[i].0
    ensures forall i :: 0 <= i < |r| ==> r[i] == (if fields[i].0 == key then (key, v) else fields[i])
  {
    if fields == [] then []
    else
      var last := fields[|fields| - 1];
      Replace(fields[..|fields| - 1], key, v) + [if last.0 == key then (key, v) else last]
  }

  /** `d[key] = v` on an insertion-ordered dictionary: an existing key keeps
      its place, a new one goes last. */
  function Set<V>(fields: seq<(string, V)>, key: string, v: V): (r: seq<(string, V)>)
    ensures HasKey(fields, key) ==> |r| == |fields|
    ensures !HasKey(fields, key) ==> r == fields + [(key, v)]
    ensures forall i :: 0 <= i < |fields| ==> r[i].0 == fields[i].0
  {
    if HasKey(fields, key) then Replace(fields, key, v) else fields + [(key, v)]
  }

  /** After `d[key] = v`, `key` holds `v` and every other key is unchanged. */
  lemma {:induction false} LookupSet<V>(fields: seq<(string, V)>, key: string, v: V, other: string)
    ensures Lookup(Set(fields, key, v), key) == Some(v)
    ensures other != key ==> Lookup(Set(fields, key, v), other) == Lookup(fields, other)
  {
    if HasKey(fields, key) {
      LookupReplace(fields, key, v, key);
      LookupReplace(fields, key, v, other);
    } else {
      var r := fields + [(key, v)];
      assert r[..|r| - 1] == fields;
    }
  }

  lemma {:induction false} LookupReplace<V>(fields: seq<(string, V)>, key: string, v: V, k: string)
    ensures Lookup(Replace(fields, key, v), k) ==
      (if k == key && HasKey(fields, key) then Some(v) else Lookup(fields, k))
    decreases |fields|
  {
    if fields != [] {
      var init := fields[..|fields| - 1];
      var last := fields[|fields| - 1];
      var r := Replace(fields, key, v);
      assert r == Replace(init, key, v) + [if last.0 == key then (key, v) else last];
      assert r[..|r| - 1] == Replace(init, key, v);
      if last.0 == k {
        assert HasKey(fields, k) by { assert fields[|fields| - 1].0 == k; }
      } else {
        LookupReplace(init, key, v, k);
        HasKeyInit(fields, key);
      }
    }
  }

  lemma HasKeyInit<V>(fields: seq<(string, V)>, key: string)
    requires fields != []
    ensures HasKey(fields, key) <==> HasKey(fields[..|fields| - 1], key) || fields[|fields| - 1].0 == key
  {
    var init := fields[..|fields| - 1];
    if HasKey(init, key) {
      var i :| 0 <= i < |init| && init[i].0 == key;
      assert fields[i].0 == key;
    }
    if HasKey(fields, key) && fields[|fields| - 1].0 != key {
      var i :| 0 <= i < |fields| && fields[i].0 == key;
      assert init[i].0 == key;
    }
  }

  /** `d.get(key)` on a dictionary; any other value has no keys. */
  function Get(j: Json, key: string): (r: Option<Json>)
    ensures !j.JObj? ==> r.None?
  {
    if j.JObj? then Lookup(j.fields, key) else None
  }

  /** `d.get(key, default)` on a dictionary. */
  function GetOr(j: Json, key: string, default: Json): (r: Json)
    requires j.JObj?
    ensures Lookup(j.fields, key).None? ==> r == default
  {
    match Lookup(j.fields, key)
    case None => default
    case Some(v) => v
  }

  /** `d.get(key)` where a missing key gives `None`. */
  function GetNull(j: Json, key: string): (r: Json)
    requires j.JObj?
    ensures !HasKey(j.fields, key) ==> r == JNull
  {
    GetOr(j, key, JNull)
  }

  /** Python truthiness of a decoded value. */
  predicate Truthy(j: Json) {
    match j
    case JNull => false
    case JBool(b) => b
    case JNum(n) => n != 0
    case JStr(s) => s != []
    case JArr(items) => items != []
    case JObj(fields) => fields != []
  }

  /** `a or b` */
  function Or(a: Json, b: Json): (r: Json)
    ensures Truthy(r) <==> Truthy(a) || Truthy(b)
    ensures Truthy(a) ==> r == a
  {
    if Truthy(a) then a else b
  }

  /** `str(v)`: scalars as Python prints them; lists and dictionaries get a
      placeholder rendering. */
  function Str(j: Json): (r: string)
    ensures j.JStr? ==> r == j.s
    ensures j.JNull? ==> r == "None"
  {
    match j
    case JNull => "None"
    case JBool(b) => if b then "True" else "False"
    case JNum(n) => IntToString(n)
    case JStr(s) => s
    case JArr(_) => "[...]"
    case JObj(_) => "{...}"
  }

  /** A string-valued field: its text when it holds a string, None otherwise. */
  function AsString(j: Json): (r: Option<string>)
    ensures r.Some? <==> j.JStr?
  {
    if j.JStr? then Some(j.s) else None
  }

  /** The distinct keys of a dictionary, in first-insertion order. */
  function Keys(fields: seq<(string, Json)>): (r: seq<string>)
    ensures |r| <= |fields|
  {
    if fields == [] then []
    else
      var ks := Keys(fields[..|fields| - 1]);
      var k := fields[|fields| - 1].0;
      if k in ks then ks else ks + [k]
  }

  /** What `for x in v` visits: a list's items, a string's characters, a
      dictionary's keys; None where iteration raises `TypeError`. */
  function Items(v: Json): (r: Option<seq<Json>>)
    ensures v.JArr? ==> r == Some(v.items)
    ensures v.JNull? || v.JNum? || v.JBool? ==> r.None?
  {
    match v
    case JArr(items) => Some(items)
    case JStr(s) => Some(seq(|s|, i requires 0 <= i < |s| => JStr([s[i]])))
    case JObj(fields) => Some(seq(|Keys(fields)|, i requires 0 <= i < |Keys(fields)| => JStr(Keys(fields)[i])))
    case _ => None
  }
}
