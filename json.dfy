/**
 * Values produced by Python's `json.loads`, and the few Python operations the
 * pipeline applies to them without checking their type: `key in v`, `v[key]`,
 * `list.extend(v)`, truthiness and `str(v)`.
 *
 * The decoder itself is an oracle: any function from text to an optional value
 * (`None` when `json.loads` raises `JSONDecodeError`).
 */
module Json {
  import opened Wrappers
  import opened Text

  /** A decoded JSON value. Numbers are integers; object members keep document order. */
  datatype Json =
    | JNull
    | JBool(b: bool)
    | JNum(n: int)
    | JStr(s: string)
    | JArr(items: seq<Json>)
    | JObj(fields: seq<(string, Json)>)

  /** `json.loads` seen as a partial function. */
  type Decoder = string -> Option<Json>

  predicate HasField(fields: seq<(string, Json)>, key: string) {
    exists i :: 0 <= i < |fields| && fields[i].0 == key
  }

  /** The value a Python dict built from `fields` holds for `key`: the last duplicate wins. */
  function FieldValue(fields: seq<(string, Json)>, key: string): (v: Json)
    requires HasField(fields, key)
    ensures exists i :: 0 <= i < |fields| && fields[i] == (key, v) &&
                        (forall j :: i < j < |fields| ==> fields[j].0 != key)
    decreases |fields|
  {
    var last := fields[|fields| - 1];
    if last.0 == key then last.1
    else
      assert HasField(fields[..|fields| - 1], key) by {
        var i :| 0 <= i < |fields| && fields[i].0 == key;
        assert fields[..|fields| - 1][i] == fields[i];
      }
      var v := FieldValue(fields[..|fields| - 1], key);
      assert forall i :: 0 <= i < |fields| - 1 ==> fields[..|fields| - 1][i] == fields[i];
      v
  }

  /**
   * Python's `key in v` for a string key: dict membership, list membership,
   * substring test on a str; any other type raises `TypeError` (`None`).
   */
  function Contains(v: Json, key: string): (r: Option<bool>)
    ensures r == Some(true) <==>
      (v.JObj? && HasField(v.fields, key)) ||
      (v.JArr? && JStr(key) in v.items) ||
      (v.JStr? && Occurs(v.s, key))
    ensures r.None? <==> v.JNull? || v.JBool? || v.JNum?
  {
    match v
    case JObj(fields) => Some(HasField(fields, key))
    case JArr(items) => Some(JStr(key) in items)
    case JStr(s) => Some(Occurs(s, key))
    case _ => None
  }

  /**
   * Python's `v[key]` for a string key: the dict entry; a missing key raises
   * `KeyError` and any other type raises `TypeError` (both `None`).
   */
  function Index(v: Json, key: string): (r: Option<Json>)
    ensures r.Some? <==> v.JObj? && HasField(v.fields, key)
    ensures r.Some? ==> Contains(v, key) == Some(true)
  {
    if v.JObj? && HasField(v.fields, key) then Some(FieldValue(v.fields, key)) else None
  }

  /** Keys of a dict built from `fields`, each once, in first-insertion order. */
  function DictKeys(fields: seq<(string, Json)>): (keys: seq<string>)
    ensures forall k :: k in keys <==> HasField(fields, k)
    ensures forall i, j :: 0 <= i < j < |keys| ==> keys[i] != keys[j]
    decreases |fields|
  {
    if fields == [] then []
    else
      var earlier := DictKeys(fields[..|fields| - 1]);
      assert forall k :: HasField(fields[..|fields| - 1], k) ==> HasField(fields, k) by {
        forall k | HasField(fields[..|fields| - 1], k) ensures HasField(fields, k) {
          var i :| 0 <= i < |fields| - 1 && fields[..|fields| - 1][i].0 == k;
          assert fields[i].0 == k;
        }
      }
      assert forall k :: HasField(fields, k) && k != fields[|fields| - 1].0 ==>
        HasField(fields[..|fields| - 1], k) by {
        forall k | HasField(fields, k) && k != fields[|fields| - 1].0
          ensures HasField(fields[..|fields| - 1], k)
        {
          var i :| 0 <= i < |fields| && fields[i].0 == k;
          assert fields[..|fields| - 1][i].0 == k;
        }
      }
      if fields[|fields| - 1].0 in earlier then earlier else earlier + [fields[|fields| - 1].0]
  }

  /**
   * What Python's `acc.extend(v)` appends: list items; the one-character strings
   * of a str; the keys of a dict. `None`, booleans and numbers raise `TypeError`.
   */
  function ExtendItems(v: Json): (r: Option<seq<Json>>)
    ensures r.None? <==> v.JNull? || v.JBool? || v.JNum?
    ensures v.JArr? ==> r == Some(v.items)
    ensures v.JStr? ==> (r.Some? && |r.value| == |v.s| &&
                        forall i :: 0 <= i < |v.s| ==> r.value[i] == JStr([v.s[i]]))
    ensures v.JObj? ==> (r.Some? &&
      (forall x :: x in r.value <==> x.JStr? && HasField(v.fields, x.s)) &&
      forall i, j :: 0 <= i < j < |r.value| ==> r.value[i] != r.value[j])
  {
    match v
    case JArr(items) => Some(items)
    case JStr(s) => Some(seq(|s|, i requires 0 <= i < |s| => JStr([s[i]])))
    case JObj(fields) =>
      var keys := DictKeys(fields);
      var items := seq(|keys|, i requires 0 <= i < |keys| => JStr(keys[i]));
      assert forall x: Json :: x in items <==> x.JStr? && x.s in keys by {
        forall x: Json | x.JStr? && x.s in keys ensures x in items {
          var i :| 0 <= i < |keys| && keys[i] == x.s;
          assert items[i] == x;
        }
      }
      Some(items)
    case _ => None
  }

  /** Python truthiness of a decoded value. */
  predicate Truthy(v: Json) {
    match v
    case JNull => false
    case JBool(b) => b
    case JNum(n) => n != 0
    case JStr(s) => s != []
    case JArr(items) => items != []
    case JObj(fields) => fields != []
  }

  /** A value for which `key in v` holds for a non-empty key is truthy: a non-empty dict, list or str. */
  lemma ContainsImpliesTruthy(v: Json, key: string)
    requires key != [] && Contains(v, key) == Some(true)
    ensures Truthy(v)
  {
    if v.JStr? {
      var i :| 0 <= i <= |v.s| - |key| && OccursAt(v.s, key, i);
    }
  }

  /** Python's `repr` of a str, without Python's choice of quote or its escapes. */
  function QuotedRepr(s: string): string {
    "'" + s + "'"
  }

  /** Python's `repr(v)`. */
  function Repr(v: Json): string
    decreases v, 1
  {
    match v
    case JStr(s) => QuotedRepr(s)
    case _ => Show(v)
  }

  /** Python's `str(v)`, as an f-string renders a value. */
  function Show(v: Json): string
    decreases v, 0
  {
    match v
    case JNull => "None"
    case JBool(b) => if b then "True" else "False"
    case JNum(n) => IntToString(n)
    case JStr(s) => s
    case JArr(items) =>
      "[" + Join(", ", seq(|items|, i requires 0 <= i < |items| => Repr(items[i]))) + "]"
    case JObj(fields) =>
      "{" + Join(", ", seq(|fields|, i requires 0 <= i < |fields| =>
        QuotedRepr(fields[i].0) + ": " + Repr(fields[i].1))) + "}"
  }
}
