/** JSON values as the Python code sees them after `json.loads`: a dict keeps the
    order its keys were inserted in, so an object is a sequence of key/value pairs.
    Numbers are integers; floating point is not modelled. */
module Json {

  datatype Option<+T> = None | Some(value: T) {
    function GetOr(default: T): T {
      match this
      case Some(v) => v
      case None => default
    }
  }

  datatype Json =
    | JNull
    | JBool(b: bool)
    | JNumber(n: int)
    | JString(s: string)
    | JArray(items: seq<Json>)
    | JObject(fields: seq<(string, Json)>)

  /** The keys of an object's field list, in insertion order. */
  function Keys(fields: seq<(string, Json)>): (ks: seq<string>)
    ensures |ks| == |fields|
    ensures forall i :: 0 <= i < |fields| ==> ks[i] == fields[i].0
  {
    if fields == [] then [] else [fields[0].0] + Keys(fields[1..])
  }

  /** `key in d` for a Python dict. */
  predicate HasKey(fields: seq<(string, Json)>, key: string) {
    exists i :: 0 <= i < |fields| && fields[i].0 == key
  }

  /** `d[key]` for a key known to be present: the value at its first occurrence. */
  function Get(fields: seq<(string, Json)>, key: string): (v: Json)
    requires HasKey(fields, key)
    ensures exists i :: 0 <= i < |fields| && fields[i] == (key, v) && forall j :: 0 <= j < i ==> fields[j].0 != key
  {
    if fields[0].0 == key then fields[0].1 else Get(fields[1..], key)
  }

  /** The keys of a field list are pairwise distinct, as in a dict literal. */
  predicate DistinctKeys(fields: seq<(string, Json)>) {
    forall i, j :: 0 <= i < j < |fields| ==> fields[i].0 != fields[j].0
  }

  /** With distinct keys, looking up the key of an entry gives that entry's value. */
  lemma {:induction false} GetDistinct(fields: seq<(string, Json)>, i: nat)
    requires DistinctKeys(fields) && i < |fields|
    ensures HasKey(fields, fields[i].0) && Get(fields, fields[i].0) == fields[i].1
  {
    assert fields[i].0 == fields[i].0;
    if i > 0 {
      assert fields[1..][i - 1] == fields[i];
      GetDistinct(fields[1..], i - 1);
    }
  }

  /** Python truthiness of a JSON value: `None`, `False`, `0`, `""`, `[]` and `{}` are false. */
  predicate Truthy(j: Json) {
    match j
    case JNull => false
    case JBool(b) => b
    case JNumber(n) => n != 0
    case JString(s) => s != ""
    case JArray(items) => items != []
    case JObject(fields) => fields != []
  }

  /** `isinstance(v, dict)`. */
  predicate IsDict(j: Json) {
    j.JObject?
  }

  /** `sub in s` for Python strings: `sub` occurs somewhere in `s`. */
  predicate Contains(s: string, sub: string)
    decreases |s|
  {
    sub <= s || (s != [] && Contains(s[1..], sub))
  }

  /** `sub` occurs in `s` starting at index `i`. */
  predicate OccursAt(s: string, sub: string, i: int) {
    0 <= i <= |s| - |sub| && s[i..i + |sub|] == sub
  }

  lemma {:induction false} ContainsGivesOccurrence(s: string, sub: string)
    requires Contains(s, sub)
    ensures exists i :: OccursAt(s, sub, i)
    decreases |s|
  {
    if sub <= s {
      assert OccursAt(s, sub, 0);
    } else {
      ContainsGivesOccurrence(s[1..], sub);
      var i :| OccursAt(s[1..], sub, i);
      assert s[i + 1..i + 1 + |sub|] == s[1..][i..i + |sub|];
      assert OccursAt(s, sub, i + 1);
    }
  }

  lemma {:induction false} OccurrenceGivesContains(s: string, sub: string, i: int)
    requires OccursAt(s, sub, i)
    ensures Contains(s, sub)
    decreases i
  {
    if i == 0 {
      assert s[..|sub|] == sub;
    } else {
      assert s[1..][i - 1..i - 1 + |sub|] == s[i..i + |sub|];
      OccurrenceGivesContains(s[1..], sub, i - 1);
    }
  }

  /** Python's `sub in s` holds exactly when `sub` occurs at some index of `s`. */
  lemma ContainsAt(s: string, sub: string)
    ensures Contains(s, sub) <==> exists i :: OccursAt(s, sub, i)
  {
    if Contains(s, sub) {
      ContainsGivesOccurrence(s, sub);
    }
    if exists i :: OccursAt(s, sub, i) {
      var i :| OccursAt(s, sub, i);
      OccurrenceGivesContains(s, sub, i);
    }
  }
}
